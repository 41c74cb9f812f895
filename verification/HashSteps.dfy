/** One operation on the hash table as a sequence of shared-memory accesses: the
    control flow of add, replace, del, garbage collection, bucket removal and
    lookup, one load, compare-and-swap, fetch-or or exchange at a time. */
module HashSteps {
  import opened HashList

  /** Keys that enter by the unique modes only, and keys that enter by plain add
      only.  Other keys may enter either way. */
  datatype Rules = Rules(uniq: set<(nat, Key)>, dup: set<(nat, Key)>)

  datatype Mode = Plain | Unique | AddReplace | BucketMode

  /** What follows a garbage collection pass for the removed node. */
  datatype After = ThenOwn | ThenReplaced | ThenBucket

  datatype Result =
    | Added
    | Exists(node: Node)
    | Replaced(node: Node)
    | Removed(node: Node)
    | NoEntry
    | BucketRemoved(node: Node)
    | Found(node: Node, next: Link)
    | NotFound

  datatype Op =
    | Idle
    | Returned(r: Result)
    // _cds_lfht_add
    | AddStart(n: Node, m: Mode)
    | AddAt(n: Node, m: Mode, prev: Node, iter: Link)
    | AddScan(n: Node, m: Mode, prev: Node, iter: Link, cur: Ptr)
    | AddCas(n: Node, m: Mode, prev: Node, iter: Link)
    | AddGc(n: Node, m: Mode, prev: Node, iter: Link, nx: Link)
    // _cds_lfht_replace
    | ReplCas(k: Node, was: Link, n: Node, again: bool)
    // _cds_lfht_gc_bucket, on behalf of the removed node `d`
    | GcStart(d: Node, after: After)
    | GcAt(d: Node, after: After, prev: Node, iter: Link)
    | GcCas(d: Node, after: After, prev: Node, iter: Link, nx: Link)
    // _cds_lfht_del
    | DelRead(d: Node)
    | DelOr(d: Node)
    | DelReread(d: Node)
    | DelXchg(d: Node, w: Link)
    // remove_table_partition, one bucket
    | BktOr(d: Node)
    // cds_lfht_lookup
    | LookStart(rh: nat, key: Key)
    | LookAt(rh: nat, key: Key, cur: Ptr)

  datatype Outcome = Then(w: Write, op: Op)

  predicate Matches(n: Node, rh: nat, key: Key) { n.User? && n.rh == rh && n.key == key }

  /** The next shared access of an operation that starts from bucket `start`;
      `v` is the history place that a successful insertion takes. */
  function Next(l: List, start: Node, op: Op, v: real): Outcome {
    match op
    case Idle => Then(Nop, op)
    case Returned(_) => Then(Nop, Idle)
    case AddStart(n, m) => Then(Nop, AddAt(n, m, start, Load(l, start)))
    case AddAt(n, m, prev, iter) =>
      if iter.to.End? || iter.to.node.rh > n.rh || (m.BucketMode? && iter.to.node.rh == n.rh) then
        Then(Nop, AddCas(n, m, prev, iter))
      else
        var nx := Load(l, iter.to.node);
        if nx.removed then Then(Nop, AddGc(n, m, prev, iter, nx))
        else if (m.Unique? || m.AddReplace?) && !nx.bucket && iter.to.node.rh == n.rh then
          Then(Nop, AddScan(n, m, prev, iter, iter.to))
        else Then(Nop, AddAt(n, m, iter.to.node, nx))
    case AddScan(n, m, prev, iter, cur) =>
      if cur.End? || cur.node.rh > n.rh then Then(Nop, AddCas(n, m, prev, iter))
      else
        var nx := Load(l, cur.node);
        if !nx.removed && !nx.bucket && cur.node.User? && n.User? && cur.node.key == n.key then
          if m.AddReplace? then Then(Nop, ReplCas(cur.node, nx, n, true))
          else Then(Nop, Returned(Exists(cur.node)))
        else Then(Nop, AddScan(n, m, prev, iter, nx.to))
    case AddCas(n, m, prev, iter) =>
      if Load(l, prev) == iter then Then(WInsert(prev, n, v), Returned(Added))
      else Then(Nop, AddStart(n, m))
    case AddGc(n, m, prev, iter, nx) =>
      Then(if iter.to.To? && Load(l, prev) == iter then WUnlink(prev, iter.to.node, nx.to) else Nop, AddStart(n, m))
    case ReplCas(k, was, n, again) =>
      if was.removed then Then(Nop, if again then AddStart(n, AddReplace) else Returned(NoEntry))
      else if Load(l, k) == was then Then(WReplace(k, n, v), GcStart(k, ThenReplaced))
      else Then(Nop, ReplCas(k, Load(l, k), n, again))
    case GcStart(d, after) => Then(Nop, GcAt(d, after, start, Load(l, start)))
    case GcAt(d, after, prev, iter) =>
      if iter.to.End? || iter.to.node.rh > d.rh then
        Then(Nop, match after
                  case ThenOwn => DelReread(d)
                  case ThenReplaced => Returned(Replaced(d))
                  case ThenBucket => Returned(BucketRemoved(d)))
      else
        var nx := Load(l, iter.to.node);
        if nx.removed then Then(Nop, GcCas(d, after, prev, iter, nx))
        else Then(Nop, GcAt(d, after, iter.to.node, nx))
    case GcCas(d, after, prev, iter, nx) =>
      Then(if iter.to.To? && Load(l, prev) == iter then WUnlink(prev, iter.to.node, nx.to) else Nop, GcStart(d, after))
    case DelRead(d) => Then(Nop, if Load(l, d).removed then Returned(NoEntry) else DelOr(d))
    case DelOr(d) => Then(WMark(d), GcStart(d, ThenOwn))
    case DelReread(d) => Then(Nop, DelXchg(d, Load(l, d)))
    case DelXchg(d, w) => Then(WOwn(d, w), Returned(if Load(l, d).owner then NoEntry else Removed(d)))
    case BktOr(d) => Then(WMark(d), GcStart(d, ThenBucket))
    case LookStart(rh, key) => Then(Nop, LookAt(rh, key, Load(l, start).to))
    case LookAt(rh, key, cur) =>
      if cur.End? || cur.node.rh > rh then Then(Nop, Returned(NotFound))
      else
        var nx := Load(l, cur.node);
        if !nx.removed && !nx.bucket && Matches(cur.node, rh, key) then Then(Nop, Returned(Found(cur.node, nx)))
        else Then(Nop, LookAt(rh, key, nx.to))
  }

  // --- what an operation in progress may rely on --------------------------------

  /** `n` may be dereferenced by a section that began after `off` was unlinked. */
  predicate Ref(l: List, off: set<Node>, n: Node) {
    n in l.next && n in l.pos && n !in off
  }

  predicate RefPtr(l: List, off: set<Node>, p: Ptr) {
    p.To? ==> Ref(l, off, p.node)
  }

  /** The node that an operation is about to link. */
  predicate Adds(op: Op, n: Node) {
    match op
    case AddStart(a, _) => n == a
    case AddAt(a, _, _, _) => n == a
    case AddScan(a, _, _, _, _) => n == a
    case AddCas(a, _, _, _) => n == a
    case AddGc(a, _, _, _, _) => n == a
    case ReplCas(_, _, a, _) => n == a
    case _ => false
  }

  predicate Resting(op: Op) { op.Idle? || op.Returned? }

  ghost predicate AddOk(l: List, r: Rules, start: Node, n: Node, m: Mode) {
    && n !in l.next
    && start.rh <= n.rh
    && (m.BucketMode? <==> n.Bucket?)
    && (n.Bucket? ==> start.rh < n.rh)
    && (n.User? && m.Plain? ==> (n.rh, n.key) !in r.uniq)
    && (n.User? && !m.Plain? ==> (n.rh, n.key) !in r.dup)
  }

  /** A position of the insertion traversal: `iter` is what `prev.next` held. */
  ghost predicate AddPos(l: List, off: set<Node>, n: Node, m: Mode, prev: Node, iter: Link) {
    && Ref(l, off, prev) && RefPtr(l, off, iter.to)
    && !iter.removed && !iter.owner && iter.bucket == prev.Bucket?
    && Before(l, prev, iter.to)
    && prev.rh <= n.rh
    && (n.Bucket? ==> prev.rh < n.rh)
    && (m.Unique? || m.AddReplace? ==> prev.rh < n.rh || prev.Bucket?)
  }

  /** Where the traversal may stop and insert. */
  predicate AddHere(n: Node, m: Mode, iter: Link) {
    iter.to.To? ==>
      && n.rh <= iter.to.node.rh
      && (m.Plain? ==> n.rh < iter.to.node.rh)
      && (n.User? && n.rh == iter.to.node.rh ==> iter.to.node.User?)
  }

  /** `nx` is the frozen word of the removed node that `iter` points to. */
  ghost predicate Frozen(l: List, off: set<Node>, iter: Link, nx: Link) {
    && iter.to.To? && iter.to.node in l.next
    && l.next[iter.to.node].removed && l.next[iter.to.node].to == nx.to
    && RefPtr(l, off, nx.to)
  }

  /** The pass has not gone past `d` while `d` was linked. */
  predicate GcBefore(l: List, d: Node, iter: Link) {
    d !in l.on || (d in l.pos && (iter.to.To? ==> iter.to.node in l.pos) && NotPast(l, iter.to, d))
  }

  ghost predicate GcOk(l: List, off: set<Node>, start: Node, d: Node, after: After) {
    && d in l.next && d !in off && l.next[d].removed && d.Bucket? == after.ThenBucket?
    && start.rh <= d.rh
    && (d.Bucket? ==> start.rh < d.rh)
  }

  ghost predicate OpOk(l: List, off: set<Node>, r: Rules, start: Node, op: Op) {
    && (Resting(op) || (Live(l, start) && start.Bucket?))
    && match op
       case Idle => true
       case Returned(res) =>
         (match res
          case Removed(n) => n in l.next && n !in l.on
          case Replaced(n) => n in l.next && n !in l.on
          case BucketRemoved(n) => n in l.next && n !in l.on
          case Found(n, nx) => Ref(l, off, n) && n.User?
          case Exists(n) => Ref(l, off, n) && n.User?
          case _ => true)
       case AddStart(n, m) => AddOk(l, r, start, n, m)
       case AddAt(n, m, prev, iter) => AddOk(l, r, start, n, m) && AddPos(l, off, n, m, prev, iter)
       case AddScan(n, m, prev, iter, cur) =>
         && AddOk(l, r, start, n, m) && AddPos(l, off, n, m, prev, iter) && AddHere(n, m, iter)
         && (m.Unique? || m.AddReplace?)
         && iter.to.To? && iter.to.node.rh == n.rh && iter.to.node.User?
         && RefPtr(l, off, cur)
         && (cur.To? ==> l.pos[iter.to.node] <= l.pos[cur.node])
       case AddCas(n, m, prev, iter) =>
         AddOk(l, r, start, n, m) && AddPos(l, off, n, m, prev, iter) && AddHere(n, m, iter)
       case AddGc(n, m, prev, iter, nx) =>
         AddOk(l, r, start, n, m) && AddPos(l, off, n, m, prev, iter) && Frozen(l, off, iter, nx)
       case ReplCas(k, was, n, again) =>
         && Ref(l, off, k) && k.User? && n.User? && n !in l.next && n.rh == k.rh && n.key == k.key
         && start.rh <= n.rh && (again ==> AddOk(l, r, start, n, AddReplace))
       case GcStart(d, after) => GcOk(l, off, start, d, after)
       case GcAt(d, after, prev, iter) =>
         && GcOk(l, off, start, d, after)
         && Ref(l, off, prev) && RefPtr(l, off, iter.to)
         && !iter.removed && !iter.owner && iter.bucket == prev.Bucket?
         && GcBefore(l, d, iter)
       case GcCas(d, after, prev, iter, nx) =>
         && GcOk(l, off, start, d, after)
         && Ref(l, off, prev) && RefPtr(l, off, iter.to)
         && !iter.removed && !iter.owner && iter.bucket == prev.Bucket?
         && Frozen(l, off, iter, nx)
       case DelRead(d) => Ref(l, off, d) && d.User? && start.rh <= d.rh
       case DelOr(d) => Ref(l, off, d) && d.User? && start.rh <= d.rh
       case DelReread(d) => d in l.next && d !in off && d.User? && l.next[d].removed && d !in l.on
       case DelXchg(d, w) =>
         && d in l.next && d !in off && d.User? && l.next[d].removed && d !in l.on
         && w.to == l.next[d].to && w.removed && w.bucket == l.next[d].bucket
       case BktOr(d) => d in l.next && d !in off && d.Bucket? && start.rh < d.rh
       case LookStart(rh, key) => start.rh <= rh
       case LookAt(rh, key, cur) => RefPtr(l, off, cur)
  }

  /** Writes of other threads leave an operation's knowledge intact, as long as
      they keep its start bucket live and do not link the node it is adding. */
  lemma OpStable(l: List, k: List, off: set<Node>, r: Rules, start: Node, op: Op)
    requires Evolves(l, k) && OpOk(l, off, r, start, op)
    requires Resting(op) || Live(k, start)
    requires forall n | Adds(op, n) :: n !in k.next
    ensures OpOk(k, off, r, start, op)
  {
    if !Resting(op) { assert Kept(l, k, start); }
    match op
    case Idle =>
    case Returned(res) =>
      if res.Removed? || res.Replaced? || res.BucketRemoved? || res.Found? || res.Exists? {
        assert Kept(l, k, res.node);
      }
    case AddStart(n, m) => assert Adds(op, n);
    case AddAt(n, m, prev, iter) => assert Adds(op, n); PosStable(l, k, off, n, m, prev, iter);
    case AddScan(n, m, prev, iter, cur) =>
      assert Adds(op, n);
      PosStable(l, k, off, n, m, prev, iter);
      assert Kept(l, k, iter.to.node);
      if cur.To? { assert Kept(l, k, cur.node); }
    case AddCas(n, m, prev, iter) => assert Adds(op, n); PosStable(l, k, off, n, m, prev, iter);
    case AddGc(n, m, prev, iter, nx) =>
      assert Adds(op, n);
      PosStable(l, k, off, n, m, prev, iter);
      FrozenStable(l, k, off, iter, nx);
    case ReplCas(o, was, n, again) => assert Adds(op, n); assert Kept(l, k, o);
    case GcStart(d, after) => assert Kept(l, k, d);
    case GcAt(d, after, prev, iter) =>
      assert Kept(l, k, d) && Kept(l, k, prev);
      if iter.to.To? { assert Kept(l, k, iter.to.node); }
    case GcCas(d, after, prev, iter, nx) =>
      assert Kept(l, k, d) && Kept(l, k, prev) && Kept(l, k, iter.to.node);
      FrozenStable(l, k, off, iter, nx);
    case DelRead(d) => assert Kept(l, k, d);
    case DelOr(d) => assert Kept(l, k, d);
    case DelReread(d) => assert Kept(l, k, d);
    case DelXchg(d, w) => assert Kept(l, k, d);
    case BktOr(d) => assert Kept(l, k, d);
    case LookStart(rh, key) =>
    case LookAt(rh, key, cur) => if cur.To? { assert Kept(l, k, cur.node); }
  }

  lemma PosStable(l: List, k: List, off: set<Node>, n: Node, m: Mode, prev: Node, iter: Link)
    requires Evolves(l, k) && AddPos(l, off, n, m, prev, iter)
    ensures AddPos(k, off, n, m, prev, iter)
  {
    assert Kept(l, k, prev);
    if iter.to.To? { assert Kept(l, k, iter.to.node); }
  }

  lemma FrozenStable(l: List, k: List, off: set<Node>, iter: Link, nx: Link)
    requires Evolves(l, k) && Frozen(l, off, iter, nx)
    ensures Frozen(k, off, iter, nx)
  {
    assert Kept(l, k, iter.to.node);
    if nx.to.To? { assert Kept(l, k, nx.to.node); }
  }

  // --- one access of an operation -------------------------------------------------

  /** The history place of an insertion is free; see FreePlaceExists. */
  ghost predicate PlaceOk(l: List, w: Write) {
    match w
    case WInsert(p, n, v) => p in l.pos && FreePlace(l, p, v)
    case WReplace(k, n, v) => k in l.pos && FreePlace(l, k, v)
    case _ => true
  }

  /** Every access keeps the list invariant's preconditions and the operation's own
      knowledge; in particular no write ever hits an unlinked or removed node. */
  ghost predicate Good(l: List, off: set<Node>, r: Rules, start: Node, o: Outcome) {
    WriteOk(l, o.w) && OpOk(Apply(l, o.w), off, r, start, o.op)
  }

  lemma StepOk(l: List, off: set<Node>, r: Rules, start: Node, op: Op, v: real)
    requires ListInv(l) && Closed(l, off) && OpOk(l, off, r, start, op)
    requires PlaceOk(l, Next(l, start, op, v).w)
    ensures Good(l, off, r, start, Next(l, start, op, v))
  {
    if op.AddAt? || op.AddScan? || op.AddCas? || op.AddGc? { AddStepOk(l, off, r, start, op, v); }
    else if op.AddStart? || op.LookStart? || op.LookAt? { StartOk(l, off, r, start, op, v); }
    else if op.GcStart? || op.GcAt? || op.GcCas? { GcStepOk(l, off, r, start, op, v); }
    else if op.ReplCas? { ReplCasOk(l, off, r, start, op, v); }
    else if !Resting(op) { DelOk(l, off, r, start, op, v); }
  }

  lemma AddStepOk(l: List, off: set<Node>, r: Rules, start: Node, op: Op, v: real)
    requires ListInv(l) && Closed(l, off) && OpOk(l, off, r, start, op)
    requires op.AddAt? || op.AddScan? || op.AddCas? || op.AddGc?
    requires PlaceOk(l, Next(l, start, op, v).w)
    ensures Good(l, off, r, start, Next(l, start, op, v))
  {
    if op.AddAt? { AddAtOk(l, off, r, start, op, v); }
    else if op.AddScan? { AddScanOk(l, off, r, start, op, v); }
    else if op.AddCas? { AddCasOk(l, off, r, start, op, v); }
    else { AddGcOk(l, off, r, start, op, v); }
  }

  lemma GcStepOk(l: List, off: set<Node>, r: Rules, start: Node, op: Op, v: real)
    requires ListInv(l) && Closed(l, off) && OpOk(l, off, r, start, op)
    requires op.GcStart? || op.GcAt? || op.GcCas?
    ensures Good(l, off, r, start, Next(l, start, op, v))
  {
    if op.GcStart? { GcStartOk(l, off, r, start, op, v); }
    else if op.GcAt? { GcAtOk(l, off, r, start, op, v); }
    else { GcCasOk(l, off, r, start, op, v); }
  }

  lemma StartOk(l: List, off: set<Node>, r: Rules, start: Node, op: Op, v: real)
    requires ListInv(l) && Closed(l, off) && OpOk(l, off, r, start, op)
    requires op.AddStart? || op.LookStart? || op.LookAt?
    ensures Good(l, off, r, start, Next(l, start, op, v))
  {
    assert NodeOk(l, start);
    if l.next[start].to.To? { assert NodeOk(l, l.next[start].to.node); }
    if op.LookAt? && op.cur.To? {
      assert NodeOk(l, op.cur.node);
      var nx := l.next[op.cur.node];
      if nx.to.To? { assert NodeOk(l, nx.to.node); }
    }
  }

  lemma DelOk(l: List, off: set<Node>, r: Rules, start: Node, op: Op, v: real)
    requires ListInv(l) && OpOk(l, off, r, start, op)
    requires op.DelRead? || op.DelOr? || op.DelReread? || op.DelXchg? || op.BktOr?
    ensures Good(l, off, r, start, Next(l, start, op, v))
  {
    assert NodeOk(l, op.d);
  }

  lemma AddAtOk(l: List, off: set<Node>, r: Rules, start: Node, op: Op, v: real)
    requires ListInv(l) && Closed(l, off) && OpOk(l, off, r, start, op) && op.AddAt?
    ensures Good(l, off, r, start, Next(l, start, op, v))
  {
    var AddAt(n, m, prev, iter) := op;
    assert NodeOk(l, prev);
    if iter.to.To? {
      assert NodeOk(l, iter.to.node);
      var nx := l.next[iter.to.node];
      if nx.to.To? { assert NodeOk(l, nx.to.node); }
    }
  }

  lemma AddScanOk(l: List, off: set<Node>, r: Rules, start: Node, op: Op, v: real)
    requires ListInv(l) && Closed(l, off) && OpOk(l, off, r, start, op) && op.AddScan?
    ensures Good(l, off, r, start, Next(l, start, op, v))
  {
    var AddScan(n, m, prev, iter, cur) := op;
    if cur.To? {
      assert NodeOk(l, cur.node);
      assert PairOk(l, iter.to.node, cur.node);
      var nx := l.next[cur.node];
      if nx.to.To? { assert NodeOk(l, nx.to.node); }
    }
  }

  lemma AddCasOk(l: List, off: set<Node>, r: Rules, start: Node, op: Op, v: real)
    requires ListInv(l) && OpOk(l, off, r, start, op) && op.AddCas?
    requires PlaceOk(l, Next(l, start, op, v).w)
    ensures Good(l, off, r, start, Next(l, start, op, v))
  {
  }

  lemma AddGcOk(l: List, off: set<Node>, r: Rules, start: Node, op: Op, v: real)
    requires ListInv(l) && OpOk(l, off, r, start, op) && op.AddGc?
    ensures Good(l, off, r, start, Next(l, start, op, v))
  {
    assert NodeOk(l, op.iter.to.node);
  }

  lemma ReplCasOk(l: List, off: set<Node>, r: Rules, start: Node, op: Op, v: real)
    requires ListInv(l) && OpOk(l, off, r, start, op) && op.ReplCas?
    requires PlaceOk(l, Next(l, start, op, v).w)
    ensures Good(l, off, r, start, Next(l, start, op, v))
  {
    assert NodeOk(l, op.k);
  }

  lemma GcStartOk(l: List, off: set<Node>, r: Rules, start: Node, op: Op, v: real)
    requires ListInv(l) && Closed(l, off) && OpOk(l, off, r, start, op) && op.GcStart?
    ensures Good(l, off, r, start, Next(l, start, op, v))
  {
    var d := op.d;
    assert NodeOk(l, start) && NodeOk(l, d);
    assert PairOk(l, d, start) && PairOk(l, start, d);
    var nx := l.next[start];
    if nx.to.To? { assert NodeOk(l, nx.to.node); }
  }

  lemma GcAtOk(l: List, off: set<Node>, r: Rules, start: Node, op: Op, v: real)
    requires ListInv(l) && Closed(l, off) && OpOk(l, off, r, start, op) && op.GcAt?
    ensures Good(l, off, r, start, Next(l, start, op, v))
  {
    var GcAt(d, after, prev, iter) := op;
    assert NodeOk(l, d);
    if iter.to.To? {
      var q := iter.to.node;
      assert NodeOk(l, q);
      assert PairOk(l, q, d);
      var nx := l.next[q];
      if nx.to.To? { assert NodeOk(l, nx.to.node); }
    }
  }

  lemma GcCasOk(l: List, off: set<Node>, r: Rules, start: Node, op: Op, v: real)
    requires ListInv(l) && OpOk(l, off, r, start, op) && op.GcCas?
    ensures Good(l, off, r, start, Next(l, start, op, v))
  {
    assert NodeOk(l, op.iter.to.node);
  }

  // --- what one access does to the rest of the table ------------------------------

  /** `op` is on its way to unlink the retired bucket `d`. */
  predicate Removing(op: Op, d: Node) {
    match op
    case BktOr(x) => x == d
    case GcStart(x, after) => x == d && after.ThenBucket?
    case GcAt(x, after, _, _) => x == d && after.ThenBucket?
    case GcCas(x, after, _, _, _) => x == d && after.ThenBucket?
    case _ => false
  }

  /** `op` set REMOVED on `d` and has still to try for REMOVAL_OWNER. */
  predicate DelBusy(op: Op, d: Node) {
    match op
    case GcStart(x, after) => x == d && after.ThenOwn?
    case GcAt(x, after, _, _) => x == d && after.ThenOwn?
    case GcCas(x, after, _, _, _) => x == d && after.ThenOwn?
    case DelReread(x) => x == d
    case DelXchg(x, _) => x == d
    case _ => false
  }

  /** Successful removals: the exchange that first sets REMOVAL_OWNER, and the
      replacement compare-and-swap. */
  function Wins(l: List, w: Write): multiset<Node> {
    match w
    case WOwn(d, _) => if Load(l, d).owner then multiset{} else multiset{d}
    case WReplace(k, _, _) => multiset{k}
    case _ => multiset{}
  }

  /** Only the node being added becomes known, and it stays the one being added
      until it is linked. */
  ghost predicate AddEffect(l: List, op: Op, o: Outcome) {
    && (forall n {:trigger Adds(op, n)} | n in Apply(l, o.w).next && n !in l.next :: Adds(op, n))
    && (forall n {:trigger Adds(o.op, n)} | Adds(o.op, n) :: Adds(op, n))
    && (forall n {:trigger Adds(op, n)} | Adds(op, n) && n.Bucket? :: Adds(o.op, n) || Live(Apply(l, o.w), n))
  }

  /** Only retiring a bucket ends its life, and the retiring pass ends with the bucket
      unlinked. */
  ghost predicate BucketEffect(l: List, op: Op, o: Outcome) {
    && (forall b: Node {:trigger Live(l, b)} |
          b.Bucket? && Live(l, b) && !(op.BktOr? && op.d == b) :: Live(Apply(l, o.w), b))
    && (forall d {:trigger Removing(op, d)} | Removing(op, d) :: Removing(o.op, d) || d !in Apply(l, o.w).on)
    && !o.op.BktOr?
  }

  /** Whoever set REMOVED goes on until the node is owned. */
  ghost predicate DelEffect(l: List, op: Op, o: Outcome) {
    && (forall d {:trigger DelBusy(op, d)} |
          DelBusy(op, d) && d in Apply(l, o.w).next && !Apply(l, o.w).next[d].owner :: DelBusy(o.op, d))
    && (o.w.WMark? && o.w.n.User? ==> DelBusy(o.op, o.w.n))
    && (Resting(op) ==> Resting(o.op))
  }

  lemma AddEffectOk(l: List, off: set<Node>, r: Rules, start: Node, op: Op, v: real)
    requires OpOk(l, off, r, start, op) && WriteOk(l, Next(l, start, op, v).w)
    ensures AddEffect(l, op, Next(l, start, op, v))
  {
  }

  lemma BucketEffectOk(l: List, off: set<Node>, r: Rules, start: Node, op: Op, v: real)
    requires ListInv(l) && OpOk(l, off, r, start, op) && Good(l, off, r, start, Next(l, start, op, v))
    ensures BucketEffect(l, op, Next(l, start, op, v))
  {
  }

  lemma DelEffectOk(l: List, off: set<Node>, r: Rules, start: Node, op: Op, v: real)
    requires OpOk(l, off, r, start, op) && WriteOk(l, Next(l, start, op, v).w)
    ensures DelEffect(l, op, Next(l, start, op, v))
  {
  }

  /** REMOVAL_OWNER is gained exactly by a successful removal, and REMOVED is gained
      by a fetch-or or by a replacement. */
  ghost predicate Ownership(l: List, w: Write, d: Node) {
    var k := Apply(l, w);
    && Wins(l, w)[d] == (if d in k.next && k.next[d].owner && !(d in l.next && l.next[d].owner) then 1 else 0)
    && (d in l.next && l.next[d].owner ==> d in k.next && k.next[d].owner)
    && (d in k.next && k.next[d].removed && !k.next[d].owner && !(d in l.next && l.next[d].removed) ==>
          w.WMark? && w.n == d)
  }

  lemma OwnershipOk(l: List, w: Write, d: Node)
    requires ListInv(l) && WriteOk(l, w)
    ensures Ownership(l, w, d)
  {
    if d in l.next { assert NodeOk(l, d); }
  }
}
