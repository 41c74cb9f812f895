/** Uniqueness of keys and completeness of lookups, as facts about single steps. */
module HashUnique {
  import opened HashList
  import opened HashSteps

  /** Every live node with the key is either still ahead of the scan cursor or
      between `p` and `iter`, where a compare-and-swap of `p.next` would notice it. */
  ghost predicate NoneBehind(l: List, p: Node, iter: Ptr, cur: Ptr, rh: nat, key: Key)
  {
    && p in l.next && p in l.pos && Known(l, iter) && Known(l, cur)
    && (Live(l, p) ==>
          forall m {:trigger Matches(m, rh, key)} | Live(l, m) && m in l.pos && Matches(m, rh, key) ::
            NotPast(l, cur, m) || (l.pos[p] < l.pos[m] && Before(l, m, iter)))
  }

  ghost predicate OpUnique(l: List, r: Rules, op: Op) {
    match op
    case AddScan(n, m, prev, iter, cur) =>
      n.User? && (n.rh, n.key) in r.uniq ==> NoneBehind(l, prev, iter.to, cur, n.rh, n.key)
    case AddCas(n, m, prev, iter) =>
      n.User? && (n.rh, n.key) in r.uniq ==> NoneBehind(l, prev, iter.to, End, n.rh, n.key)
    case _ => true
  }

  /** No two live nodes share a key that enters by the unique modes only. */
  ghost predicate ListUnique(l: List, r: Rules) {
    forall n, m {:trigger Live(l, n), Live(l, m)} |
      Live(l, n) && Live(l, m) && n.User? && Matches(m, n.rh, n.key) && (n.rh, n.key) in r.uniq :: n == m
  }

  // --- the stepping thread ------------------------------------------------------

  lemma BeginScan(l: List, off: set<Node>, r: Rules, start: Node, op: Op, cur: Ptr)
    requires ListInv(l) && OpOk(l, off, r, start, op) && op.AddAt? && op.n.User?
    requires op.m.Unique? || op.m.AddReplace?
    requires cur == op.iter.to || (cur == End && (op.iter.to.To? ==> op.iter.to.node.rh > op.n.rh))
    ensures NoneBehind(l, op.prev, op.iter.to, cur, op.n.rh, op.n.key)
  {
    var AddAt(n, _, p, iter) := op;
    assert NodeOk(l, p);
    if iter.to.To? { assert NodeOk(l, iter.to.node); }
    if Live(l, p) {
      forall m | Live(l, m) && m in l.pos && Matches(m, n.rh, n.key)
        ensures NotPast(l, cur, m) || (l.pos[p] < l.pos[m] && Before(l, m, iter.to))
      {
        assert PairOk(l, m, p);
        if iter.to.To? { assert PairOk(l, iter.to.node, m); }
      }
    }
  }

  lemma ContinueScan(l: List, off: set<Node>, r: Rules, start: Node, op: Op, cur: Ptr)
    requires ListInv(l) && OpOk(l, off, r, start, op) && op.AddScan?
    requires NoneBehind(l, op.prev, op.iter.to, op.cur, op.n.rh, op.n.key)
    requires op.cur.End? || op.cur.node.rh > op.n.rh ==> cur == End
    requires op.cur.To? && op.cur.node.rh <= op.n.rh ==>
      && cur == Load(l, op.cur.node).to
      && !(Live(l, op.cur.node) && op.cur.node.User? && op.cur.node.key == op.n.key)
    ensures NoneBehind(l, op.prev, op.iter.to, cur, op.n.rh, op.n.key)
  {
    var AddScan(n, _, p, iter, c) := op;
    if c.To? {
      assert NodeOk(l, c.node);
      forall m | Live(l, p) && Live(l, m) && m in l.pos && Matches(m, n.rh, n.key)
        ensures NotPast(l, cur, m) || (l.pos[p] < l.pos[m] && Before(l, m, iter.to))
      {
        assert PairOk(l, c.node, m);
      }
    }
  }

  lemma NothingThere(l: List, r: Rules, op: Op, m: Node)
    requires ListInv(l) && op.AddCas? && op.n.User? && Live(l, op.prev) && l.next[op.prev].to == op.iter.to
    requires NoneBehind(l, op.prev, op.iter.to, End, op.n.rh, op.n.key)
    requires Live(l, m)
    ensures !Matches(m, op.n.rh, op.n.key)
  {
    assert PairOk(l, op.prev, m);
  }

  lemma InsertUnique(l: List, r: Rules, p: Node, n: Node, v: real)
    requires ListInv(l) && WriteOk(l, WInsert(p, n, v)) && ListUnique(l, r)
    requires n.User? && (n.rh, n.key) in r.uniq ==>
               forall m {:trigger Live(l, m)} | Live(l, m) :: !Matches(m, n.rh, n.key)
    ensures ListUnique(Apply(l, WInsert(p, n, v)), r)
  {
    var k := Apply(l, WInsert(p, n, v));
    forall x, y | Live(k, x) && Live(k, y) && x.User? && Matches(y, x.rh, x.key) && (x.rh, x.key) in r.uniq
      ensures x == y
    {
      if x != n { assert Live(l, x); }
      if y != n { assert Live(l, y); }
    }
  }

  lemma ReplaceUnique(l: List, r: Rules, o: Node, n: Node, v: real)
    requires ListInv(l) && WriteOk(l, WReplace(o, n, v)) && ListUnique(l, r)
    ensures ListUnique(Apply(l, WReplace(o, n, v)), r)
  {
    var k := Apply(l, WReplace(o, n, v));
    forall x, y | Live(k, x) && Live(k, y) && x.User? && Matches(y, x.rh, x.key) && (x.rh, x.key) in r.uniq
      ensures x == y
    {
      if x != n { assert Live(l, x) && Live(l, o); }
      if y != n { assert Live(l, y) && Live(l, o); }
    }
  }

  lemma ShrinkUnique(l: List, r: Rules, k: List)
    requires ListUnique(l, r) && forall n | Live(k, n) :: Live(l, n)
    ensures ListUnique(k, r)
  {
    forall x, y | Live(k, x) && Live(k, y) && x.User? && Matches(y, x.rh, x.key) && (x.rh, x.key) in r.uniq
      ensures x == y
    {
      assert Live(l, x) && Live(l, y);
    }
  }

  lemma OwnOpUnique(l: List, off: set<Node>, r: Rules, start: Node, op: Op, v: real)
    requires ListInv(l) && OpOk(l, off, r, start, op) && OpUnique(l, r, op)
    ensures OpUnique(Apply(l, Next(l, start, op, v).w), r, Next(l, start, op, v).op)
  {
    var o := Next(l, start, op, v);
    match op
    case AddAt(n, m, p, iter) =>
      if o.op.AddScan? && n.User? { BeginScan(l, off, r, start, op, iter.to); }
      if o.op.AddCas? && n.User? && !m.Plain? { BeginScan(l, off, r, start, op, End); }
    case AddScan(n, m, p, iter, c) =>
      if c.To? { assert NodeOk(l, c.node); }
      if o.op.AddScan? && n.User? && (n.rh, n.key) in r.uniq { ContinueScan(l, off, r, start, op, o.op.cur); }
      if o.op.AddCas? && n.User? && (n.rh, n.key) in r.uniq { ContinueScan(l, off, r, start, op, End); }
    case _ =>
  }

  lemma OwnUnique(l: List, off: set<Node>, r: Rules, start: Node, op: Op, v: real)
    requires ListInv(l) && OpOk(l, off, r, start, op) && WriteOk(l, Next(l, start, op, v).w)
    requires OpUnique(l, r, op) && ListUnique(l, r)
    ensures ListUnique(Apply(l, Next(l, start, op, v).w), r)
  {
    var w := Next(l, start, op, v).w;
    match w
    case WInsert(p, n, _) =>
      if n.User? && (n.rh, n.key) in r.uniq {
        forall x | Live(l, x) ensures !Matches(x, n.rh, n.key) { NothingThere(l, r, op, x); }
      }
      InsertUnique(l, r, p, n, v);
    case WReplace(k, n, _) => ReplaceUnique(l, r, k, n, v);
    case _ => ShrinkUnique(l, r, Apply(l, w));
  }

  // --- the other threads ----------------------------------------------------------

  /** Two insertion points of the same key cannot face each other: whoever links a
      node with the key does so where the scan has still to look, or inside the gap
      that the scanner's compare-and-swap guards. */
  lemma InsertAhead(l: List, n: Node, p: Node, iter: Ptr, cur: Ptr, p': Node, v: real)
    requires ListInv(l) && n.User? && Live(l, p) && Live(l, p')
    requires WriteOk(l, WInsert(p', n, v))
    requires p in l.pos && Known(l, iter) && Known(l, cur) && Before(l, p, iter)
    requires (p.rh < n.rh || (p.rh == n.rh && p.Bucket?))
    requires (p'.rh < n.rh || (p'.rh == n.rh && p'.Bucket?))
    requires iter.To? ==> n.rh <= iter.node.rh && (n.rh == iter.node.rh ==> iter.node.User?)
    ensures l.pos[p] < v && (iter.To? ==> v < l.pos[iter.node])
  {
    assert PairOk(l, p, p') && PairOk(l, p', p);
    var to := l.next[p'].to;
    if to.To? { assert PairOk(l, to.node, p); }
    if iter.To? { assert PairOk(l, iter.node, p'); }
  }

  /** What the scanning operation knows of its insertion point. */
  ghost predicate Point(l: List, p: Node, iter: Ptr, rh: nat) {
    && p in l.next && p in l.pos && Known(l, iter) && Before(l, p, iter)
    && (p.rh < rh || (p.rh == rh && p.Bucket?))
    && (iter.To? ==> rh <= iter.node.rh && (rh == iter.node.rh ==> iter.node.User?))
  }

  lemma KeepNoneBehind(l: List, w: Write, p: Node, iter: Ptr, cur: Ptr, rh: nat, key: Key)
    requires ListInv(l) && WriteOk(l, w) && NoneBehind(l, p, iter, cur, rh, key) && Point(l, p, iter, rh)
    requires w.WInsert? && Matches(w.n, rh, key) ==> w.p.rh < rh || (w.p.rh == rh && w.p.Bucket?)
    ensures NoneBehind(Apply(l, w), p, iter, cur, rh, key)
  {
    var k := Apply(l, w);
    ApplyEvolves(l, w);
    assert Kept(l, k, p);
    if iter.To? { assert Kept(l, k, iter.node); }
    if cur.To? { assert Kept(l, k, cur.node); }
    if Live(k, p) {
      forall m | Live(k, m) && m in k.pos && Matches(m, rh, key)
        ensures NotPast(k, cur, m) || (k.pos[p] < k.pos[m] && Before(k, m, iter))
      {
        if m in l.next {
          assert NodeOk(l, m);
          assert Kept(l, k, m);
        } else if w.WInsert? {
          InsertAhead(l, w.n, p, iter, cur, w.p, w.v);
        } else if w.WReplace? {
          assert NodeOk(l, w.k);
          assert Matches(w.k, rh, key);
        }
      }
    }
  }

  /** A step of one operation keeps what another one knows about uniqueness. */
  lemma OtherUnique(l: List, off: set<Node>, r: Rules, start: Node, op: Op, v: real,
                    off': set<Node>, start': Node, op': Op)
    requires ListInv(l) && OpOk(l, off, r, start, op) && PlaceOk(l, Next(l, start, op, v).w)
    requires WriteOk(l, Next(l, start, op, v).w)
    requires OpOk(l, off', r, start', op') && OpUnique(l, r, op')
    ensures OpUnique(Apply(l, Next(l, start, op, v).w), r, op')
  {
    var w := Next(l, start, op, v).w;
    if op'.AddScan? && op'.n.User? && (op'.n.rh, op'.n.key) in r.uniq {
      KeepNoneBehind(l, w, op'.prev, op'.iter.to, op'.cur, op'.n.rh, op'.n.key);
    }
    if op'.AddCas? && op'.n.User? && (op'.n.rh, op'.n.key) in r.uniq {
      KeepNoneBehind(l, w, op'.prev, op'.iter.to, End, op'.n.rh, op'.n.key);
    }
  }

  // --- lookups --------------------------------------------------------------------

  ghost predicate Present(l: List, rh: nat, key: Key) {
    exists m :: Live(l, m) && Matches(m, rh, key)
  }

  /** Every live node with the key is ahead of the lookup. */
  ghost predicate AllAhead(l: List, cur: Ptr, rh: nat, key: Key) {
    && Known(l, cur)
    && forall m {:trigger Matches(m, rh, key)} | Live(l, m) && m in l.pos && Matches(m, rh, key) :: NotPast(l, cur, m)
  }

  ghost predicate OneAhead(l: List, cur: Ptr, m: Node) {
    Known(l, cur) && m in l.pos && NotPast(l, cur, m)
  }

  /** From any live bucket at or below the hash, the walk meets all that a walk from
      the first bucket would. */
  lemma BucketLeads(l: List, start: Node, m: Node)
    requires ListInv(l) && Live(l, start) && start.Bucket? && Live(l, m) && m.User? && start.rh <= m.rh
    ensures OneAhead(l, l.next[start].to, m)
  {
    assert PairOk(l, m, start) && PairOk(l, start, m);
  }

  lemma LookStep(l: List, cur: Ptr, m: Node)
    requires ListInv(l) && OneAhead(l, cur, m) && Live(l, m)
    ensures cur.To? && cur.node in l.next && cur.node.rh <= m.rh
    ensures cur.node == m || OneAhead(l, l.next[cur.node].to, m)
  {
    assert PairOk(l, cur.node, m);
  }

  /** The lookup's own step. */
  lemma OwnLook(l: List, off: set<Node>, r: Rules, start: Node, op: Op, v: real)
    requires ListInv(l) && OpOk(l, off, r, start, op) && (op.LookStart? || op.LookAt?)
    requires op.LookAt? ==> AllAhead(l, op.cur, op.rh, op.key)
    requires Present(l, op.rh, op.key)
    ensures var o := Next(l, start, op, v).op;
      (o.LookAt? && o.rh == op.rh && o.key == op.key && AllAhead(l, o.cur, o.rh, o.key))
      || (o.Returned? && o.r.Found? && Matches(o.r.node, op.rh, op.key) && Live(l, o.r.node))
  {
    var m :| Live(l, m) && Matches(m, op.rh, op.key);
    assert NodeOk(l, m);
    if op.LookStart? {
      assert NodeOk(l, start);
      forall m | Live(l, m) && m in l.pos && Matches(m, op.rh, op.key) ensures NotPast(l, l.next[start].to, m) {
        BucketLeads(l, start, m);
      }
    } else {
      LookStep(l, op.cur, m);
      assert NodeOk(l, op.cur.node);
      var o := Next(l, start, op, v).op;
      if o.LookAt? {
        forall m | Live(l, m) && m in l.pos && Matches(m, op.rh, op.key) ensures NotPast(l, o.cur, m) {
          LookStep(l, op.cur, m);
        }
      }
    }
  }

  /** A plain add lands after every live node of its key. */
  lemma PlainLast(l: List, p: Node, n: Node, v: real, m: Node)
    requires ListInv(l) && WriteOk(l, WInsert(p, n, v)) && n.User? && Live(l, m) && Matches(m, n.rh, n.key)
    requires l.next[p].to.To? ==> n.rh < l.next[p].to.node.rh
    ensures m in l.pos && l.pos[m] < v
  {
    assert PairOk(l, p, m);
    if l.next[p].to.To? { assert PairOk(l, l.next[p].to.node, m); }
  }

  /** A step of another operation keeps the lookup's knowledge while the key is present. */
  lemma OtherLook(l: List, off: set<Node>, r: Rules, start: Node, op: Op, v: real, cur: Ptr, rh: nat, key: Key)
    requires ListInv(l) && OpOk(l, off, r, start, op) && OpUnique(l, r, op)
    requires WriteOk(l, Next(l, start, op, v).w)
    requires AllAhead(l, cur, rh, key) && Present(l, rh, key)
    requires (rh, key) in r.uniq || (rh, key) in r.dup
    ensures AllAhead(Apply(l, Next(l, start, op, v).w), cur, rh, key)
  {
    var w := Next(l, start, op, v).w;
    var k := Apply(l, w);
    ApplyEvolves(l, w);
    if cur.To? { assert Kept(l, k, cur.node); }
    forall m | Live(k, m) && m in k.pos && Matches(m, rh, key) ensures NotPast(k, cur, m) {
      if m in l.next {
        assert NodeOk(l, m);
        assert Kept(l, k, m);
      } else {
        var x :| Live(l, x) && Matches(x, rh, key);
        assert NodeOk(l, x);
        if w.WInsert? {
          if op.m.Plain? { PlainLast(l, w.p, w.n, w.v, x); } else { NothingThere(l, r, op, x); }
        } else if w.WReplace? {
          assert NodeOk(l, w.k);
          assert Matches(w.k, rh, key);
        }
      }
    }
  }
}
