/** Every action of the hash table machine keeps its invariant. */
module HashTableProof {
  import opened HashList
  import opened HashSteps
  import opened HashUnique
  import opened HashTable
  import opened SplitOrder

  // --- a step of an operation ---------------------------------------------------

  /** What the step lemmas establish about an outcome of thread `t`. */
  ghost predicate Move(s: State, t: Tid, o: Outcome) {
    && t in s.th
    && Good(s.l, s.th[t].off, s.r, s.th[t].start, o)
    && OpUnique(Apply(s.l, o.w), s.r, o.op)
    && ListUnique(Apply(s.l, o.w), s.r)
    && (forall u {:trigger s.th[u]} | u in s.th && u != t :: OpUnique(Apply(s.l, o.w), s.r, s.th[u].op))
    && AddEffect(s.l, s.th[t].op, o)
    && BucketEffect(s.l, s.th[t].op, o)
    && DelEffect(s.l, s.th[t].op, o)
  }

  lemma MoveOf(s: State, t: Tid, v: real)
    requires ListInv(s.l) && ListUnique(s.l, s.r) && ThreadsOk(s) && t in s.th
    requires PlaceOk(s.l, Next(s.l, s.th[t].start, s.th[t].op, v).w)
    ensures Move(s, t, Next(s.l, s.th[t].start, s.th[t].op, v))
  {
    var x := s.th[t];
    assert ThreadOk(s, t);
    StepOk(s.l, x.off, s.r, x.start, x.op, v);
    OwnOpUnique(s.l, x.off, s.r, x.start, x.op, v);
    OwnUnique(s.l, x.off, s.r, x.start, x.op, v);
    AddEffectOk(s.l, x.off, s.r, x.start, x.op, v);
    BucketEffectOk(s.l, x.off, s.r, x.start, x.op, v);
    DelEffectOk(s.l, x.off, s.r, x.start, x.op, v);
    forall u | u in s.th && u != t
      ensures OpUnique(Apply(s.l, Next(s.l, x.start, x.op, v).w), s.r, s.th[u].op)
    {
      var y := s.th[u];
      assert ThreadOk(s, u);
      OtherUnique(s.l, x.off, s.r, x.start, x.op, v, y.off, y.start, y.op);
    }
  }

  /** A bucket of the published table is not the one being retired. */
  lemma StartSurvives(s: State, t: Tid, o: Outcome, b: Node, j: nat)
    requires Move(s, t, o) && ThreadOk(s, t)
    requires b.Bucket? && b.rh == RevHash(j) && Live(s.l, b) && j < Pow2(BITS)
    requires s.rz.ShrinkRemove? ==> s.rz.o > 0 && j < Pow2(s.rz.o - 1)
    ensures Live(Apply(s.l, o.w), b)
  {
    RevHashInverse(j);
    assert s.th[t].op.BktOr? && s.th[t].op.d == b ==> RevHash(b.rh) == j;
  }

  lemma AddsUnlinked(s: State, t: Tid, o: Outcome, u: Tid, n: Node)
    requires Move(s, t, o) && u in s.th && u != t && ThreadOk(s, u) && Distinct(s, t, u) && Distinct(s, u, t)
    requires Adds(s.th[u].op, n)
    ensures n !in Apply(s.l, o.w).next
  {
    assert n !in s.l.next;
    assert !Adds(s.th[t].op, n);
  }

  lemma OtherStart(s: State, t: Tid, o: Outcome, u: Tid)
    requires Move(s, t, o) && u in s.th && u != t && ThreadOk(s, t) && ThreadOk(s, u)
    requires s.order <= BITS && (s.rz.ShrinkWait? ==> s.order < BITS) && (s.rz.ShrinkRemove? ==> s.rz.o == s.order + 1)
    ensures Resting(s.th[u].op) || Live(Apply(s.l, o.w), s.th[u].start)
  {
    var y := s.th[u];
    if !Resting(y.op) {
      Pow2Grows(y.order, BITS);
      Pow2Grows(y.order, if s.rz.ShrinkWait? then s.order + 1 else s.order);
      StartSurvives(s, t, o, y.start, y.idx);
    }
  }

  lemma OtherOp(s: State, t: Tid, o: Outcome, u: Tid)
    requires Move(s, t, o) && ListInv(s.l) && u in s.th && u != t
    requires ThreadOk(s, t) && ThreadOk(s, u) && Distinct(s, t, u) && Distinct(s, u, t)
    requires s.order <= BITS && (s.rz.ShrinkWait? ==> s.order < BITS) && (s.rz.ShrinkRemove? ==> s.rz.o == s.order + 1)
    ensures OpOk(Apply(s.l, o.w), s.th[u].off, s.r, s.th[u].start, s.th[u].op)
  {
    var y := s.th[u];
    var k := Apply(s.l, o.w);
    ApplyEvolves(s.l, o.w);
    OtherStart(s, t, o, u);
    forall n | Adds(y.op, n) ensures n !in k.next { AddsUnlinked(s, t, o, u, n); }
    OpStable(s.l, k, y.off, s.r, y.start, y.op);
  }

  lemma OthersKept(s: State, t: Tid, o: Outcome, u: Tid)
    requires Move(s, t, o) && ListInv(s.l) && u in s.th && u != t
    requires ThreadOk(s, t) && ThreadOk(s, u) && Distinct(s, t, u) && Distinct(s, u, t)
    requires s.order <= BITS && (s.rz.ShrinkWait? ==> s.order < BITS) && (s.rz.ShrinkRemove? ==> s.rz.o == s.order + 1)
    ensures ThreadOk(RunTo(s, t, o), u)
  {
    ApplyCloses(s.l, o.w, s.th[u].off);
    OtherOp(s, t, o, u);
  }

  lemma OwnKept(s: State, t: Tid, o: Outcome)
    requires Move(s, t, o) && ListInv(s.l) && ThreadOk(s, t)
    ensures ThreadOk(RunTo(s, t, o), t)
  {
    ApplyCloses(s.l, o.w, s.th[t].off);
  }

  lemma RunThreads(s: State, t: Tid, o: Outcome)
    requires Inv(s) && Move(s, t, o)
    ensures ThreadsOk(RunTo(s, t, o))
  {
    var s' := RunTo(s, t, o);
    assert ThreadOk(s, t);
    OwnKept(s, t, o);
    forall u | u in s'.th ensures ThreadOk(s', u) {
      if u != t {
        assert ThreadOk(s, u) && Distinct(s, t, u) && Distinct(s, u, t);
        OthersKept(s, t, o, u);
      }
    }
    forall u, w | u in s'.th && w in s'.th ensures Distinct(s', u, w) {
      assert Distinct(s, u, w);
    }
  }

  lemma UnlinkedKept(l: List, k: List, pend: set<Node>)
    requires Evolves(l, k) && pend <= l.next.Keys && pend !! l.on
    ensures pend <= k.next.Keys && pend !! k.on
  {
    forall n | n in pend ensures n in k.next && n !in k.on { assert Kept(l, k, n); }
  }

  lemma RunGrow(s: State, t: Tid, o: Outcome, j: nat)
    requires Move(s, t, o) && ThreadOk(s, t) && s.rz.Grow? && Populated(s, j) && j < Pow2(BITS)
    ensures Populated(RunTo(s, t, o), j)
  {
    if Live(s.l, s.slot[j]) { StartSurvives(s, t, o, s.slot[j], j); }
  }

  lemma RunRemove(s: State, t: Tid, o: Outcome, j: nat)
    requires Move(s, t, o) && ThreadOk(s, t) && s.rz.ShrinkRemove? && BeingRetired(s, j)
    requires Evolves(s.l, Apply(s.l, o.w)) && j < Pow2(BITS)
    ensures BeingRetired(RunTo(s, t, o), j)
  {
    RevHashInverse(j);
    assert s.th[t].op.BktOr? && s.th[t].op.d == s.slot[j] ==> RevHash(s.slot[j].rh) == j;
    assert Kept(s.l, Apply(s.l, o.w), s.slot[j]);
  }

  lemma RunResize(s: State, t: Tid, o: Outcome)
    requires Inv(s) && Move(s, t, o)
    ensures ResizeOk(RunTo(s, t, o))
  {
    var s' := RunTo(s, t, o);
    ApplyEvolves(s.l, o.w);
    assert ThreadOk(s, t);
    match s.rz
    case RIdle =>
    case Grow(g, todo, busy) =>
      forall j | InOrder(g, j) && j !in todo ensures Populated(s', j) {
        assert Populated(s, j);
        Pow2Grows(g, BITS);
        RunGrow(s, t, o, j);
      }
    case ShrinkWait(g, waiting, pend) =>
      UnlinkedKept(s.l, s'.l, pend);
      forall j | InOrder(g, j) ensures Published(s', j) {
        assert Published(s, j);
        Pow2Grows(g, BITS);
        StartSurvives(s, t, o, s.slot[j], j);
      }
    case ShrinkRemove(g, todo, busy) =>
      forall j | InOrder(g, j) ensures BeingRetired(s', j) {
        assert BeingRetired(s, j);
        Pow2Grows(g, BITS);
        RunRemove(s, t, o, j);
      }
    case FreeNext(pend) => UnlinkedKept(s.l, s'.l, pend);
    case FreeWait(waiting, pend) => UnlinkedKept(s.l, s'.l, pend);
  }

  lemma RunClaims(s: State, t: Tid, o: Outcome, n: Node)
    requires Move(s, t, o) && ListInv(s.l) && Claimed(s, n)
    ensures Claimed(RunTo(s, t, o), n)
  {
    OwnershipOk(s.l, o.w, n);
    if n in s.l.next { ApplyEvolves(s.l, o.w); assert Kept(s.l, Apply(s.l, o.w), n); }
  }

  lemma RunInv(s: State, t: Tid, o: Outcome)
    requires Inv(s) && Move(s, t, o)
    ensures Inv(RunTo(s, t, o))
  {
    var s' := RunTo(s, t, o);
    assert ThreadOk(s, t);
    ApplyKeeps(s.l, o.w);
    ApplyEvolves(s.l, o.w);
    RunThreads(s, t, o);
    RunResize(s, t, o);
    forall n ensures Claimed(s', n) { assert Claimed(s, n); RunClaims(s, t, o, n); }
    forall j | 0 <= j < Pow2(s.order) ensures Published(s', j) {
      assert Published(s, j);
      Pow2Grows(s.order, BITS);
      StartSurvives(s, t, o, s.slot[j], j);
    }
    UnlinkedKept(s.l, s'.l, s.freed);
    forall n | n in s'.l.next ensures n in s'.used {
      if n !in s.l.next { assert Adds(s.th[t].op, n); }
    }
  }

  // --- the actions that write no node ---------------------------------------------

  ghost predicate OrderOk(s: State, t: Tid)
    requires t in s.th
  {
    var x := s.th[t];
    && (x.order <= s.order || (s.rz.ShrinkWait? && t in s.rz.waiting && x.order <= s.order + 1))
    && (x.op.BktOr? ==> s.rz.ShrinkRemove? && Retired(s, t, x.op.d))
  }

  lemma ThreadKept(s: State, s': State, t: Tid)
    requires t in s.th && ThreadOk(s, t) && t in s'.th && s'.th[t] == s.th[t]
    requires s'.l == s.l && s'.r == s.r && s.used <= s'.used && s'.freed <= s.th[t].off
    requires !Resting(s.th[t].op) ==> s.th[t].idx in s'.slot && s'.slot[s.th[t].idx] == s.slot[s.th[t].idx]
    requires OrderOk(s', t)
    ensures ThreadOk(s', t)
  {
  }

  lemma DistinctKept(s: State, s': State, t: Tid, u: Tid)
    requires t in s.th && u in s.th && t in s'.th && u in s'.th && Distinct(s, t, u)
    requires s'.th[t].op == s.th[t].op && s'.th[u].op == s.th[u].op
    ensures Distinct(s', t, u)
  {
    forall n | t != u && Adds(s'.th[t].op, n) ensures !Adds(s'.th[u].op, n) { assert Adds(s.th[t].op, n); }
  }

  /** Threads, when no thread changes. */
  lemma SameThreads(s: State, s': State)
    requires Inv(s) && s'.th == s.th && s'.l == s.l && s'.r == s.r && s'.used == s.used && s'.slot == s.slot
    requires forall t {:trigger s.th[t]} | t in s.th :: s'.freed <= s.th[t].off
    requires forall t {:trigger s.th[t]} | t in s.th :: OrderOk(s', t)
    ensures ThreadsOk(s')
  {
    forall t | t in s'.th ensures ThreadOk(s', t) { assert ThreadOk(s, t); ThreadKept(s, s', t); }
    forall t, u | t in s'.th && u in s'.th ensures Distinct(s', t, u) {
      assert Distinct(s, t, u);
      DistinctKept(s, s', t, u);
    }
  }

  lemma SameClaims(s: State, s': State, t: Tid)
    requires Inv(s) && s'.l == s.l && s'.wins == s.wins && s'.marker == s.marker
    requires forall u {:trigger s.th[u]} | u in s.th && u != t :: u in s'.th && s'.th[u] == s.th[u]
    requires t in s.th ==> Resting(s.th[t].op) || (t in s'.th && s'.th[t] == s.th[t])
    ensures forall n :: Claimed(s', n)
  {
    forall n ensures Claimed(s', n) { assert Claimed(s, n); }
  }

  /** Threads, when the resting (or new) thread `t` gets a new record. */
  lemma OneThread(s: State, s': State, t: Tid)
    requires Inv(s) && s'.l == s.l && s'.r == s.r && s.used <= s'.used && s'.freed == s.freed
    requires t in s'.th && s'.th.Keys == s.th.Keys + {t} && ThreadOk(s', t)
    requires forall u {:trigger s.th[u]} | u in s.th && u != t :: s'.th[u] == s.th[u]
    requires forall u {:trigger s.th[u]} | u in s.th && u != t && !Resting(s.th[u].op) && s.th[u].idx in s.slot ::
               s.th[u].idx in s'.slot && s'.slot[s.th[u].idx] == s.slot[s.th[u].idx]
    requires forall u {:trigger s.th[u]} | u in s.th && u != t :: OrderOk(s', u)
    requires forall n {:trigger Adds(s'.th[t].op, n)} | Adds(s'.th[t].op, n) :: n !in s.used
    ensures ThreadsOk(s')
  {
    forall u | u in s'.th ensures ThreadOk(s', u) {
      if u != t { assert ThreadOk(s, u); ThreadKept(s, s', u); }
    }
    forall u, w | u in s'.th && w in s'.th ensures Distinct(s', u, w) {
      if u != t { assert ThreadOk(s, u); }
      if w != t { assert ThreadOk(s, w); }
      if u != t && w != t { assert Distinct(s, u, w); DistinctKept(s, s', u, w); }
    }
  }

  lemma SamePublished(s: State, s': State)
    requires Inv(s) && s'.l == s.l && s'.order <= s.order
    requires forall j {:trigger s.slot[j]} | j in s.slot && j < Pow2(s.order) :: j in s'.slot && s'.slot[j] == s.slot[j]
    ensures forall j {:trigger Published(s', j)} | 0 <= j < Pow2(s'.order) :: Published(s', j)
  {
    Pow2Grows(s'.order, s.order);
    forall j | 0 <= j < Pow2(s'.order) ensures Published(s', j) { assert Published(s, j); }
  }

  lemma EnterInv(s: State, t: Tid)
    requires Inv(s) && Enabled(s, Enter(t))
    ensures Inv(Do(s, Enter(t)))
  {
    var s' := Do(s, Enter(t));
    UnlinkedClosed(s.l);
    forall u | u in s.th ensures OrderOk(s', u) { assert ThreadOk(s, u); }
    OneThread(s, s', t);
    SameClaims(s, s', t);
    SamePublished(s, s');
    SameResize(s, s', t);
  }

  /** The resizer's own bookkeeping, when a thread that it does not wait for changes. */
  lemma SameResize(s: State, s': State, t: Tid)
    requires Inv(s) && s'.l == s.l && s'.order == s.order && s'.slot == s.slot && s'.rz == s.rz
    requires t in s'.th && s'.th.Keys == s.th.Keys + {t}
    requires forall u {:trigger s.th[u]} | u in s.th && u != t :: s'.th[u] == s.th[u]
    requires t in s.th ==> s'.th[t].off == s.th[t].off && Resting(s.th[t].op)
    requires t !in s.th ==> s'.th[t].off == s.l.next.Keys - s.l.on
    ensures ResizeOk(s')
  {
    match s.rz
    case Grow(g, todo, busy) =>
      forall j | InOrder(g, j) && j !in todo ensures Populated(s', j) { assert Populated(s, j); }
    case ShrinkWait(g, waiting, pend) =>
      forall j | InOrder(g, j) ensures Published(s', j) { assert Published(s, j); }
    case ShrinkRemove(g, todo, busy) =>
      forall j | InOrder(g, j) ensures BeingRetired(s', j) { assert BeingRetired(s, j); }
    case _ =>
  }

  lemma ExitInv(s: State, t: Tid)
    requires Inv(s) && Enabled(s, Exit(t))
    ensures Inv(Do(s, Exit(t)))
  {
    var s' := Do(s, Exit(t));
    forall u | u in s'.th ensures ThreadOk(s', u) { assert ThreadOk(s, u); ThreadKept(s, s', u); }
    forall u, w | u in s'.th && w in s'.th ensures Distinct(s', u, w) {
      assert Distinct(s, u, w);
      DistinctKept(s, s', u, w);
    }
    SameClaims(s, s', t);
    SamePublished(s, s');
    match s.rz
    case Grow(g, todo, busy) =>
      forall j | InOrder(g, j) && j !in todo ensures Populated(s', j) { assert Populated(s, j); }
    case ShrinkWait(g, waiting, pend) =>
      forall j | InOrder(g, j) ensures Published(s', j) { assert Published(s, j); }
    case ShrinkRemove(g, todo, busy) =>
      forall j | InOrder(g, j) ensures BeingRetired(s', j) { assert BeingRetired(s, j); }
    case _ =>
  }

  /** The bucket an operation starts from is live and at or below its hash. */
  lemma StartBucket(s: State, rh: nat)
    requires Inv(s) && rh < Pow2(BITS)
    ensures var idx := BucketIndex(RevHash(rh), s.order);
      idx < Pow2(s.order) && Published(s, idx) && s.slot[idx].rh <= rh
  {
    var hash := RevHash(rh);
    RevHashInverse(rh);
    Halves(hash, s.order);
    BucketInterval(hash, s.order);
    assert Published(s, BucketIndex(hash, s.order));
  }

  /** A first access: the record of a thread that begins operation `op`. */
  lemma Begins(s: State, s': State, t: Tid, order: nat, idx: nat, op: Op)
    requires ListInv(s.l) && t in s.th && ThreadOk(s, t) && s'.l == s.l && s'.r == s.r && s'.freed == s.freed
    requires idx in s'.slot && t in s'.th && s'.th[t] == Thread(s.th[t].off, order, idx, s'.slot[idx], op)
    requires idx < Pow2(order) && Published(s', idx) && order <= s'.order
    requires OpOk(s.l, s.th[t].off, s.r, s'.slot[idx], op) && OpUnique(s.l, s.r, op)
    requires forall n | Adds(op, n) :: n in s'.used
    requires op.BktOr? ==> s'.rz.ShrinkRemove? && Retired(s', t, op.d)
    ensures ThreadOk(s', t)
  {
  }

  lemma CallOp(s: State, t: Tid, op: Op, b: Node)
    requires ListInv(s.l) && s.l.next.Keys <= s.used && t in s.th && ThreadOk(s, t) && Callable(s, t, op)
    requires Live(s.l, b) && b.Bucket? && b.rh <= Target(op)
    ensures OpOk(s.l, s.th[t].off, s.r, b, op) && OpUnique(s.l, s.r, op)
    ensures forall n | Adds(op, n) :: n in NewNodes(op) && n !in s.used
  {
  }

  lemma CallThreads(s: State, t: Tid, op: Op)
    requires Inv(s) && Enabled(s, Call(t, op))
    ensures ThreadsOk(Do(s, Call(t, op)))
  {
    var idx := BucketIndex(RevHash(Target(op)), s.order);
    var s' := Do(s, Call(t, op));
    assert ThreadOk(s, t);
    StartBucket(s, Target(op));
    CallOp(s, t, op, s.slot[idx]);
    Begins(s, s', t, s.order, idx, op);
    forall u | u in s.th ensures OrderOk(s', u) { assert ThreadOk(s, u); }
    OneThread(s, s', t);
  }

  lemma CallInv(s: State, t: Tid, op: Op)
    requires Inv(s) && Enabled(s, Call(t, op))
    ensures Inv(Do(s, Call(t, op)))
  {
    var s' := Do(s, Call(t, op));
    CallThreads(s, t, op);
    SameClaims(s, s', t);
    SamePublished(s, s');
    SameResize(s, s', t);
  }

  lemma GrowBeginInv(s: State)
    requires Inv(s) && Enabled(s, GrowBegin)
    ensures Inv(Do(s, GrowBegin))
  {
    var s' := Do(s, GrowBegin);
    forall u | u in s.th ensures s.freed <= s.th[u].off && OrderOk(s', u) { assert ThreadOk(s, u); }
    SameThreads(s, s');
    SameClaims(s, s', 0);
    SamePublished(s, s');
  }

  lemma PopulateBegins(s: State, t: Tid, j: nat, gen: nat)
    requires Inv(s) && Enabled(s, Populate(t, j, gen))
    ensures ThreadOk(Do(s, Populate(t, j, gen)), t)
  {
    var o := s.rz.o;
    assert ThreadOk(s, t);
    ParentBefore(j, o);
    Pow2Positive(BITS - o);
    assert Published(s, j - Pow2(o - 1));
    Begins(s, Do(s, Populate(t, j, gen)), t, o - 1, j - Pow2(o - 1), AddStart(Bucket(gen, RevHash(j)), BucketMode));
  }

  lemma PopulateThreads(s: State, t: Tid, j: nat, gen: nat)
    requires Inv(s) && Enabled(s, Populate(t, j, gen))
    ensures ThreadsOk(Do(s, Populate(t, j, gen)))
  {
    var s' := Do(s, Populate(t, j, gen));
    PopulateBegins(s, t, j, gen);
    forall u | u in s.th ensures OrderOk(s', u) && (Resting(s.th[u].op) || s.th[u].idx < Pow2(s.order)) {
      assert ThreadOk(s, u);
      Pow2Grows(s.th[u].order, s.order);
    }
    OneThread(s, s', t);
  }

  lemma PopulateInv(s: State, t: Tid, j: nat, gen: nat)
    requires Inv(s) && Enabled(s, Populate(t, j, gen))
    ensures Inv(Do(s, Populate(t, j, gen)))
  {
    var s' := Do(s, Populate(t, j, gen));
    PopulateThreads(s, t, j, gen);
    SameClaims(s, s', t);
    SamePublished(s, s');
    forall i | InOrder(s.rz.o, i) && i !in s'.rz.todo ensures Populated(s', i) {
      if i != j { assert Populated(s, i); }
    }
  }

  lemma GrowPublishInv(s: State)
    requires Inv(s) && Enabled(s, GrowPublish)
    ensures Inv(Do(s, GrowPublish))
  {
    var s' := Do(s, GrowPublish);
    forall u | u in s.th ensures s.freed <= s.th[u].off && OrderOk(s', u) { assert ThreadOk(s, u); }
    SameThreads(s, s');
    SameClaims(s, s', 0);
    forall j | 0 <= j < Pow2(s'.order) ensures Published(s', j) {
      if j < Pow2(s.order) { assert Published(s, j); } else { assert Populated(s, j); }
    }
  }

  lemma ShrinkBeginInv(s: State)
    requires Inv(s) && Enabled(s, ShrinkBegin)
    ensures Inv(Do(s, ShrinkBegin))
  {
    var s' := Do(s, ShrinkBegin);
    forall u | u in s.th ensures s.freed <= s.th[u].off && OrderOk(s', u) { assert ThreadOk(s, u); }
    SameThreads(s, s');
    SameClaims(s, s', 0);
    SamePublished(s, s');
    forall j | InOrder(s.order, j) ensures Published(s', j) { assert Published(s, j); }
  }

  lemma ShrinkGoInv(s: State)
    requires Inv(s) && Enabled(s, ShrinkGo)
    ensures Inv(Do(s, ShrinkGo))
  {
    var s' := Do(s, ShrinkGo);
    forall u | u in s.th ensures s'.freed <= s.th[u].off && OrderOk(s', u) { assert ThreadOk(s, u); }
    SameThreads(s, s');
    SameClaims(s, s', 0);
    SamePublished(s, s');
    forall j | InOrder(s.rz.o, j) ensures BeingRetired(s', j) { assert Published(s, j); }
  }

  lemma ParentFacts(j: nat, o: nat)
    requires InOrder(o, j) && o <= BITS
    ensures RevHash(RevHash(j)) == j && RevHash(j) < Pow2(BITS)
    ensures j - Pow2(o - 1) < Pow2(o - 1) && RevHash(j - Pow2(o - 1)) < RevHash(j)
  {
    ParentBefore(j, o);
    Pow2Positive(BITS - o);
    Pow2Grows(o, BITS);
    RevHashInverse(j);
  }

  lemma RetireStart(s: State, j: nat)
    requires Inv(s) && s.rz.ShrinkRemove? && InOrder(s.rz.o, j) && j in s.rz.todo
    ensures BucketFor(s, j) && s.slot[j] in s.l.next && s.slot[j] in s.l.on
    ensures RevHash(s.slot[j].rh) == j && s.slot[j].rh < Pow2(BITS)
    ensures j - Pow2(s.rz.o - 1) < Pow2(s.order) && Published(s, j - Pow2(s.rz.o - 1))
    ensures s.slot[j - Pow2(s.rz.o - 1)].rh < s.slot[j].rh
  {
    var o := s.rz.o;
    assert BeingRetired(s, j) && NodeOk(s.l, s.slot[j]);
    ParentFacts(j, o);
    assert Published(s, j - Pow2(o - 1));
  }

  lemma RetireBegins(s: State, t: Tid, j: nat)
    requires Inv(s) && Enabled(s, Retire(t, j))
    ensures ThreadOk(Do(s, Retire(t, j)), t)
  {
    assert ThreadOk(s, t);
    RetireStart(s, j);
    Begins(s, Do(s, Retire(t, j)), t, s.order, j - Pow2(s.rz.o - 1), BktOr(s.slot[j]));
  }

  lemma RetireThreads(s: State, t: Tid, j: nat)
    requires Inv(s) && Enabled(s, Retire(t, j))
    ensures ThreadsOk(Do(s, Retire(t, j)))
  {
    var s' := Do(s, Retire(t, j));
    RetireBegins(s, t, j);
    forall u | u in s.th && u != t ensures OrderOk(s', u) { assert ThreadOk(s, u); }
    OneThread(s, s', t);
  }

  lemma RetireInv(s: State, t: Tid, j: nat)
    requires Inv(s) && Enabled(s, Retire(t, j))
    ensures Inv(Do(s, Retire(t, j)))
  {
    var s' := Do(s, Retire(t, j));
    RetireThreads(s, t, j);
    SameClaims(s, s', t);
    SamePublished(s, s');
    forall i | InOrder(s.rz.o, i) ensures BeingRetired(s', i) { assert BeingRetired(s, i); }
  }

  lemma ShrinkDoneInv(s: State)
    requires Inv(s) && Enabled(s, ShrinkDone)
    ensures Inv(Do(s, ShrinkDone))
  {
    var s' := Do(s, ShrinkDone);
    forall u | u in s.th ensures s.freed <= s.th[u].off && OrderOk(s', u) { assert ThreadOk(s, u); }
    SameThreads(s, s');
    SameClaims(s, s', 0);
    SamePublished(s, s');
    forall j | j in Indices(s.rz.o) ensures s.slot[j] in s.l.next && s.slot[j] !in s.l.on { assert BeingRetired(s, j); }
  }

  lemma FinalInv(s: State, a: Action)
    requires Inv(s) && Enabled(s, a) && (a.FinalWait? || a.FinalFree?)
    ensures Inv(Do(s, a))
  {
    var s' := Do(s, a);
    forall u | u in s.th ensures s'.freed <= s.th[u].off && OrderOk(s', u) { assert ThreadOk(s, u); }
    SameThreads(s, s');
    SameClaims(s, s', 0);
    SamePublished(s, s');
  }

  /** The invariant holds at the start and through every action. */
  lemma StepInv(s: State, a: Action)
    requires Inv(s) && Enabled(s, a)
    ensures Inv(Do(s, a))
  {
    match a
    case Enter(t) => EnterInv(s, t);
    case Exit(t) => ExitInv(s, t);
    case Call(t, op) => CallInv(s, t, op);
    case Run(t, v) => MoveOf(s, t, v); RunInv(s, t, Next(s.l, s.th[t].start, s.th[t].op, v));
    case GrowBegin => GrowBeginInv(s);
    case Populate(t, j, gen) => PopulateInv(s, t, j, gen);
    case GrowPublish => GrowPublishInv(s);
    case ShrinkBegin => ShrinkBeginInv(s);
    case ShrinkGo => ShrinkGoInv(s);
    case Retire(t, j) => RetireInv(s, t, j);
    case ShrinkDone => ShrinkDoneInv(s);
    case FinalWait => FinalInv(s, a);
    case FinalFree => FinalInv(s, a);
  }

  lemma InitList(l: List)
    requires l == List(map[HEAD := Link(End, false, true, false)], map[HEAD := 0.0], {HEAD})
    ensures ListInv(l)
  {
    assert NodeOk(l, HEAD);
  }

  lemma InitBuckets(s: State, j: nat)
    requires Init(s) && j < Pow2(s.order)
    ensures Published(s, j)
  {
    RevNothing(j, BITS);
  }

  lemma {:induction false} RevNothing(x: nat, n: nat)
    requires x == 0
    ensures Rev(x, n) == 0
  {
    RevZero(n);
  }

  lemma InitClaims(s: State)
    requires Init(s)
    ensures ListUnique(s.l, s.r) && forall n {:trigger Claimed(s, n)} :: Claimed(s, n)
  {
  }

  lemma InitInv(s: State)
    requires Init(s)
    ensures Inv(s)
  {
    InitList(s.l);
    forall j | 0 <= j < Pow2(s.order) ensures Published(s, j) { InitBuckets(s, j); }
    InitClaims(s);
  }
}
