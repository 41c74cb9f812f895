/** The bucket index and the list agree: which buckets are linked, whose memory a slot
    still names, and where a bucket stands among the nodes of its hash. */
module HashIndex {
  import opened HashList
  import opened HashSteps
  import opened HashTable
  import opened HashTableProof
  import opened HashTableRuns
  import opened HashWalk
  import opened SplitOrder

  /** Indices whose buckets may be linked: below the size, taken up by the grow under
      way, or of the order being removed. */
  predicate Inside(s: State, j: nat) {
    || j < Pow2(s.order)
    || (s.rz.Grow? && InOrder(s.rz.o, j) && j !in s.rz.todo)
    || ((s.rz.ShrinkWait? || s.rz.ShrinkRemove?) && InOrder(s.rz.o, j))
  }

  /** A linked bucket is the one its slot names. */
  predicate LinkedOk(s: State, b: Node) {
    b.Bucket? && b in s.l.on ==>
      var j := RevHash(b.rh);
      j in s.slot && s.slot[j] == b && Inside(s, j)
  }

  /** Unlinked buckets whose memory waits for a grace period. */
  function Pending(rz: Resize): set<Node> {
    if rz.ShrinkWait? || rz.FreeNext? || rz.FreeWait? then rz.pend else {}
  }

  /** A slot outside names memory that was given back, or is about to be. */
  predicate OldOk(s: State, j: nat) {
    j in s.slot && !Inside(s, j) ==> s.slot[j] in s.freed || s.slot[j] in Pending(s.rz)
  }

  /** A bucket being linked is that of a slot the grow has taken up, by the thread
      that took it. */
  predicate AddingOk(s: State, t: Tid, n: Node) {
    t in s.th && Adds(s.th[t].op, n) && n.Bucket? ==>
      var j := RevHash(n.rh);
      && s.rz.Grow? && InOrder(s.rz.o, j) && j !in s.rz.todo
      && j in s.rz.busy && s.rz.busy[j] == t && j in s.slot && s.slot[j] == n
  }

  ghost predicate IndexInv(s: State) {
    && (forall b {:trigger LinkedOk(s, b)} :: LinkedOk(s, b))
    && (forall j {:trigger OldOk(s, j)} :: OldOk(s, j))
    && (forall t, n {:trigger AddingOk(s, t, n)} :: AddingOk(s, t, n))
  }

  // --- every action keeps it ------------------------------------------------------

  lemma RunIndex(s: State, t: Tid, o: Outcome)
    requires Inv(s) && IndexInv(s) && Move(s, t, o)
    ensures IndexInv(RunTo(s, t, o))
  {
    var s' := RunTo(s, t, o);
    forall b {:trigger LinkedOk(s', b)} ensures LinkedOk(s', b) {
      assert LinkedOk(s, b);
      if b in s'.l.on && b !in s.l.on {
        NewlyLinked(s.l, o.w, b);
        assert Adds(s.th[t].op, b);
        assert AddingOk(s, t, b);
      }
    }
    forall j {:trigger OldOk(s', j)} ensures OldOk(s', j) { assert OldOk(s, j); }
    forall u, n {:trigger AddingOk(s', u, n)} ensures AddingOk(s', u, n) {
      assert AddingOk(s, u, n);
      assert u == t && Adds(o.op, n) ==> Adds(s.th[t].op, n);
    }
  }

  lemma NewlyLinked(l: List, w: Write, b: Node)
    requires ListInv(l) && WriteOk(l, w) && b in Apply(l, w).on && b !in l.on
    ensures b in Apply(l, w).next && b !in l.next
  {
  }

  /** Actions that leave the list alone and only shift what is inside. */
  lemma ShiftIndex(s: State, s': State)
    requires Inv(s) && IndexInv(s) && s'.l == s.l && s'.slot == s.slot
    requires forall j: nat {:trigger Inside(s', j)} | j in s.slot ::
      && (Inside(s, j) ==> Inside(s', j) || s.slot[j] !in s.l.on)
      && (!Inside(s', j) ==> s.slot[j] in s'.freed + Pending(s'.rz))
    requires forall t, n {:trigger AddingOk(s', t, n)} :: AddingOk(s', t, n)
    ensures IndexInv(s')
  {
    forall b {:trigger LinkedOk(s', b)} ensures LinkedOk(s', b) { assert LinkedOk(s, b); }
    forall j {:trigger OldOk(s', j)} ensures OldOk(s', j) { assert Inside(s', j) || !Inside(s', j); }
  }

  lemma ThreadIndex(s: State, a: Action)
    requires Inv(s) && IndexInv(s) && Enabled(s, a) && (a.Enter? || a.Exit? || a.Call?)
    ensures IndexInv(Do(s, a))
  {
    var s' := Do(s, a);
    forall t, n {:trigger AddingOk(s', t, n)} ensures AddingOk(s', t, n) { assert AddingOk(s, t, n); }
    forall j: nat {:trigger Inside(s', j)} | j in s.slot
      ensures (Inside(s, j) ==> Inside(s', j)) && (!Inside(s', j) ==> s.slot[j] in s'.freed + Pending(s'.rz))
    {
      assert OldOk(s, j);
    }
    ShiftIndex(s, s');
  }

  lemma PopulateIndex(s: State, t: Tid, j: nat, gen: nat)
    requires Inv(s) && IndexInv(s) && Enabled(s, Populate(t, j, gen))
    ensures IndexInv(Do(s, Populate(t, j, gen)))
  {
    var s' := Do(s, Populate(t, j, gen));
    ParentFacts(j, s.rz.o);
    forall b {:trigger LinkedOk(s', b)} ensures LinkedOk(s', b) { assert LinkedOk(s, b); }
    forall i {:trigger OldOk(s', i)} ensures OldOk(s', i) { assert OldOk(s, i); }
    forall u, n {:trigger AddingOk(s', u, n)} ensures AddingOk(s', u, n) { assert AddingOk(s, u, n); }
  }

  lemma GrowIndex(s: State, a: Action)
    requires Inv(s) && IndexInv(s) && Enabled(s, a) && (a.GrowBegin? || a.GrowPublish?)
    ensures IndexInv(Do(s, a))
  {
    var s' := Do(s, a);
    forall t, n {:trigger AddingOk(s', t, n)} ensures AddingOk(s', t, n) {
      assert AddingOk(s, t, n);
      if t in s.th { assert ThreadOk(s, t); }
    }
    forall j: nat {:trigger Inside(s', j)} | j in s.slot
      ensures (Inside(s, j) ==> Inside(s', j)) && (!Inside(s', j) ==> s.slot[j] in s'.freed + Pending(s'.rz))
    {
      assert OldOk(s, j);
      Pow2Grows(s.order, s'.order);
      if a.GrowBegin? && InOrder(s.order + 1, j) { assert j in Indices(s.order + 1); }
    }
    ShiftIndex(s, s');
  }

  lemma ShrinkIndex(s: State, a: Action)
    requires Inv(s) && IndexInv(s) && Enabled(s, a)
    requires a.ShrinkBegin? || a.ShrinkGo? || a.ShrinkDone? || a.FinalWait? || a.FinalFree?
    ensures IndexInv(Do(s, a))
  {
    var s' := Do(s, a);
    forall t, n {:trigger AddingOk(s', t, n)} ensures AddingOk(s', t, n) { assert AddingOk(s, t, n); }
    forall j: nat {:trigger Inside(s', j)} | j in s.slot
      ensures Inside(s, j) ==> Inside(s', j) || s.slot[j] !in s.l.on
      ensures !Inside(s', j) ==> s.slot[j] in s'.freed + Pending(s'.rz)
    {
      assert OldOk(s, j);
      if a.ShrinkDone? && InOrder(s.rz.o, j) { assert j in Indices(s.rz.o) && BeingRetired(s, j); }
    }
    ShiftIndex(s, s');
  }

  lemma RetireIndex(s: State, t: Tid, j: nat)
    requires Inv(s) && IndexInv(s) && Enabled(s, Retire(t, j))
    ensures IndexInv(Do(s, Retire(t, j)))
  {
    var s' := Do(s, Retire(t, j));
    forall u, n {:trigger AddingOk(s', u, n)} ensures AddingOk(s', u, n) { assert AddingOk(s, u, n); }
    forall i: nat {:trigger Inside(s', i)} | i in s.slot
      ensures (Inside(s, i) ==> Inside(s', i)) && (!Inside(s', i) ==> s.slot[i] in s'.freed + Pending(s'.rz))
    {
      assert OldOk(s, i);
    }
    ShiftIndex(s, s');
  }

  lemma RunStepIndex(s: State, t: Tid, v: real)
    requires Inv(s) && IndexInv(s) && Enabled(s, Run(t, v))
    ensures IndexInv(Do(s, Run(t, v)))
  {
    MoveOf(s, t, v);
    RunIndex(s, t, Next(s.l, s.th[t].start, s.th[t].op, v));
  }

  lemma StepIndex(s: State, a: Action)
    requires Inv(s) && IndexInv(s) && Enabled(s, a)
    ensures IndexInv(Do(s, a))
  {
    if a.Run? { RunStepIndex(s, a.t, a.v); }
    else if a.Enter? || a.Exit? || a.Call? { ThreadIndex(s, a); }
    else { ResizeIndex(s, a); }
  }

  lemma ResizeIndex(s: State, a: Action)
    requires Inv(s) && IndexInv(s) && Enabled(s, a) && !a.Run? && !a.Enter? && !a.Exit? && !a.Call?
    ensures IndexInv(Do(s, a))
  {
    if a.Populate? { PopulateIndex(s, a.t, a.j, a.gen); }
    else if a.Retire? { RetireIndex(s, a.t, a.j); }
    else if a.GrowBegin? || a.GrowPublish? { GrowIndex(s, a); }
    else { ShrinkIndex(s, a); }
  }

  lemma InitIndex(s: State)
    requires Init(s)
    ensures IndexInv(s)
  {
    RevNothing(0, BITS);
  }

  lemma {:induction false} ReachableIndex(tr: seq<State>, acts: seq<Action>, i: nat)
    requires IsRun(tr, acts) && i < |tr|
    ensures Inv(tr[i]) && IndexInv(tr[i])
  {
    Reachable(tr, acts, i);
    if i == 0 {
      InitIndex(tr[0]);
    } else {
      ReachableIndex(tr, acts, i - 1);
      assert Enabled(tr[i - 1], acts[i - 1]) && tr[i] == Do(tr[i - 1], acts[i - 1]);
      StepIndex(tr[i - 1], acts[i - 1]);
    }
  }

  // --- the results ----------------------------------------------------------------

  predicate Indexed(s: State, b: Node, j: nat) { j < Pow2(s.order) && j in s.slot && s.slot[j] == b }

  /** Between resizes the linked buckets are exactly those below the size. */
  lemma LinkedIffBelowSize(tr: seq<State>, acts: seq<Action>, i: nat, b: Node)
    requires IsRun(tr, acts) && i < |tr| && b.Bucket? && (tr[i].rz.RIdle? || tr[i].rz.FreeNext? || tr[i].rz.FreeWait?)
    ensures b in tr[i].l.on <==> exists j: nat {:trigger Indexed(tr[i], b, j)} :: Indexed(tr[i], b, j)
  {
    ReachableIndex(tr, acts, i);
    var s := tr[i];
    assert LinkedOk(s, b);
    if b in s.l.on { assert Indexed(s, b, RevHash(b.rh)); }
    if j: nat :| Indexed(s, b, j) {
      assert Published(s, j) && NodeOk(s.l, b);
    }
  }

  /** While one runs, a linked bucket beyond the size is of the order being linked or
      removed, and it is the one its slot names. */
  lemma LinkedBeyondSize(tr: seq<State>, acts: seq<Action>, i: nat, b: Node)
    requires IsRun(tr, acts) && i < |tr| && b.Bucket? && b in tr[i].l.on && Pow2(tr[i].order) <= RevHash(b.rh)
    ensures var s, j := tr[i], RevHash(b.rh);
      && (s.rz.Grow? || s.rz.ShrinkWait? || s.rz.ShrinkRemove?) && s.rz.o == s.order + 1
      && InOrder(s.rz.o, j) && j in s.slot && s.slot[j] == b
  {
    ReachableIndex(tr, acts, i);
    assert LinkedOk(tr[i], b);
  }

  /** A slot is given a new bucket only when the memory of the old one has been freed,
      a grace period after it was unlinked. */
  lemma SlotsReusedAfterFree(tr: seq<State>, acts: seq<Action>, i: nat, t: Tid, j: nat, gen: nat)
    requires IsRun(tr, acts) && i < |acts| && acts[i] == Populate(t, j, gen) && j in tr[i].slot
    ensures tr[i].slot[j] in tr[i].freed && tr[i].slot[j] !in tr[i].l.on
  {
    ReachableIndex(tr, acts, i);
    assert Enabled(tr[i], acts[i]);
    var s := tr[i];
    assert OldOk(s, j);
    Pow2Grows(s.order, s.rz.o - 1);
  }

  /** A live bucket is met before every other linked node of its reversed hash. */
  lemma BucketFirst(tr: seq<State>, acts: seq<Action>, i: nat, b: Node, m: Node)
    requires IsRun(tr, acts) && i < |tr| && b.Bucket? && Live(tr[i].l, b) && m in tr[i].l.on && m.rh == b.rh && m != b
    ensures var l := tr[i].l; b in l.on && b in l.pos && m in l.pos && l.pos[b] < l.pos[m]
    ensures ListInv(tr[i].l) && NodeOk(tr[i].l, b) && NodeOk(tr[i].l, m)
    ensures m in Walk(tr[i].l, To(b)) && b !in Walk(tr[i].l, To(m))
  {
    ReachableIndex(tr, acts, i);
    var l := tr[i].l;
    assert NodeOk(l, b) && NodeOk(l, m) && PairOk(l, m, b);
    assert LinkedOk(tr[i], b) && LinkedOk(tr[i], m);
    LinkedMeets(l, b, m);
    if b in Walk(l, To(m)) { WalkForward(l, To(m), b); }
  }
}
