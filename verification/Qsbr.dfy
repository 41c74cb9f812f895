/** The quiescent-state flavour with a 64-bit counter: threads are readers from going
    online to going offline, and announce quiescent states by copying the global
    counter.  Loads of the global counter and stores of the own one are separate. */
module Qsbr {

  type Rid = nat

  const ONLINE: nat := 1
  const GP_STEP: nat := 2
  const ACTIVE_ATTEMPTS: nat := 100

  /** A thread's place: free, between the load and the store of a quiescent state or
      of going online, or in `wake_up_gp`: reading its flag, clearing it, reading the
      futex word, setting it, making the wake call. */
  datatype RPc =
    | Free | QsLoaded(v: nat) | OnLoaded(v: nat) | ReadFlag | ClearFlag | ReadFutex | SetFutex | CallWake

  /** `ctr` is 0 offline. */
  datatype Reader = Reader(ctr: nat, waiting: bool, pc: RPc)

  datatype Writer =
    | Resting
    | Advance
    | Top(loops: nat)
    | Mark(loops: nat, todo: set<Rid>)
    | Pass(loops: nat, todo: set<Rid>, seen: set<Rid>)
    | Relax(loops: nat)
    | ReadWord(loops: nat, seen: set<Rid>)
    | Wait(loops: nat, seen: set<Rid>)
    | Asleep(loops: nat, seen: set<Rid>)
    | Finish

  /** `before` (history): threads that were online when the grace period began and
      have neither called `rcu_quiescent_state` nor gone offline since. */
  datatype State = State(
    gp: nat, futex: int, rd: map<Rid, Reader>, reg: set<Rid>, qs: set<Rid>, w: Writer, before: set<Rid>)

  datatype Action =
    | QsLoad(r: Rid) | QsStore(r: Rid) | Offline(r: Rid) | OnLoad(r: Rid) | OnStore(r: Rid)
    | FlagRead(r: Rid) | FlagClear(r: Rid) | WakeRead(r: Rid) | WakeSet(r: Rid) | WakeCall(r: Rid)
    | Register(r: Rid) | Unregister(r: Rid)
    | Begin | Increment | StartPass | MarkOne(r: Rid) | EndMark | Examine(r: Rid) | EndPass
    | Relock | ReadIt | WaitIt | Interrupt | Spurious | End

  predicate LockFree(s: State) { s.w.Resting? || s.w.Relax? || s.w.ReadWord? || s.w.Wait? || s.w.Asleep? }

  predicate Slow(loops: nat) { loops >= ACTIVE_ATTEMPTS }

  predicate IsOld(s: State, r: Rid) { r in s.rd && s.rd[r].ctr != 0 && s.rd[r].ctr != s.gp }

  predicate At(s: State, r: Rid, pc: RPc) { r in s.rd && s.rd[r].pc == pc }

  predicate Enabled(s: State, a: Action) {
    match a
    case QsLoad(r) => At(s, r, Free) && s.rd[r].ctr != 0
    case QsStore(r) => r in s.rd && s.rd[r].pc.QsLoaded?
    case Offline(r) => At(s, r, Free)
    case OnLoad(r) => At(s, r, Free) && s.rd[r].ctr == 0
    case OnStore(r) => r in s.rd && s.rd[r].pc.OnLoaded?
    case FlagRead(r) => At(s, r, ReadFlag)
    case FlagClear(r) => At(s, r, ClearFlag)
    case WakeRead(r) => At(s, r, ReadFutex)
    case WakeSet(r) => At(s, r, SetFutex)
    case WakeCall(r) => At(s, r, CallWake)
    case Register(r) => LockFree(s) && r !in s.rd
    case Unregister(r) => LockFree(s) && At(s, r, Free) && s.rd[r].ctr == 0
    case Begin => s.w.Resting?
    case Increment => s.w.Advance?
    case StartPass => s.w.Top?
    case MarkOne(r) => s.w.Mark? && r in s.w.todo && r in s.rd
    case EndMark => s.w.Mark? && s.w.todo == {}
    case Examine(r) => s.w.Pass? && r in s.w.todo && r in s.rd
    case EndPass => s.w.Pass? && s.w.todo == {}
    case Relock => s.w.Relax?
    case ReadIt => s.w.ReadWord?
    case WaitIt => s.w.Wait?
    case Interrupt => s.w.Asleep?
    case Spurious => s.w.Asleep?
    case End => s.w.Finish?
  }

  function Put(s: State, r: Rid, x: Reader): State { s.(rd := s.rd[r := x]) }

  function Do(s: State, a: Action): State
    requires Enabled(s, a)
  {
    match a
    case QsLoad(r) =>
      Put(s, r, s.rd[r].(pc := if s.gp == s.rd[r].ctr then Free else QsLoaded(s.gp))).(before := s.before - {r})
    case QsStore(r) => Put(s, r, Reader(s.rd[r].pc.v, s.rd[r].waiting, ReadFlag))
    case Offline(r) => Put(s, r, Reader(0, s.rd[r].waiting, ReadFlag)).(before := s.before - {r})
    case OnLoad(r) => Put(s, r, s.rd[r].(pc := OnLoaded(s.gp)))
    case OnStore(r) => Put(s, r, Reader(s.rd[r].pc.v, s.rd[r].waiting, Free))
    case FlagRead(r) => Put(s, r, s.rd[r].(pc := if s.rd[r].waiting then ClearFlag else Free))
    case FlagClear(r) => Put(s, r, s.rd[r].(waiting := false, pc := ReadFutex))
    case WakeRead(r) => Put(s, r, s.rd[r].(pc := if s.futex == -1 then SetFutex else Free))
    case WakeSet(r) => Put(s, r, s.rd[r].(pc := CallWake)).(futex := 0)
    case WakeCall(r) =>
      var s1 := Put(s, r, s.rd[r].(pc := Free));
      if s.w.Asleep? then s1.(w := Top(s.w.loops)) else s1
    case Register(r) => Put(s, r, Reader(0, false, Free)).(reg := s.reg + {r})
    case Unregister(r) => s.(rd := s.rd - {r}, reg := s.reg - {r}, qs := s.qs - {r})
    case Begin =>
      s.(w := if s.reg == {} then Finish else Advance, before := set r | r in s.rd && s.rd[r].ctr != 0)
    case Increment => s.(gp := s.gp + GP_STEP, w := Top(0))
    case StartPass =>
      var n := if s.w.loops < ACTIVE_ATTEMPTS then s.w.loops + 1 else s.w.loops;
      if Slow(n) then s.(w := Mark(n, s.reg), futex := -1) else s.(w := Pass(n, s.reg, {}))
    case MarkOne(r) => Put(s, r, s.rd[r].(waiting := true)).(w := Mark(s.w.loops, s.w.todo - {r}))
    case EndMark => s.(w := Pass(s.w.loops, s.reg, {}))
    case Examine(r) =>
      if IsOld(s, r) then s.(w := Pass(s.w.loops, s.w.todo - {r}, s.w.seen + {r}))
      else s.(w := Pass(s.w.loops, s.w.todo - {r}, s.w.seen), reg := s.reg - {r}, qs := s.qs + {r})
    case EndPass =>
      if s.reg == {} then s.(w := Finish, futex := if Slow(s.w.loops) then 0 else s.futex)
      else if Slow(s.w.loops) then s.(w := ReadWord(s.w.loops, s.w.seen))
      else s.(w := Relax(s.w.loops))
    case Relock => s.(w := Top(s.w.loops))
    case ReadIt => s.(w := if s.futex == -1 then Wait(s.w.loops, s.w.seen) else Top(s.w.loops))
    case WaitIt => s.(w := if s.futex == -1 then Asleep(s.w.loops, s.w.seen) else Top(s.w.loops))
    case Interrupt => s.(w := Wait(s.w.loops, s.w.seen))
    case Spurious => s.(w := Top(s.w.loops))
    case End => s.(reg := s.reg + s.qs, qs := {}, w := Resting)
  }

  predicate Init(s: State) {
    s.gp == ONLINE && s.futex == 0 && s.rd == map[] && s.reg == {} && s.qs == {} && s.w == Resting && s.before == {}
  }

  // --- the invariant ------------------------------------------------------------------

  /** No thread holds a counter value from the future, and a thread that was online
      before the grace period and announced nothing since still shows an old value. */
  predicate ReaderOk(s: State, r: Rid) {
    && (r in s.rd <==> r in s.reg || r in s.qs)
    && !(r in s.reg && r in s.qs)
    && (r in s.rd ==>
      && s.rd[r].ctr <= s.gp
      && (s.rd[r].pc.QsLoaded? ==> 0 < s.rd[r].pc.v <= s.gp && s.rd[r].ctr != 0)
      && (s.rd[r].pc.OnLoaded? ==> 0 < s.rd[r].pc.v <= s.gp && s.rd[r].ctr == 0))
    && (r in s.before ==>
      && r in s.reg && s.rd[r].ctr != 0 && !s.w.Finish?
      && (!s.w.Advance? && !s.w.Resting? ==>
            s.rd[r].ctr < s.gp && (s.rd[r].pc.QsLoaded? ==> s.rd[r].pc.v < s.gp)))
  }

  /** `r` is going to look at the futex word. */
  predicate Bound(pc: RPc) { pc.ClearFlag? || pc.ReadFutex? || pc.SetFutex? }

  /** A flagged reader either still has its flag, or is going to look at the futex
      word, or the word is no longer -1. */
  predicate MarkedOk(s: State, r: Rid) {
    s.futex != -1 || (r in s.rd && (Bound(s.rd[r].pc) || s.rd[r].waiting))
  }

  /** `r` is going to look at the futex word, or has its flag set and either still owes
      a quiescent state or is about to see the flag. */
  predicate WillWake(s: State, r: Rid) {
    r in s.rd && (Bound(s.rd[r].pc) || (s.rd[r].waiting && (IsOld(s, r) || s.rd[r].pc.ReadFlag?)))
  }

  predicate SeenOk(s: State, r: Rid) { s.futex != -1 || WillWake(s, r) }

  predicate HasSeen(w: Writer) { w.Pass? || w.ReadWord? || w.Wait? || w.Asleep? }

  /** What the lists are at each place of the writer. */
  predicate PlaceOk(s: State) {
    && (s.w.Mark? ==> s.w.todo <= s.reg && Slow(s.w.loops))
    && (s.w.Pass? ==> s.reg == s.w.todo + s.w.seen && s.w.todo !! s.w.seen)
    && (s.w.ReadWord? || s.w.Wait? || s.w.Asleep? ==> s.w.seen != {} && Slow(s.w.loops))
    && (s.w.Resting? || s.w.Advance? ==> s.qs == {})
    && (s.w.Resting? ==> s.before == {})
    && s.gp >= ONLINE
  }

  /** The readers flagged in this pass and not examined yet. */
  predicate Flagged(s: State, r: Rid) {
    (s.w.Mark? && r in s.reg && r !in s.w.todo) || (s.w.Pass? && Slow(s.w.loops) && r in s.w.todo)
  }

  /** The readers that a slow pass left in the list. */
  predicate LeftOver(s: State, r: Rid) { HasSeen(s.w) && Slow(s.w.loops) && r in s.w.seen }

  ghost predicate Waking(s: State) { exists r :: At(s, r, CallWake) }

  ghost predicate WriterOk(s: State) {
    && PlaceOk(s)
    && (forall r {:trigger MarkedOk(s, r)} | Flagged(s, r) :: MarkedOk(s, r))
    && (forall r {:trigger SeenOk(s, r)} | LeftOver(s, r) :: SeenOk(s, r))
    && (s.w.Asleep? && s.futex != -1 ==> Waking(s))
  }

  ghost predicate Inv(s: State) {
    (forall r {:trigger ReaderOk(s, r)} :: ReaderOk(s, r)) && WriterOk(s)
  }

  /** Accesses of readers. */
  predicate OfReader(a: Action) {
    || a.QsLoad? || a.QsStore? || a.Offline? || a.OnLoad? || a.OnStore?
    || a.FlagRead? || a.FlagClear? || a.WakeRead? || a.WakeSet? || a.WakeCall?
  }

  lemma ReaderReaders(s: State, a: Action, r: Rid)
    requires ReaderOk(s, r) && PlaceOk(s) && Enabled(s, a) && OfReader(a)
    ensures ReaderOk(Do(s, a), r)
  {
  }

  lemma WriterReaders(s: State, a: Action, r: Rid)
    requires ReaderOk(s, r) && PlaceOk(s) && Enabled(s, a) && !OfReader(a)
    ensures ReaderOk(Do(s, a), r)
  {
  }

  lemma StepReaders(s: State, a: Action, r: Rid)
    requires Inv(s) && Enabled(s, a)
    ensures ReaderOk(Do(s, a), r)
  {
    assert ReaderOk(s, r);
    if OfReader(a) { ReaderReaders(s, a, r); } else { WriterReaders(s, a, r); }
  }

  lemma StepPlace(s: State, a: Action)
    requires Inv(s) && Enabled(s, a)
    ensures PlaceOk(Do(s, a))
  {
    if s.w.Finish? {
      forall r ensures r !in s.before { assert ReaderOk(s, r); }
    }
    if a.Examine? { assert ReaderOk(s, a.r); }
  }

  lemma ReaderSeen(s: State, a: Action, r: Rid)
    requires ReaderOk(s, r) && SeenOk(s, r) && Enabled(s, a) && OfReader(a)
    ensures SeenOk(Do(s, a), r)
  {
  }

  lemma OtherSeen(s: State, a: Action, r: Rid)
    requires ReaderOk(s, r) && PlaceOk(s) && Enabled(s, a) && !OfReader(a) && LeftOver(Do(s, a), r)
    requires LeftOver(s, r) ==> SeenOk(s, r)
    requires Flagged(s, r) ==> MarkedOk(s, r)
    ensures SeenOk(Do(s, a), r)
  {
  }

  lemma StepSeen(s: State, a: Action, r: Rid)
    requires Inv(s) && Enabled(s, a) && LeftOver(Do(s, a), r)
    ensures SeenOk(Do(s, a), r)
  {
    assert ReaderOk(s, r);
    if OfReader(a) {
      assert SeenOk(s, r);
      ReaderSeen(s, a, r);
    } else {
      if LeftOver(s, r) { assert SeenOk(s, r); }
      if Flagged(s, r) { assert MarkedOk(s, r); }
      OtherSeen(s, a, r);
    }
  }

  lemma StepMarked(s: State, a: Action, r: Rid)
    requires Inv(s) && Enabled(s, a) && Flagged(Do(s, a), r)
    ensures MarkedOk(Do(s, a), r)
  {
    if Flagged(s, r) { assert MarkedOk(s, r); }
  }

  lemma StepWaking(s: State, a: Action)
    requires Inv(s) && Enabled(s, a) && Do(s, a).w.Asleep? && Do(s, a).futex != -1
    ensures Waking(Do(s, a))
  {
    var s' := Do(s, a);
    if a.WakeSet? {
      assert At(s', a.r, CallWake);
    } else {
      var q :| At(s, q, CallWake);
      assert At(s', q, CallWake);
    }
  }

  lemma StepInv(s: State, a: Action)
    requires Inv(s) && Enabled(s, a)
    ensures Inv(Do(s, a))
  {
    var s' := Do(s, a);
    forall r ensures ReaderOk(s', r) { StepReaders(s, a, r); }
    StepPlace(s, a);
    forall r | Flagged(s', r) ensures MarkedOk(s', r) { StepMarked(s, a, r); }
    forall r | LeftOver(s', r) ensures SeenOk(s', r) { StepSeen(s, a, r); }
    if s'.w.Asleep? && s'.futex != -1 { StepWaking(s, a); }
  }

  // --- every run ------------------------------------------------------------------------

  ghost predicate IsRun(tr: seq<State>, acts: seq<Action>) {
    && |tr| == |acts| + 1
    && Init(tr[0])
    && forall i {:trigger acts[i]} | 0 <= i < |acts| :: Enabled(tr[i], acts[i]) && tr[i + 1] == Do(tr[i], acts[i])
  }

  lemma {:induction false} Reachable(tr: seq<State>, acts: seq<Action>, i: nat)
    requires IsRun(tr, acts) && i < |tr|
    ensures Inv(tr[i])
  {
    if i > 0 {
      Reachable(tr, acts, i - 1);
      assert Enabled(tr[i - 1], acts[i - 1]);
      StepInv(tr[i - 1], acts[i - 1]);
    }
  }

  predicate Online(s: State, r: Rid) { r in s.rd && s.rd[r].ctr != 0 }

  predicate IsGracePeriod(acts: seq<Action>, i: nat, j: nat) {
    && i < j < |acts| && acts[i] == Begin && acts[j] == End
    && forall k {:trigger acts[k]} | i < k < j :: acts[k] != End
  }

  /** `r` announces a quiescent state or goes offline with action `a`. */
  predicate Announces(a: Action, r: Rid) { a == QsLoad(r) || a == Offline(r) }

  lemma {:induction false} StillWaitedFor(tr: seq<State>, acts: seq<Action>, i: nat, k: nat, r: Rid)
    requires IsRun(tr, acts) && i < k < |tr| && acts[i] == Begin && Online(tr[i], r)
    requires forall m {:trigger acts[m]} | i < m < k :: acts[m] != End && !Announces(acts[m], r)
    ensures r in tr[k].before && !tr[k].w.Resting?
    decreases k
  {
    assert Enabled(tr[k - 1], acts[k - 1]) && tr[k] == Do(tr[k - 1], acts[k - 1]);
    if k - 1 > i { StillWaitedFor(tr, acts, i, k - 1, r); }
  }

  /** Every thread online when a grace period begins has announced a quiescent state
      or gone offline before it ends. */
  lemma QsbrSafety(tr: seq<State>, acts: seq<Action>, i: nat, j: nat, r: Rid)
    requires IsRun(tr, acts) && IsGracePeriod(acts, i, j) && Online(tr[i], r)
    ensures exists k :: i < k < j && Announces(acts[k], r)
  {
    Reachable(tr, acts, j);
    assert Enabled(tr[j], acts[j]) && ReaderOk(tr[j], r);
    if forall k {:trigger acts[k]} | i < k < j :: !Announces(acts[k], r) {
      StillWaitedFor(tr, acts, i, j, r);
    }
  }

  /** The writer asleep on its futex always has someone committed to waking it: a
      thread about to make the wake call, or, while the word is still -1, every thread
      it waits for. */
  lemma NoLostWakeup(tr: seq<State>, acts: seq<Action>, i: nat)
    requires IsRun(tr, acts) && i < |tr| && tr[i].w.Asleep?
    ensures tr[i].w.seen != {}
    ensures tr[i].futex != -1 ==> exists r :: At(tr[i], r, CallWake)
    ensures tr[i].futex == -1 ==> forall r | r in tr[i].w.seen :: WillWake(tr[i], r)
  {
    var s := tr[i];
    Reachable(tr, acts, i);
    forall r | s.futex == -1 && r in s.w.seen ensures WillWake(s, r) {
      assert SeenOk(s, r);
    }
  }
}
