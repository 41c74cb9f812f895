/** Grace-period detection of the default flavour: readers publish a per-thread
    counter, one writer at a time waits for them in two stages around a flip of the
    phase bit, and sleeps on a futex that readers clear.  One action is one shared
    access; the reader's load of the global counter and its store to its own are two. */
module GracePeriod {

  type Rid = nat

  /** A counter word: the phase bit and the nesting count in the low half. */
  datatype Ctr = Ctr(phase: bool, nest: nat)

  const NEST_MASK: nat := 0xFFFF_FFFF
  const ACTIVE_ATTEMPTS: nat := 100

  datatype Class = ActiveCurrent | ActiveOld | Inactive

  /** `rcu_reader_state`, for a global phase. */
  function Classify(c: Ctr, gp: bool): Class {
    if c.nest == 0 then Inactive
    else if c.phase == gp then ActiveCurrent
    else ActiveOld
  }

  /** Where a reader is: between loading the global counter and storing its own, or,
      after its outermost unlock, on the way to wake the writer. */
  datatype RPc = Free | Loaded(phase: bool) | ReadFutex | SetFutex | CallWake

  datatype Reader = Reader(ctr: Ctr, pc: RPc)

  datatype Stage = First | Second

  /** The writer that holds the grace-period lock.  `todo` is what the current pass
      has still to examine; `seen` (history) what it examined and left in the list. */
  datatype Writer =
    | Resting
    | Top(st: Stage, loops: nat)
    | Pass(st: Stage, loops: nat, todo: set<Rid>, seen: set<Rid>)
    | Relax(st: Stage, loops: nat)
    | ReadWord(st: Stage, loops: nat, seen: set<Rid>)
    | Wait(st: Stage, loops: nat, seen: set<Rid>)
    | Asleep(st: Stage, loops: nat, seen: set<Rid>)
    | Flip
    | Finish

  /** `reg`, `cur` and `qs` are the reader lists; `before` (history) are the readers that
      have been inside one section ever since the grace period began. */
  datatype State = State(
    gp: bool, futex: int, rd: map<Rid, Reader>,
    reg: set<Rid>, cur: set<Rid>, qs: set<Rid>, w: Writer, before: set<Rid>)

  datatype Action =
    | LockLoad(r: Rid) | LockStore(r: Rid) | LockNest(r: Rid)
    | UnlockNest(r: Rid) | UnlockLast(r: Rid)
    | WakeRead(r: Rid) | WakeSet(r: Rid) | WakeCall(r: Rid)
    | Register(r: Rid) | Unregister(r: Rid)
    | Begin | StartPass | Examine(r: Rid) | EndPass | Relock | ReadIt | WaitIt
    | Interrupt | Spurious
    | FlipPhase | End

  function Input(s: State, st: Stage): set<Rid> { if st == First then s.reg else s.cur }

  /** The registry lock is released between passes. */
  predicate LockFree(s: State) {
    s.w.Resting? || s.w.Relax? || s.w.ReadWord? || s.w.Wait? || s.w.Asleep?
  }

  predicate Slow(loops: nat) { loops >= ACTIVE_ATTEMPTS }

  function Bump(loops: nat): nat { if loops < ACTIVE_ATTEMPTS then loops + 1 else loops }

  predicate Enabled(s: State, a: Action) {
    match a
    case LockLoad(r) => r in s.rd && s.rd[r].pc.Free? && s.rd[r].ctr.nest == 0
    case LockStore(r) => r in s.rd && s.rd[r].pc.Loaded?
    case LockNest(r) => r in s.rd && s.rd[r].pc.Free? && 0 < s.rd[r].ctr.nest < NEST_MASK
    case UnlockNest(r) => r in s.rd && s.rd[r].pc.Free? && s.rd[r].ctr.nest > 1
    case UnlockLast(r) => r in s.rd && s.rd[r].pc.Free? && s.rd[r].ctr.nest == 1
    case WakeRead(r) => r in s.rd && s.rd[r].pc.ReadFutex?
    case WakeSet(r) => r in s.rd && s.rd[r].pc.SetFutex?
    case WakeCall(r) => r in s.rd && s.rd[r].pc.CallWake?
    case Register(r) => LockFree(s) && r !in s.rd
    case Unregister(r) => LockFree(s) && r in s.rd && s.rd[r].pc.Free? && s.rd[r].ctr.nest == 0
    case Begin => s.w.Resting?
    case StartPass => s.w.Top?
    case Examine(r) => s.w.Pass? && r in s.w.todo && r in s.rd
    case EndPass => s.w.Pass? && s.w.todo == {}
    case Relock => s.w.Relax?
    case ReadIt => s.w.ReadWord?
    case WaitIt => s.w.Wait?
    case Interrupt => s.w.Asleep?
    case Spurious => s.w.Asleep?
    case FlipPhase => s.w.Flip?
    case End => s.w.Finish?
  }

  function Put(s: State, r: Rid, x: Reader): State { s.(rd := s.rd[r := x]) }

  /** One examined reader: it leaves the input list unless it is in an old section. */
  function Sort(s: State, r: Rid): State
    requires s.w.Pass? && r in s.rd
  {
    var w := Pass(s.w.st, s.w.loops, s.w.todo - {r}, s.w.seen);
    match Classify(s.rd[r].ctr, s.gp)
    case ActiveOld => s.(w := Pass(s.w.st, s.w.loops, s.w.todo - {r}, s.w.seen + {r}))
    case ActiveCurrent =>
      if s.w.st == First then s.(reg := s.reg - {r}, cur := s.cur + {r}, w := w)
      else s.(cur := s.cur - {r}, qs := s.qs + {r}, w := w)
    case Inactive => s.(reg := s.reg - {r}, cur := s.cur - {r}, qs := s.qs + {r}, w := w)
  }

  function Do(s: State, a: Action): State
    requires Enabled(s, a)
  {
    match a
    case LockLoad(r) => Put(s, r, s.rd[r].(pc := Loaded(s.gp)))
    case LockStore(r) => Put(s, r, Reader(Ctr(s.rd[r].pc.phase, 1), Free))
    case LockNest(r) => Put(s, r, s.rd[r].(ctr := s.rd[r].ctr.(nest := s.rd[r].ctr.nest + 1)))
    case UnlockNest(r) => Put(s, r, s.rd[r].(ctr := s.rd[r].ctr.(nest := s.rd[r].ctr.nest - 1)))
    case UnlockLast(r) =>
      Put(s, r, Reader(s.rd[r].ctr.(nest := 0), ReadFutex)).(before := s.before - {r})
    case WakeRead(r) => Put(s, r, s.rd[r].(pc := if s.futex == -1 then SetFutex else Free))
    case WakeSet(r) => Put(s, r, s.rd[r].(pc := CallWake)).(futex := 0)
    case WakeCall(r) =>
      var s1 := Put(s, r, s.rd[r].(pc := Free));
      if s.w.Asleep? then s1.(w := Top(s.w.st, s.w.loops)) else s1
    case Register(r) => Put(s, r, Reader(Ctr(false, 0), Free)).(reg := s.reg + {r})
    case Unregister(r) => s.(rd := s.rd - {r}, reg := s.reg - {r}, cur := s.cur - {r}, qs := s.qs - {r})
    case Begin =>
      s.(w := if s.reg == {} then Finish else Top(First, 0),
         before := set r | r in s.rd && s.rd[r].ctr.nest > 0)
    case StartPass =>
      var n := Bump(s.w.loops);
      s.(w := Pass(s.w.st, n, Input(s, s.w.st), {}), futex := if Slow(n) then s.futex - 1 else s.futex)
    case Examine(r) => Sort(s, r)
    case EndPass =>
      if Input(s, s.w.st) == {} then
        s.(w := if s.w.st == First then Flip else Finish, futex := if Slow(s.w.loops) then 0 else s.futex)
      else if Slow(s.w.loops) then s.(w := ReadWord(s.w.st, s.w.loops, s.w.seen))
      else s.(w := Relax(s.w.st, s.w.loops))
    case Relock => s.(w := Top(s.w.st, s.w.loops))
    case ReadIt => s.(w := if s.futex == -1 then Wait(s.w.st, s.w.loops, s.w.seen) else Top(s.w.st, s.w.loops))
    case WaitIt => s.(w := if s.futex == -1 then Asleep(s.w.st, s.w.loops, s.w.seen) else Top(s.w.st, s.w.loops))
    case Interrupt => s.(w := Wait(s.w.st, s.w.loops, s.w.seen))
    case Spurious => s.(w := Top(s.w.st, s.w.loops))
    case FlipPhase => s.(gp := !s.gp, w := Top(Second, 0))
    case End => s.(reg := s.reg + s.qs, qs := {}, w := Resting)
  }

  predicate Init(s: State) {
    s == State(false, 0, map[], {}, {}, {}, Resting, {})
  }

  // --- the invariant ----------------------------------------------------------------

  predicate InStage(w: Writer, st: Stage) {
    match w
    case Top(x, _) => x == st
    case Pass(x, _, _, _) => x == st
    case Relax(x, _) => x == st
    case ReadWord(x, _, _) => x == st
    case Wait(x, _, _) => x == st
    case Asleep(x, _, _) => x == st
    case Flip => st == First
    case _ => false
  }

  /** A reader that was in a section when the grace period began is still waited for:
      in the first stage it is in the input list or was seen with the current phase,
      in the second it is in the input list and is seen as old. */
  predicate OldOk(s: State, r: Rid) {
    r in s.before ==>
      && r in s.rd && s.rd[r].ctr.nest > 0
      && (InStage(s.w, First) ==> r in s.reg || (r in s.cur && s.rd[r].ctr.phase == s.gp))
      && (s.w.Flip? ==> r in s.cur)
      && (InStage(s.w, Second) ==> r in s.cur && s.rd[r].ctr.phase != s.gp)
      && !s.w.Finish?
  }

  predicate ListOk(s: State, r: Rid) {
    && (r in s.rd <==> r in s.reg || r in s.cur || r in s.qs)
    && !(r in s.reg && r in s.cur) && !(r in s.reg && r in s.qs) && !(r in s.cur && r in s.qs)
    && (r in s.rd && s.rd[r].ctr.nest > 0 ==> s.rd[r].pc.Free?)
  }

  predicate OldSection(s: State, r: Rid) {
    r in s.rd && Classify(s.rd[r].ctr, s.gp) == ActiveOld
  }

  /** A reader left in the list by a slow pass is still in that section or is
      committed to looking at the futex word, unless the word is no longer -1. */
  predicate SeenOk(s: State, r: Rid) {
    s.futex != -1 || OldSection(s, r) || (r in s.rd && (s.rd[r].pc.ReadFutex? || s.rd[r].pc.SetFutex?))
  }

  predicate HasSeen(w: Writer) { w.Pass? || w.ReadWord? || w.Wait? || w.Asleep? }

  /** What the lists are at each place of the writer. */
  ghost predicate PlaceOk(s: State) {
    && (s.w.Pass? ==> Input(s, s.w.st) == s.w.todo + s.w.seen && s.w.todo !! s.w.seen)
    && (s.w.ReadWord? || s.w.Wait? || s.w.Asleep? ==> s.w.seen != {} && Slow(s.w.loops))
    && (s.w.Flip? ==> s.reg == {})
    && (s.w.Finish? ==> s.cur == {})
    && (s.w.Resting? ==> s.cur == {} && s.qs == {} && s.before == {})
  }

  ghost predicate Waking(s: State) { exists r :: r in s.rd && s.rd[r].pc.CallWake? }

  ghost predicate WriterOk(s: State) {
    && PlaceOk(s)
    && (HasSeen(s.w) && Slow(s.w.loops) ==> forall r {:trigger SeenOk(s, r)} | r in s.w.seen :: SeenOk(s, r))
    && (s.w.Asleep? && s.futex != -1 ==> Waking(s))
  }

  ghost predicate Inv(s: State) {
    && (forall r {:trigger OldOk(s, r)} :: OldOk(s, r))
    && (forall r {:trigger ListOk(s, r)} :: ListOk(s, r))
    && WriterOk(s)
  }

  lemma InitInv(s: State)
    requires Init(s)
    ensures Inv(s)
  {
  }

  /** Accesses of readers. */
  predicate OfReader(a: Action) {
    || a.LockLoad? || a.LockStore? || a.LockNest? || a.UnlockNest? || a.UnlockLast?
    || a.WakeRead? || a.WakeSet? || a.WakeCall?
  }

  lemma ReaderLists(s: State, a: Action, r: Rid)
    requires ListOk(s, r) && OldOk(s, r) && Enabled(s, a) && OfReader(a)
    ensures ListOk(Do(s, a), r) && OldOk(Do(s, a), r)
  {
  }

  lemma ExamineLists(s: State, q: Rid, r: Rid)
    requires ListOk(s, r) && OldOk(s, r) && WriterOk(s) && Enabled(s, Examine(q))
    ensures ListOk(Do(s, Examine(q)), r) && OldOk(Do(s, Examine(q)), r)
  {
  }

  lemma RegistryLists(s: State, a: Action, r: Rid)
    requires ListOk(s, r) && OldOk(s, r) && Enabled(s, a) && (a.Register? || a.Unregister?)
    ensures ListOk(Do(s, a), r) && OldOk(Do(s, a), r)
  {
  }

  lemma WriterLists(s: State, a: Action, r: Rid)
    requires ListOk(s, r) && OldOk(s, r) && WriterOk(s) && Enabled(s, a)
    requires !OfReader(a) && !a.Examine? && !a.Register? && !a.Unregister?
    ensures ListOk(Do(s, a), r) && OldOk(Do(s, a), r)
  {
  }

  lemma StepLists(s: State, a: Action, r: Rid)
    requires Inv(s) && Enabled(s, a)
    ensures ListOk(Do(s, a), r) && OldOk(Do(s, a), r)
  {
    assert ListOk(s, r) && OldOk(s, r);
    if OfReader(a) { ReaderLists(s, a, r); }
    else if a.Examine? { ExamineLists(s, a.r, r); }
    else if a.Register? || a.Unregister? { RegistryLists(s, a, r); }
    else { WriterLists(s, a, r); }
  }

  lemma ReaderPlace(s: State, a: Action)
    requires PlaceOk(s) && Enabled(s, a) && (OfReader(a) || a.Register? || a.Unregister?)
    ensures PlaceOk(Do(s, a))
  {
  }

  lemma WriterPlace(s: State, a: Action)
    requires PlaceOk(s) && Enabled(s, a) && !OfReader(a) && !a.Register? && !a.Unregister?
    requires s.w.Finish? ==> s.before == {}
    requires a.Examine? ==> ListOk(s, a.r)
    ensures PlaceOk(Do(s, a))
  {
  }

  lemma StepPlace(s: State, a: Action)
    requires Inv(s) && Enabled(s, a)
    ensures PlaceOk(Do(s, a))
  {
    if OfReader(a) || a.Register? || a.Unregister? {
      ReaderPlace(s, a);
    } else {
      if s.w.Finish? {
        forall r ensures r !in s.before { assert OldOk(s, r); }
      }
      if a.Examine? { assert ListOk(s, a.r); }
      WriterPlace(s, a);
    }
  }

  lemma StepWaking(s: State, a: Action)
    requires Inv(s) && Enabled(s, a) && Do(s, a).w.Asleep? && Do(s, a).futex != -1
    ensures Waking(Do(s, a))
  {
    var s' := Do(s, a);
    if a.WakeSet? {
      assert s'.rd[a.r].pc.CallWake?;
    } else {
      var q :| q in s.rd && s.rd[q].pc.CallWake?;
      assert q in s'.rd && s'.rd[q].pc.CallWake?;
    }
  }

  lemma StepWriter(s: State, a: Action)
    requires Inv(s) && Enabled(s, a)
    ensures WriterOk(Do(s, a))
  {
    var s' := Do(s, a);
    StepPlace(s, a);
    if HasSeen(s'.w) && Slow(s'.w.loops) {
      forall r | r in s'.w.seen ensures SeenOk(s', r) { StepSeen(s, a, r); }
    }
    if s'.w.Asleep? && s'.futex != -1 { StepWaking(s, a); }
  }

  lemma ReaderSeen(s: State, a: Action, r: Rid)
    requires ListOk(s, r) && SeenOk(s, r) && Enabled(s, a) && OfReader(a)
    ensures SeenOk(Do(s, a), r)
  {
  }

  lemma OtherSeen(s: State, a: Action, r: Rid)
    requires ListOk(s, r) && WriterOk(s) && Enabled(s, a) && !OfReader(a)
    requires HasSeen(Do(s, a).w) && r in Do(s, a).w.seen && Slow(Do(s, a).w.loops)
    ensures SeenOk(Do(s, a), r)
  {
    if HasSeen(s.w) && r in s.w.seen { assert SeenOk(s, r); }
  }

  lemma StepSeen(s: State, a: Action, r: Rid)
    requires Inv(s) && Enabled(s, a) && HasSeen(Do(s, a).w) && r in Do(s, a).w.seen && Slow(Do(s, a).w.loops)
    ensures SeenOk(Do(s, a), r)
  {
    assert ListOk(s, r);
    if OfReader(a) {
      assert SeenOk(s, r);
      ReaderSeen(s, a, r);
    } else {
      OtherSeen(s, a, r);
    }
  }

  lemma StepInv(s: State, a: Action)
    requires Inv(s) && Enabled(s, a)
    ensures Inv(Do(s, a))
  {
    forall r ensures OldOk(Do(s, a), r) { StepLists(s, a, r); }
    forall r ensures ListOk(Do(s, a), r) { StepLists(s, a, r); }
    StepWriter(s, a);
  }

  // --- every run ------------------------------------------------------------------------

  ghost predicate IsRun(tr: seq<State>, acts: seq<Action>) {
    && |tr| == |acts| + 1
    && Init(tr[0])
    && forall i {:trigger acts[i]} | 0 <= i < |acts| :: Enabled(tr[i], acts[i]) && tr[i + 1] == Do(tr[i], acts[i])
  }

  lemma {:induction false} Reachable(tr: seq<State>, acts: seq<Action>, i: nat)
    requires IsRun(tr, acts) && i < |tr|
    ensures Inv(tr[i])
  {
    if i == 0 {
      InitInv(tr[0]);
    } else {
      Reachable(tr, acts, i - 1);
      assert Enabled(tr[i - 1], acts[i - 1]);
      StepInv(tr[i - 1], acts[i - 1]);
    }
  }

  predicate InSection(s: State, r: Rid) { r in s.rd && s.rd[r].ctr.nest > 0 }

  /** A grace period runs from action `i` up to action `j`. */
  predicate IsGracePeriod(acts: seq<Action>, i: nat, j: nat) {
    && i < j < |acts| && acts[i] == Begin && acts[j] == End
    && forall k {:trigger acts[k]} | i < k < j :: acts[k] != End
  }

  lemma {:induction false} StillWaitedFor(tr: seq<State>, acts: seq<Action>, i: nat, k: nat, r: Rid)
    requires IsRun(tr, acts) && i < k < |tr| && acts[i] == Begin
    requires forall m {:trigger acts[m]} | i < m < k :: acts[m] != End
    requires forall m {:trigger InSection(tr[m], r)} | i <= m <= k :: InSection(tr[m], r)
    ensures r in tr[k].before && !tr[k].w.Resting?
    decreases k
  {
    assert InSection(tr[k - 1], r) && InSection(tr[k], r);
    assert Enabled(tr[k - 1], acts[k - 1]) && tr[k] == Do(tr[k - 1], acts[k - 1]);
    if k - 1 > i { StillWaitedFor(tr, acts, i, k - 1, r); }
  }

  /** Every read section in progress when a grace period begins has ended before that
      grace period ends, whatever other sections, nestings, registrations and delayed
      counter stores happen meanwhile. */
  lemma GracePeriodSafety(tr: seq<State>, acts: seq<Action>, i: nat, j: nat, r: Rid)
    requires IsRun(tr, acts) && IsGracePeriod(acts, i, j)
    ensures exists k :: i <= k <= j && !InSection(tr[k], r)
  {
    Reachable(tr, acts, j);
    assert Enabled(tr[j], acts[j]) && OldOk(tr[j], r);
    if forall k | i <= k <= j :: InSection(tr[k], r) {
      StillWaitedFor(tr, acts, i, j, r);
    }
  }

  /** The writer asleep on its futex always has someone committed to waking it: a
      reader about to make the wake call, or, while the word is still -1, every reader
      it waits for is still in its old section or about to look at the word. */
  lemma NoLostWakeup(tr: seq<State>, acts: seq<Action>, i: nat)
    requires IsRun(tr, acts) && i < |tr| && tr[i].w.Asleep?
    ensures tr[i].w.seen != {}
    ensures tr[i].futex != -1 ==> exists r :: r in tr[i].rd && tr[i].rd[r].pc.CallWake?
    ensures tr[i].futex == -1 ==> forall r | r in tr[i].w.seen ::
              OldSection(tr[i], r) || (r in tr[i].rd && (tr[i].rd[r].pc.ReadFutex? || tr[i].rd[r].pc.SetFutex?))
  {
    Reachable(tr, acts, i);
    forall r | tr[i].futex == -1 && r in tr[i].w.seen
      ensures OldSection(tr[i], r) || (r in tr[i].rd && (tr[i].rd[r].pc.ReadFutex? || tr[i].rd[r].pc.SetFutex?))
    {
      assert SeenOk(tr[i], r);
    }
  }

  /** Between flips, a reader is stale while it is in an old section or is about to
      store a counter value of the old phase. */
  predicate Stale(s: State, r: Rid) {
    r in s.rd && (OldSection(s, r) || (s.rd[r].pc.Loaded? && s.rd[r].pc.phase != s.gp))
  }

  lemma StepStale(s: State, a: Action, r: Rid)
    requires Inv(s) && Enabled(s, a) && a != FlipPhase
    ensures Stale(Do(s, a), r) ==> Stale(s, r)
    ensures OldSection(s, r) && !OldSection(Do(s, a), r) ==> !Stale(Do(s, a), r)
    ensures OldSection(s, r) && OldSection(Do(s, a), r) ==> InSection(Do(s, a), r)
  {
    assert ListOk(s, r);
  }

  predicate NoFlip(acts: seq<Action>, i: nat, k: nat) {
    i <= k <= |acts| && forall m {:trigger acts[m]} | i <= m < k :: acts[m] != FlipPhase
  }

  /** New sections never become stale: the set of readers that can hold the writer up
      only shrinks until the next flip. */
  lemma {:induction false} StaleOnlyShrinks(tr: seq<State>, acts: seq<Action>, i: nat, k: nat, r: Rid)
    requires IsRun(tr, acts) && NoFlip(acts, i, k) && Stale(tr[k], r)
    ensures Stale(tr[i], r)
    decreases k
  {
    if i < k {
      Reachable(tr, acts, k - 1);
      assert acts[k - 1] != FlipPhase && tr[k] == Do(tr[k - 1], acts[k - 1]);
      StepStale(tr[k - 1], acts[k - 1], r);
      StaleOnlyShrinks(tr, acts, i, k - 1, r);
    }
  }

  /** Between two flips each reader runs at most one section that the writer takes for
      old: two such observations are of one and the same section. */
  lemma {:induction false} OneOldSectionPerFlip(tr: seq<State>, acts: seq<Action>, i: nat, m: nat, k: nat, r: Rid)
    requires IsRun(tr, acts) && NoFlip(acts, i, k) && i <= m <= k
    requires OldSection(tr[i], r) && OldSection(tr[k], r)
    ensures OldSection(tr[m], r) && InSection(tr[m], r)
    decreases m
  {
    if i < m {
      OneOldSectionPerFlip(tr, acts, i, m - 1, k, r);
      Reachable(tr, acts, m - 1);
      assert acts[m - 1] != FlipPhase && tr[m] == Do(tr[m - 1], acts[m - 1]);
      StepStale(tr[m - 1], acts[m - 1], r);
      StaleOnlyShrinks(tr, acts, m, k, r);
    }
  }

  /** Action `i` starts a pass and `j` is the end of that pass. */
  predicate IsPass(tr: seq<State>, acts: seq<Action>, i: nat, j: nat) {
    && i < j < |acts| && j < |tr| && acts[i] == StartPass && acts[j] == EndPass
    && forall k {:trigger acts[k]} | i < k < j :: acts[k] != EndPass && acts[k] != StartPass
  }

  lemma {:induction false} NothingSeen(tr: seq<State>, acts: seq<Action>, i: nat, k: nat)
    requires IsRun(tr, acts) && i < k < |tr| && acts[i] == StartPass
    requires forall m {:trigger acts[m]} | i < m < k :: acts[m] != EndPass && acts[m] != StartPass
    requires forall r {:trigger Stale(tr[i], r)} :: !Stale(tr[i], r)
    ensures tr[k].w.Pass? && tr[k].w.seen == {} && NoFlip(acts, i, k)
    decreases k
  {
    assert Enabled(tr[k - 1], acts[k - 1]) && tr[k] == Do(tr[k - 1], acts[k - 1]);
    if k - 1 > i {
      NothingSeen(tr, acts, i, k - 1);
      if acts[k - 1].Examine? {
        var r := acts[k - 1].r;
        if Stale(tr[k - 1], r) { StaleOnlyShrinks(tr, acts, i, k - 1, r); }
        assert !Stale(tr[i], r);
      }
    }
  }

  /** A pass that starts when no reader is stale is the last one of its stage. */
  lemma PassWithoutStaleIsLast(tr: seq<State>, acts: seq<Action>, i: nat, j: nat)
    requires IsRun(tr, acts) && IsPass(tr, acts, i, j)
    requires forall r {:trigger Stale(tr[i], r)} :: !Stale(tr[i], r)
    ensures tr[j + 1].w.Flip? || tr[j + 1].w.Finish?
  {
    NothingSeen(tr, acts, i, j);
    Reachable(tr, acts, j);
    assert Enabled(tr[j], acts[j]) && tr[j + 1] == Do(tr[j], acts[j]);
  }

  lemma Extend(tr: seq<State>, acts: seq<Action>, a: Action, last: State) returns (tr': seq<State>, acts': seq<Action>)
    requires IsRun(tr, acts) && tr[|acts|] == last && Enabled(last, a)
    ensures IsRun(tr', acts') && tr'[|acts'|] == Do(last, a)
  {
    tr', acts' := tr + [Do(last, a)], acts + [a];
  }

  /** The state with one reader, about to store a counter of the first phase. */
  function Delayed(gp: bool, reg: set<Rid>, qs: set<Rid>, w: Writer): State {
    State(gp, 0, map[0 := Reader(Ctr(false, 0), Loaded(false))], reg, {}, qs, w, {})
  }

  lemma OneReader() returns (tr: seq<State>, acts: seq<Action>)
    ensures IsRun(tr, acts) && tr[|acts|] == Delayed(false, {0}, {}, Resting)
  {
    var s := State(false, 0, map[], {}, {}, {}, Resting, {});
    var s1 := State(false, 0, map[0 := Reader(Ctr(false, 0), Free)], {0}, {}, {}, Resting, {});
    tr, acts := [s], [];
    tr, acts := Extend(tr, acts, Register(0), s);
    tr, acts := Extend(tr, acts, LockLoad(0), s1);
  }

  lemma OneExamined() returns (tr: seq<State>, acts: seq<Action>)
    ensures IsRun(tr, acts) && tr[|acts|] == Delayed(false, {}, {0}, Pass(First, 1, {}, {}))
  {
    tr, acts := OneReader();
    tr, acts := Extend(tr, acts, Begin, Delayed(false, {0}, {}, Resting));
    tr, acts := Extend(tr, acts, StartPass, Delayed(false, {0}, {}, Top(First, 0)));
    tr, acts := Extend(tr, acts, Examine(0), Delayed(false, {0}, {}, Pass(First, 1, {0}, {})));
    var s := tr[|acts|];
    assert s.reg == {} && s.cur == {} && s.qs == {0} && s.w.todo == {};
  }

  lemma OneWaited() returns (tr: seq<State>, acts: seq<Action>)
    ensures IsRun(tr, acts) && tr[|acts|] == Delayed(true, {}, {0}, Finish)
  {
    tr, acts := OneExamined();
    tr, acts := Extend(tr, acts, EndPass, Delayed(false, {}, {0}, Pass(First, 1, {}, {})));
    tr, acts := Extend(tr, acts, FlipPhase, Delayed(false, {}, {0}, Flip));
    tr, acts := Extend(tr, acts, StartPass, Delayed(true, {}, {0}, Top(Second, 0)));
    tr, acts := Extend(tr, acts, EndPass, Delayed(true, {}, {0}, Pass(Second, 1, {}, {})));
  }

  /** What a writer waits for: no reader in an old section. */
  ghost predicate NoOldSection(s: State) { forall r {:trigger OldSection(s, r)} :: !OldSection(s, r) }

  /** Why one flip is not enough: a reader that loads the global counter, is delayed
      over a whole grace period and then stores it, is in a section that a writer with
      a single stage would not wait for. */
  lemma DelayedStore() returns (tr: seq<State>, acts: seq<Action>)
    ensures IsRun(tr, acts) && tr[|acts|].w.Resting?
    ensures InSection(tr[|acts|], 0) && NoOldSection(tr[|acts|].(gp := !tr[|acts|].gp))
  {
    tr, acts := OneWaited();
    tr, acts := Extend(tr, acts, End, Delayed(true, {}, {0}, Finish));
    tr, acts := Extend(tr, acts, LockStore(0), Delayed(true, {0}, {}, Resting));
  }
}
