/** A work-queue completion: a caller queues marker work on any number of queues and
    waits until all of it has run; the last one to let go frees the structure. */
module Completion {

  type Wid = nat

  /** A piece of marker work. */
  datatype Marker = Queued | ReadWord | SetZero | Wake | PutRef | Gone

  /** The caller adds one piece after the other: it takes a reference, counts the piece
      and puts it on a queue. */
  datatype Waiter =
    | Adding | HasRef(x: Wid) | Counted(x: Wid) | Decrement | ReadCount | ReadFutex | Wait | Asleep | Destroy | Done

  /** `pending` (history) is the marker work counted and not yet run, `holders` who has a
      reference besides the caller. */
  datatype State = State(
    count: int, refs: int, futex: int, freed: bool, w: Waiter, work: map<Wid, Marker>,
    pending: set<Wid>, holders: set<Wid>)

  datatype Action = GetRef(x: Wid) | Count | Enqueue | Mark(x: Wid) | StartWait | Waits | Interrupt | Spurious

  predicate Waiting(w: Waiter) { !w.Adding? && !w.HasRef? && !w.Counted? }

  predicate Enabled(s: State, a: Action) {
    match a
    case GetRef(x) => s.w.Adding? && x !in s.work
    case Count => s.w.HasRef?
    case Enqueue => s.w.Counted?
    case Mark(x) => x in s.work && s.work[x] != Gone
    case StartWait => s.w.Adding?
    case Waits => Waiting(s.w) && !s.w.Asleep? && !s.w.Done?
    case Interrupt => s.w.Asleep?
    case Spurious => s.w.Asleep?
  }

  function Unref(s: State): State { s.(refs := s.refs - 1, freed := s.freed || s.refs == 1) }

  /** One access by `_urcu_workqueue_wait_complete`. */
  function DoMark(s: State, x: Wid, k: Marker): State {
    match k
    case Queued =>
      var next := if s.count == 1 then ReadWord else PutRef;
      s.(count := s.count - 1, pending := s.pending - {x}, work := s.work[x := next])
    case ReadWord => s.(work := s.work[x := if s.futex == -1 then SetZero else PutRef])
    case SetZero => s.(futex := 0, work := s.work[x := Wake])
    case Wake => s.(work := s.work[x := PutRef], w := if s.w.Asleep? then Decrement else s.w)
    case PutRef => Unref(s).(work := s.work[x := Gone], holders := s.holders - {x})
    case Gone => s
  }

  function DoWait(s: State): State {
    match s.w
    case Decrement => s.(futex := s.futex - 1, w := ReadCount)
    case ReadCount => s.(w := if s.count == 0 then Destroy else ReadFutex)
    case ReadFutex => s.(w := if s.futex == -1 then Wait else Decrement)
    case Wait => s.(w := if s.futex == -1 then Asleep else Decrement)
    case Destroy => Unref(s).(w := Done)
    case _ => s
  }

  function Do(s: State, a: Action): State
    requires Enabled(s, a)
  {
    match a
    case GetRef(x) => s.(refs := s.refs + 1, holders := s.holders + {x}, w := HasRef(x))
    case Count => s.(count := s.count + 1, pending := s.pending + {s.w.x}, w := Counted(s.w.x))
    case Enqueue => s.(work := s.work[s.w.x := Queued], w := Adding)
    case Mark(x) => DoMark(s, x, s.work[x])
    case StartWait => s.(w := Decrement)
    case Waits => DoWait(s)
    case Interrupt => s.(w := Wait)
    case Spurious => s.(w := Decrement)
  }

  predicate Init(s: State) { s == State(0, 1, 0, false, Adding, map[], {}, {}) }

  // --- the invariant --------------------------------------------------------------------

  predicate MarkerOk(s: State, x: Wid) {
    && (x in s.pending <==> (x in s.work && s.work[x].Queued?) || s.w == Counted(x))
    && (x in s.holders <==> (x in s.work && !s.work[x].Gone?) || s.w == Counted(x) || s.w == HasRef(x))
    && (s.w == Counted(x) || s.w == HasRef(x) ==> x !in s.work)
  }

  ghost predicate Committed(work: map<Wid, Marker>) {
    exists x {:trigger work[x]} :: x in work && (work[x].ReadWord? || work[x].SetZero?)
  }

  ghost predicate Waking(work: map<Wid, Marker>) { exists x {:trigger work[x]} :: x in work && work[x].Wake? }

  predicate Sleepy(w: Waiter) { w.ReadFutex? || w.Wait? || w.Asleep? }

  ghost predicate Inv(s: State) {
    && (forall x {:trigger MarkerOk(s, x)} :: MarkerOk(s, x))
    && s.count == |s.pending|
    && s.refs == |s.holders| + (if s.w.Done? then 0 else 1)
    && (s.freed <==> s.refs == 0)
    && s.futex <= 0
    && (s.count == 0 && s.futex == -1 && Sleepy(s.w) ==> Committed(s.work))
    && (s.w.Asleep? ==> s.futex == -1 || (s.futex == 0 && Waking(s.work)))
    && (s.w.Destroy? || s.w.Done? ==> s.count == 0)
  }

  lemma MarkKeeps(s: State, x: Wid)
    requires Inv(s) && x in s.work && s.work[x] != Gone
    ensures Inv(DoMark(s, x, s.work[x]))
  {
    var s' := DoMark(s, x, s.work[x]);
    forall y {:trigger MarkerOk(s', y)} ensures MarkerOk(s', y) { assert MarkerOk(s, y); }
    assert MarkerOk(s, x);
    Sleeps(s, x, s');
  }

  lemma Sleeps(s: State, x: Wid, s': State)
    requires Inv(s) && x in s.work && s.work[x] != Gone && s' == DoMark(s, x, s.work[x])
    ensures s'.count == 0 && s'.futex == -1 && Sleepy(s'.w) ==> Committed(s'.work)
    ensures s'.w.Asleep? ==> s'.futex == -1 || (s'.futex == 0 && Waking(s'.work))
  {
    assert s'.work[x].ReadWord? || s'.work[x].SetZero? || s'.work[x].Wake? || s'.work[x].PutRef? || s'.work[x].Gone?;
    if Committed(s.work) {
      var y :| y in s.work && (s.work[y].ReadWord? || s.work[y].SetZero?);
      assert y != x ==> y in s'.work && s'.work[y] == s.work[y];
    }
    if Waking(s.work) {
      var y :| y in s.work && s.work[y].Wake?;
      assert y != x ==> y in s'.work && s'.work[y] == s.work[y];
    }
  }

  lemma AddKeeps(s: State, a: Action)
    requires Inv(s) && Enabled(s, a) && (a.GetRef? || a.Count? || a.Enqueue?)
    ensures Inv(Do(s, a))
  {
    var s' := Do(s, a);
    assert MarkerOk(s, if a.GetRef? then a.x else s.w.x);
    forall y {:trigger MarkerOk(s', y)} ensures MarkerOk(s', y) { assert MarkerOk(s, y); }
  }

  lemma WaiterKeeps(s: State, s': State)
    requires Inv(s) && !s.w.Done?
    requires (s' == s.(w := Decrement) || (s.w.Asleep? && s' == s.(w := Wait)) || s' == DoWait(s))
    requires s.w.Adding? || s.w.Asleep? || (s' == DoWait(s) && Waiting(s.w))
    ensures Inv(s')
  {
    assert s'.work == s.work;
    forall y {:trigger MarkerOk(s', y)} ensures MarkerOk(s', y) { assert MarkerOk(s, y); }
  }

  lemma StepInv(s: State, a: Action)
    requires Inv(s) && Enabled(s, a)
    ensures Inv(Do(s, a))
  {
    match a
    case Mark(x) => MarkKeeps(s, x);
    case GetRef(_) => AddKeeps(s, a);
    case Count => AddKeeps(s, a);
    case Enqueue => AddKeeps(s, a);
    case _ => WaiterKeeps(s, Do(s, a));
  }

  // --- runs -----------------------------------------------------------------------------

  ghost predicate IsRun(tr: seq<State>, acts: seq<Action>) {
    && |tr| == |acts| + 1 && Init(tr[0])
    && forall i {:trigger acts[i]} {:trigger tr[i + 1]} | 0 <= i < |acts| ::
      Enabled(tr[i], acts[i]) && tr[i + 1] == Do(tr[i], acts[i])
  }

  lemma {:induction false} Reachable(tr: seq<State>, acts: seq<Action>, i: nat)
    requires IsRun(tr, acts) && i < |tr|
    ensures Inv(tr[i])
  {
    if i > 0 {
      Reachable(tr, acts, i - 1);
      assert Enabled(tr[i - 1], acts[i - 1]) && tr[i] == Do(tr[i - 1], acts[i - 1]);
      StepInv(tr[i - 1], acts[i - 1]);
    }
  }

  /** The wait returns only when all the marker work has run. */
  lemma WaitsForAll(tr: seq<State>, acts: seq<Action>, i: nat, x: Wid)
    requires IsRun(tr, acts) && i < |tr| && (tr[i].w.Destroy? || tr[i].w.Done?) && x in tr[i].work
    ensures !tr[i].work[x].Queued?
  {
    Reachable(tr, acts, i);
    assert MarkerOk(tr[i], x);
  }

  predicate WillWake(s: State, x: Wid) {
    x in s.work && (((s.work[x].ReadWord? || s.work[x].SetZero?) && s.futex == -1) || (s.work[x].Wake? && s.futex == 0))
  }

  /** While the waiter sleeps and all the work has run, one piece of it is still going
      to wake it. */
  lemma NoLostWakeup(tr: seq<State>, acts: seq<Action>, i: nat)
    requires IsRun(tr, acts) && i < |tr| && tr[i].w.Asleep? && tr[i].pending == {}
    ensures exists x {:trigger WillWake(tr[i], x)} :: WillWake(tr[i], x)
  {
    Reachable(tr, acts, i);
    var s := tr[i];
    if s.futex == 0 {
      var x :| x in s.work && s.work[x].Wake?;
      assert WillWake(s, x);
    } else {
      var x :| x in s.work && (s.work[x].ReadWord? || s.work[x].SetZero?);
      assert WillWake(s, x);
    }
  }

  /** The structure is freed when, and only when, the waiter and all the work have let
      go of it: whoever still has an access to make finds it allocated. */
  lemma FreedIffUnused(tr: seq<State>, acts: seq<Action>, i: nat)
    requires IsRun(tr, acts) && i < |tr|
    ensures tr[i].freed <==> tr[i].w.Done? && forall x {:trigger tr[i].work[x]} | x in tr[i].work :: tr[i].work[x].Gone?
  {
    Reachable(tr, acts, i);
    var s := tr[i];
    if s.freed {
      forall x {:trigger s.work[x]} | x in s.work ensures s.work[x].Gone? { assert MarkerOk(s, x); }
    } else if s.w.Done? {
      var x :| x in s.holders;
      assert MarkerOk(s, x) && x in s.work && !s.work[x].Gone?;
    }
  }
}
