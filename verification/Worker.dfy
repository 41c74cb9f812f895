/** The worker thread of a work queue and its futex, shared by the work queue and the
    `call_rcu` threads: any number of threads queue work, ask for a pause or a stop, and
    wake the worker; its sleep may also be interrupted, or end of itself.  Queue
    operations are atomic here (module WfcQueue); every access to the futex word and the
    flags is an action of its own. */
module Worker {
  import opened Sequences

  type Tid = nat
  type Work = nat

  datatype Reason = Queue(x: Work) | Stop | Pause

  /** A thread in `futex_wake_up`. */
  datatype Waker = ReadWord | SetZero | Wake

  datatype Pc =
    | Decrement
    | Top
    | PauseSet
    | PauseWait
    | PauseClear
    | Splice
    | Run
    | CheckStop
    | CheckEmpty
    | ReadFutex
    | Wait
    | Asleep
    | SetIdle
    | Ended

  /** `batch` is the work spliced off and not yet run; `ran` (history) what has run and
      `queued` (history) all that was ever queued, in order. */
  datatype State = State(
    futex: int, stop: bool, pause: bool, paused: bool, queue: seq<Work>, batch: seq<Work>,
    w: Pc, th: map<Tid, Waker>, ran: seq<Work>, queued: seq<Work>)

  datatype Action =
    | Post(t: Tid, r: Reason)
    | Waken(t: Tid)
    | Resume
    | Interrupt
    | Spurious
    | Worker

  predicate Enabled(s: State, a: Action) {
    match a
    case Post(t, r) => t !in s.th
    case Waken(t) => t in s.th
    case Resume => true
    case Interrupt => s.w == Asleep
    case Spurious => s.w == Asleep
    case Worker => s.w != Asleep && s.w != Ended
  }

  function DoPost(s: State, t: Tid, r: Reason): State {
    match r
    case Queue(x) => s.(queue := s.queue + [x], queued := s.queued + [x], th := s.th[t := ReadWord])
    case Stop => s.(stop := true, th := s.th[t := ReadWord])
    case Pause => s.(pause := true, th := s.th[t := ReadWord])
  }

  /** One access of `futex_wake_up`; the wake ends the worker's sleep. */
  function DoWaken(s: State, t: Tid, k: Waker): State {
    match k
    case ReadWord => if s.futex == -1 then s.(th := s.th[t := SetZero]) else s.(th := s.th - {t})
    case SetZero => s.(futex := 0, th := s.th[t := Wake])
    case Wake => s.(th := s.th - {t}, w := if s.w == Asleep then Decrement else s.w)
  }

  function DoWorker(s: State): State {
    match s.w
    case Decrement => s.(futex := s.futex - 1, w := Top)
    case Top => s.(w := if s.pause then PauseSet else Splice)
    case PauseSet => s.(paused := true, w := PauseWait)
    case PauseWait => if s.pause then s else s.(w := PauseClear)
    case PauseClear => s.(paused := false, w := Splice)
    case Splice => if s.queue == [] then s.(w := CheckStop) else s.(batch := s.queue, queue := [], w := Run)
    case Run =>
      if s.batch == [] then s.(w := CheckStop)
      else s.(ran := s.ran + [s.batch[0]], batch := s.batch[1..])
    case CheckStop => s.(w := if s.stop then SetIdle else CheckEmpty)
    case CheckEmpty => s.(w := if s.queue == [] then ReadFutex else Top)
    case ReadFutex => s.(w := if s.futex == -1 then Wait else Decrement)
    case Wait => s.(w := if s.futex == -1 then Asleep else Decrement)
    case Asleep => s
    case SetIdle => s.(futex := 0, w := Ended)
    case Ended => s
  }

  function Do(s: State, a: Action): State
    requires Enabled(s, a)
  {
    match a
    case Post(t, r) => DoPost(s, t, r)
    case Waken(t) => DoWaken(s, t, s.th[t])
    case Resume => s.(pause := false)
    case Interrupt => s.(w := Wait)
    case Spurious => s.(w := Decrement)
    case Worker => DoWorker(s)
  }

  predicate Init(s: State) { s == State(0, false, false, false, [], [], Decrement, map[], [], []) }

  // --- the invariant --------------------------------------------------------------------

  /** Something the worker must not sleep on has been posted since it last looked. */
  predicate Missed(s: State) {
    || (s.pause && s.w in {PauseClear, Splice, Run, CheckStop, CheckEmpty, ReadFutex, Wait, Asleep})
    || (s.queue != [] && s.w in {Run, CheckStop, CheckEmpty, ReadFutex, Wait, Asleep})
    || (s.stop && s.w in {CheckEmpty, ReadFutex, Wait, Asleep})
  }

  /** A thread is about to read the word, or has read -1. */
  ghost predicate Committed(th: map<Tid, Waker>) {
    exists t {:trigger th[t]} :: t in th && (th[t].ReadWord? || th[t].SetZero?)
  }

  ghost predicate Waking(th: map<Tid, Waker>) { exists t {:trigger th[t]} :: t in th && th[t].Wake? }

  /** The word, the flags and the sleep. */
  ghost predicate SleepOk(s: State) {
    && s.futex <= 0
    && (s.futex == -1 && Missed(s) ==> Committed(s.th))
    && (s.w == Asleep ==> s.futex == -1 || (s.futex == 0 && Waking(s.th)))
    && (s.paused <==> s.w == PauseWait || s.w == PauseClear)
  }

  /** What has run, what is spliced off and what is on the queue make up what was queued. */
  predicate OrderOk(s: State) {
    (s.batch != [] ==> s.w == Run) && s.ran + s.batch + s.queue == s.queued
  }

  ghost predicate Inv(s: State) { SleepOk(s) && OrderOk(s) }

  lemma PostKeeps(s: State, t: Tid, r: Reason)
    requires Inv(s) && t !in s.th
    ensures Inv(DoPost(s, t, r))
  {
    var s' := DoPost(s, t, r);
    assert s'.th[t].ReadWord?;
    if Waking(s.th) {
      var u :| u in s.th && s.th[u].Wake?;
      assert s'.th[u].Wake?;
    }
    if r.Queue? { Assoc(s.ran + s.batch, s.queue, [r.x]); }
  }

  lemma WakenKeeps(s: State, t: Tid)
    requires Inv(s) && t in s.th
    ensures Inv(DoWaken(s, t, s.th[t]))
  {
    var s' := DoWaken(s, t, s.th[t]);
    if s.th[t].SetZero? { assert s'.th[t].Wake?; }
    if s.th[t].ReadWord? && s.futex == -1 { assert s'.th[t].SetZero?; }
    if Committed(s.th) {
      var u :| u in s.th && (s.th[u].ReadWord? || s.th[u].SetZero?);
      assert u != t ==> u in s'.th && s'.th[u] == s.th[u];
    }
    if Waking(s.th) {
      var u :| u in s.th && s.th[u].Wake?;
      assert u != t ==> u in s'.th && s'.th[u] == s.th[u];
    }
  }

  lemma WorkerKeeps(s: State)
    requires Inv(s)
    ensures Inv(DoWorker(s))
  {
    WorkerSleep(s);
    WorkerOrder(s);
  }

  lemma WorkerSleep(s: State)
    requires SleepOk(s)
    ensures SleepOk(DoWorker(s))
  {
    assert DoWorker(s).th == s.th;
  }

  lemma WorkerOrder(s: State)
    requires OrderOk(s)
    ensures OrderOk(DoWorker(s))
  {
    if s.w == Splice && s.queue != [] {
      assert s.ran + s.queue + [] == s.ran + [] + s.queue;
    } else if s.w == Run && s.batch != [] {
      assert s.ran + s.batch == (s.ran + [s.batch[0]]) + s.batch[1..];
    }
  }

  lemma StepInv(s: State, a: Action)
    requires Inv(s) && Enabled(s, a)
    ensures Inv(Do(s, a))
  {
    match a
    case Post(t, r) => PostKeeps(s, t, r);
    case Waken(t) => WakenKeeps(s, t);
    case Worker => WorkerKeeps(s);
    case _ => assert Do(s, a).th == s.th;
  }

  // --- runs -----------------------------------------------------------------------------

  ghost predicate IsRun(tr: seq<State>, acts: seq<Action>) {
    && |tr| == |acts| + 1 && Init(tr[0])
    && forall i {:trigger acts[i]} {:trigger tr[i + 1]} | 0 <= i < |acts| ::
      Enabled(tr[i], acts[i]) && tr[i + 1] == Do(tr[i], acts[i])
  }

  lemma {:induction false} Reachable(tr: seq<State>, acts: seq<Action>, i: nat)
    requires IsRun(tr, acts) && i < |tr|
    ensures Inv(tr[i])
  {
    if i > 0 {
      Reachable(tr, acts, i - 1);
      assert Enabled(tr[i - 1], acts[i - 1]) && tr[i] == Do(tr[i - 1], acts[i - 1]);
      StepInv(tr[i - 1], acts[i - 1]);
    }
  }

  /** Thread `t` is going to wake the worker, unless another gets there first. */
  predicate WillWake(s: State, t: Tid) {
    t in s.th && (((s.th[t].ReadWord? || s.th[t].SetZero?) && s.futex == -1) || (s.th[t].Wake? && s.futex == 0))
  }

  /** No lost wakeup: while the worker sleeps with work, a stop or a pause to see to,
      some thread is still going to wake it.  It never sleeps on a word below -1,
      although stale wakes can take the word there. */
  lemma NoLostWakeup(tr: seq<State>, acts: seq<Action>, i: nat)
    requires IsRun(tr, acts) && i < |tr| && tr[i].w == Asleep
    ensures tr[i].queue != [] || tr[i].stop || tr[i].pause ==>
              exists t {:trigger WillWake(tr[i], t)} :: WillWake(tr[i], t)
    ensures tr[i].futex == -1 || tr[i].futex == 0
  {
    Reachable(tr, acts, i);
    var s := tr[i];
    if s.futex == 0 {
      var t :| t in s.th && s.th[t].Wake?;
      assert WillWake(s, t);
    } else if s.queue != [] || s.stop || s.pause {
      assert Missed(s);
      var t :| t in s.th && (s.th[t].ReadWord? || s.th[t].SetZero?);
      assert WillWake(s, t);
    }
  }

  /** Work is run in the order it was queued, each piece once. */
  lemma RunsInOrder(tr: seq<State>, acts: seq<Action>, i: nat)
    requires IsRun(tr, acts) && i < |tr|
    ensures tr[i].ran <= tr[i].queued && tr[i].ran + tr[i].batch + tr[i].queue == tr[i].queued
  {
    Reachable(tr, acts, i);
    assert tr[i].ran + tr[i].batch + tr[i].queue == tr[i].ran + (tr[i].batch + tr[i].queue);
  }

  /** A pause is asked for at step `p`, the resume of any earlier one having waited
      for PAUSED to be cleared, and no resume follows before state `j`. */
  predicate Pausing(tr: seq<State>, acts: seq<Action>, p: nat, j: nat) {
    && p < j < |tr| && j <= |acts| && acts[p].Post? && acts[p].r == Pause && !tr[p].paused
    && forall k {:trigger acts[k]} | p < k < j :: acts[k] != Resume
  }

  lemma {:induction false} PauseHolds(tr: seq<State>, acts: seq<Action>, p: nat, j: nat)
    requires IsRun(tr, acts) && Pausing(tr, acts, p, j)
    ensures tr[j].pause && (tr[j].paused ==> tr[j].w == PauseWait)
  {
    Reachable(tr, acts, j - 1);
    assert Enabled(tr[j - 1], acts[j - 1]) && tr[j] == Do(tr[j - 1], acts[j - 1]);
    if p + 1 < j { PauseHolds(tr, acts, p, j - 1); }
  }

  /** Once the caller of `urcu_workqueue_pause_worker` has seen PAUSED, the worker runs
      nothing and has no work half done, until the resume. */
  lemma {:induction false} PausedStays(tr: seq<State>, acts: seq<Action>, p: nat, i: nat, j: nat)
    requires IsRun(tr, acts) && Pausing(tr, acts, p, j) && p < i <= j && tr[i].paused
    ensures tr[j].paused && tr[j].ran == tr[i].ran && tr[j].batch == []
  {
    Reachable(tr, acts, j);
    if i < j {
      PausedStays(tr, acts, p, i, j - 1);
      PauseHolds(tr, acts, p, j - 1);
      PausedStep(tr, acts, j - 1);
    }
  }

  lemma PausedStep(tr: seq<State>, acts: seq<Action>, k: nat)
    requires IsRun(tr, acts) && k < |acts| && tr[k].w == PauseWait && tr[k].pause
    ensures tr[k + 1].w == PauseWait && tr[k + 1].paused == tr[k].paused && tr[k + 1].ran == tr[k].ran
  {
    assert Enabled(tr[k], acts[k]) && tr[k + 1] == Do(tr[k], acts[k]);
  }

  predicate IsQueue(a: Action) { a.Post? && a.r.Queue? }

  function Put(a: Action): seq<Work> { if IsQueue(a) then [a.r.x] else [] }

  ghost predicate NoneQueued(acts: seq<Action>, i: nat, j: nat)
    requires j <= |acts|
  {
    forall k {:trigger acts[k]} | i <= k < j :: !IsQueue(acts[k])
  }

  predicate Splices(s: State, a: Action) { a == Worker && s.w == Splice }

  lemma StepQueue(s: State, a: Action)
    requires Enabled(s, a)
    ensures Do(s, a).queue == if Splices(s, a) then [] else s.queue + Put(a)
    ensures Do(s, a).queued == s.queued + Put(a)
  {
  }

  lemma StepOf(tr: seq<State>, acts: seq<Action>, k: nat)
    requires IsRun(tr, acts) && k < |acts|
    ensures tr[k + 1].queue == if Splices(tr[k], acts[k]) then [] else tr[k].queue + Put(acts[k])
    ensures tr[k + 1].queued == tr[k].queued + Put(acts[k])
  {
    assert Enabled(tr[k], acts[k]) && tr[k + 1] == Do(tr[k], acts[k]);
    StepQueue(tr[k], acts[k]);
  }

  /** Nothing is queued, nothing appears on the queue. */
  lemma {:induction false} StaysEmpty(tr: seq<State>, acts: seq<Action>, i: nat, j: nat)
    requires IsRun(tr, acts) && i <= j < |tr| && tr[i].queue == [] && NoneQueued(acts, i, j)
    ensures tr[j].queue == []
  {
    if i < j {
      StaysEmpty(tr, acts, i, j - 1);
      StepOf(tr, acts, j - 1);
    }
  }

  lemma {:induction false} QueuedGrows(tr: seq<State>, acts: seq<Action>, i: nat, j: nat)
    requires IsRun(tr, acts) && i <= j < |tr|
    ensures tr[i].queued <= tr[j].queued
    ensures NoneQueued(acts, i, j) ==> tr[i].queued == tr[j].queued
  {
    if i < j {
      QueuedGrows(tr, acts, i, j - 1);
      StepOf(tr, acts, j - 1);
    }
  }

  /** The step that queued the piece at place `m`. */
  lemma {:induction false} QueuedAt(tr: seq<State>, acts: seq<Action>, i: nat, m: nat) returns (k: nat)
    requires IsRun(tr, acts) && i < |tr| && m < |tr[i].queued|
    ensures k < i && IsQueue(acts[k]) && acts[k].r.x == tr[i].queued[m] && |tr[k].queued| == m
  {
    if i == 0 {
      assert false;
    } else {
      StepOf(tr, acts, i - 1);
      if m < |tr[i - 1].queued| { k := QueuedAt(tr, acts, i - 1, m); } else { k := i - 1; }
    }
  }

  /** Step `p` queues `x`, and no other step does. */
  ghost predicate QueuedOnce(acts: seq<Action>, p: nat, x: Work) {
    && p < |acts| && IsQueue(acts[p]) && acts[p].r.x == x
    && forall k {:trigger acts[k]} | 0 <= k < |acts| && k != p :: !(IsQueue(acts[k]) && acts[k].r.x == x)
  }

  /** A flush waits for all work in flight: once its marker `x` has run, all that was
      queued before it has. */
  lemma FlushWaitsForAll(tr: seq<State>, acts: seq<Action>, p: nat, x: Work, i: nat)
    requires IsRun(tr, acts) && QueuedOnce(acts, p, x) && i < |tr| && x in tr[i].ran
    ensures p < i && tr[p].queued + [x] == tr[p + 1].queued && tr[p + 1].queued <= tr[i].ran
  {
    RunsInOrder(tr, acts, i);
    var m :| 0 <= m < |tr[i].ran| && tr[i].ran[m] == x;
    var k := QueuedAt(tr, acts, i, m);
    assert k == p;
    StepOf(tr, acts, p);
    QueuedGrows(tr, acts, p + 1, i);
    Prefixes(tr[p + 1].queued, tr[i].ran, tr[i].queued);
  }

  lemma Prefixes(a: seq<Work>, b: seq<Work>, c: seq<Work>)
    requires a <= c && b <= c && |a| <= |b|
    ensures a <= b
  {
  }

  /** A caller that queues nothing after a flush, and sees the marker of that flush run,
      finds the queue empty: the assertion of `urcu_workqueue_destroy`. */
  lemma EmptyAfterFlush(tr: seq<State>, acts: seq<Action>, p: nat, x: Work, i: nat, j: nat)
    requires IsRun(tr, acts) && QueuedOnce(acts, p, x) && i <= j < |tr| && x in tr[i].ran
    requires NoneQueued(acts, p + 1, j)
    ensures tr[j].queue == []
  {
    FlushWaitsForAll(tr, acts, p, x, i);
    QueuedGrows(tr, acts, p + 1, i);
    RunsInOrder(tr, acts, i);
    NothingLeft(tr[i].ran, tr[i].batch, tr[i].queue);
    StaysEmpty(tr, acts, i, j);
  }

  lemma NothingLeft(a: seq<Work>, b: seq<Work>, c: seq<Work>)
    requires a + b + c <= a
    ensures b == [] && c == []
  {
  }

  /** The worker leaves the queue empty exactly when all that was ever queued has run. */
  lemma EmptyIffAllRun(tr: seq<State>, acts: seq<Action>, i: nat)
    requires IsRun(tr, acts) && i < |tr| && tr[i].w == Ended
    ensures tr[i].queue == [] <==> tr[i].ran == tr[i].queued
  {
    Reachable(tr, acts, i);
    if tr[i].ran == tr[i].queued { NothingLeft(tr[i].ran, tr[i].batch, tr[i].queue); }
  }

  /** The work queued by steps `i` to `j`. */
  function Posted(acts: seq<Action>, i: nat, j: nat): seq<Work>
    requires i <= j <= |acts|
  {
    if i == j then [] else Posted(acts, i, j - 1) + Put(acts[j - 1])
  }

  /** Step `i` is the worker's last splice before state `j`. */
  ghost predicate LastSplice(tr: seq<State>, acts: seq<Action>, i: nat, j: nat) {
    && |tr| == |acts| + 1 && i < j < |tr| && Splices(tr[i], acts[i])
    && forall k {:trigger acts[k]} | i < k < j :: !Splices(tr[k], acts[k])
  }

  /** What is left on the queue is what was queued since the last splice. */
  lemma {:induction false} LeftSinceSplice(tr: seq<State>, acts: seq<Action>, i: nat, j: nat)
    requires IsRun(tr, acts) && LastSplice(tr, acts, i, j)
    ensures tr[j].queue == Posted(acts, i + 1, j)
  {
    StepOf(tr, acts, j - 1);
    if i + 1 < j { LeftSinceSplice(tr, acts, i, j - 1); }
  }

  /** The assertion of `urcu_workqueue_destroy`, that the queue is empty once the worker
      has ended, holds exactly when nothing was queued after its last splice. */
  lemma EmptyAtEndIff(tr: seq<State>, acts: seq<Action>, i: nat, j: nat)
    requires IsRun(tr, acts) && LastSplice(tr, acts, i, j)
    ensures tr[j].queue == [] <==> NoneQueued(acts, i + 1, j)
  {
    LeftSinceSplice(tr, acts, i, j);
    PostedNone(acts, i + 1, j);
  }

  lemma {:induction false} PostedNone(acts: seq<Action>, i: nat, j: nat)
    requires i <= j <= |acts|
    ensures Posted(acts, i, j) == [] <==> NoneQueued(acts, i, j)
  {
    if i < j { PostedNone(acts, i, j - 1); }
  }

  lemma Extend(tr: seq<State>, acts: seq<Action>, a: Action, last: State, s: State)
    returns (tr': seq<State>, acts': seq<Action>)
    requires IsRun(tr, acts) && tr[|acts|] == last && Enabled(last, a) && s == Do(last, a)
    ensures IsRun(tr', acts') && tr'[|acts'|] == s && acts' == acts + [a]
  {
    tr', acts' := tr + [s], acts + [a];
  }

  /** The worker as it is after its first look at an empty queue. */
  lemma FirstLook() returns (tr: seq<State>, acts: seq<Action>, s: State)
    ensures IsRun(tr, acts) && tr[|acts|] == s
    ensures s == State(-1, false, false, false, [], [], CheckStop, map[], [], [])
  {
    var s0 := State(0, false, false, false, [], [], Decrement, map[], [], []);
    var s1 := s0.(futex := -1, w := Top);
    tr, acts := [s0], [];
    tr, acts := Extend(tr, acts, Worker, s0, s1);
    tr, acts := Extend(tr, acts, Worker, s1, s1.(w := Splice));
    s := s1.(w := CheckStop);
    tr, acts := Extend(tr, acts, Worker, s1.(w := Splice), s);
  }

  /** Without a flush the assertion of `urcu_workqueue_destroy` can fail: work queued
      after the worker's splice and before the stop is left behind. */
  lemma StopLeavesWork() returns (tr: seq<State>, acts: seq<Action>)
    ensures IsRun(tr, acts) && tr[|acts|].w == Ended && tr[|acts|].queue != []
    ensures |acts| >= 4 && acts[|acts| - 4..] == [Post(0, Queue(7)), Post(1, Stop), Worker, Worker]
  {
    var s;
    tr, acts, s := FirstLook();
    var a0 := acts;
    var s1 := s.(queue := s.queue + [7], queued := s.queued + [7], th := s.th[0 := ReadWord]);
    var s2 := s1.(stop := true, th := s1.th[1 := ReadWord]);
    tr, acts := Extend(tr, acts, Post(0, Queue(7)), s, s1);
    tr, acts := Extend(tr, acts, Post(1, Stop), s1, s2);
    tr, acts := Ends(tr, acts, s2);
    assert acts == a0 + [Post(0, Queue(7)), Post(1, Stop), Worker, Worker];
  }

  lemma Ends(tr: seq<State>, acts: seq<Action>, s: State) returns (tr': seq<State>, acts': seq<Action>)
    requires IsRun(tr, acts) && tr[|acts|] == s && s.w == CheckStop && s.stop
    ensures IsRun(tr', acts') && tr'[|acts'|] == s.(futex := 0, w := Ended) && acts' == acts + [Worker] + [Worker]
  {
    tr', acts' := Extend(tr, acts, Worker, s, s.(w := SetIdle));
    tr', acts' := Extend(tr', acts', Worker, s.(w := SetIdle), s.(futex := 0, w := Ended));
  }

  /** A stale wake takes the word below -1: the worker is woken by a thread that had set
      the word to zero for an earlier sleep, and decrements it once more. */
  lemma WordBelowMinusOne() returns (tr: seq<State>, acts: seq<Action>)
    ensures IsRun(tr, acts) && tr[|acts|].futex == -2
  {
    var s0;
    tr, acts, s0 := FirstLook();
    var s1 := s0.(pause := true, th := s0.th[0 := ReadWord]);
    var s2 := s1.(th := s1.th[0 := SetZero], pause := false);
    var s3 := s2.(futex := 0, th := s2.th[0 := Wake]);
    tr, acts := Extend(tr, acts, Post(0, Pause), s0, s1);
    tr, acts := Extend(tr, acts, Waken(0), s1, s1.(th := s1.th[0 := SetZero]));
    tr, acts := Extend(tr, acts, Resume, s1.(th := s1.th[0 := SetZero]), s2);
    tr, acts := Extend(tr, acts, Waken(0), s2, s3);
    tr, acts := SleepsAgain(tr, acts, s3);
  }

  lemma SleepsAgain(tr: seq<State>, acts: seq<Action>, s: State) returns (tr': seq<State>, acts': seq<Action>)
    requires IsRun(tr, acts) && tr[|acts|] == s
    requires s.futex == 0 && s.w == CheckStop && !s.stop && !s.pause && s.queue == [] && 0 in s.th && s.th[0].Wake?
    ensures IsRun(tr', acts') && tr'[|acts'|].futex == -2
  {
    var d := s.(w := Decrement);
    var t := s.(futex := -1, w := Top);
    tr', acts' := Extend(tr, acts, Worker, s, s.(w := CheckEmpty));
    tr', acts' := Extend(tr', acts', Worker, s.(w := CheckEmpty), s.(w := ReadFutex));
    tr', acts' := Extend(tr', acts', Worker, s.(w := ReadFutex), d);
    tr', acts' := Extend(tr', acts', Worker, d, t);
    tr', acts' := SleepsOnce(tr', acts', t);
  }

  lemma SleepsOnce(tr: seq<State>, acts: seq<Action>, t: State) returns (tr': seq<State>, acts': seq<Action>)
    requires IsRun(tr, acts) && tr[|acts|] == t
    requires t.futex == -1 && t.w == Top && !t.stop && !t.pause && t.queue == [] && 0 in t.th && t.th[0].Wake?
    ensures IsRun(tr', acts') && tr'[|acts'|].futex == -2
  {
    tr', acts' := Extend(tr, acts, Worker, t, t.(w := Splice));
    tr', acts' := Extend(tr', acts', Worker, t.(w := Splice), t.(w := CheckStop));
    tr', acts' := Extend(tr', acts', Worker, t.(w := CheckStop), t.(w := CheckEmpty));
    tr', acts' := Extend(tr', acts', Worker, t.(w := CheckEmpty), t.(w := ReadFutex));
    tr', acts' := Extend(tr', acts', Worker, t.(w := ReadFutex), t.(w := Wait));
    tr', acts' := Extend(tr', acts', Worker, t.(w := Wait), t.(w := Asleep));
    var u := t.(w := Decrement, th := t.th - {0});
    tr', acts' := Extend(tr', acts', Waken(0), t.(w := Asleep), u);
    tr', acts' := Extend(tr', acts', Worker, u, u.(futex := -2, w := Top));
  }
}
