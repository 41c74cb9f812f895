/** Batched `synchronize_rcu`: callers push themselves on a wait-free stack; whoever
    pushed on an empty stack leads, takes all the others off the stack under the
    grace-period lock, waits for one grace period for all of them, and wakes them.
    One action is one shared access; a push is an exchange of the head followed by a
    store of the link. */
module WaitBatch {

  type Cid = nat
  type Sid = nat

  datatype Ptr = End | To(c: Cid)

  /** A link word: NULL until the pusher has stored it. */
  datatype Nx = Null | Link(p: Ptr)

  /** WAITING is no bit set. */
  datatype Word = Word(wakeup: bool, running: bool, teardown: bool)

  const WAITING: Word := Word(false, false, false)

  /** A call of `synchronize_rcu`.  `rest` (history) are the nodes of the batch that
      the leader has still to look at, from its pointer on. */
  datatype Pc =
    | Push
    | StoreNext(was: Ptr)
    // leader
    | SetRunning
    | WantLock
    | HasLock
    | GpBegin(rest: seq<Cid>)
    | InGp(rest: seq<Cid>, waitfor: set<Sid>)
    | Unlock(rest: seq<Cid>)
    | WkNext(rest: seq<Cid>, iter: Ptr)
    | WkCheck(rest: seq<Cid>, node: Cid, n: Ptr)
    | WkSet(rest: seq<Cid>, node: Cid, n: Ptr)
    | WkRead(rest: seq<Cid>, node: Cid, n: Ptr)
    | WkFutex(rest: seq<Cid>, node: Cid, n: Ptr)
    | WkOr(rest: seq<Cid>, node: Cid, n: Ptr)
    // follower
    | Spin
    | FutexWait
    | Asleep
    | OrRunning
    | WaitTeardown

  /** Where a wait node is (history). */
  datatype Place = Nowhere | OnStack | InBatch(leader: Cid) | Out

  /** `owed` (history): the read sections in progress when the call was made. */
  datatype Caller = Caller(pc: Pc, next: Nx, word: Word, at: Place, owed: set<Sid>)

  /** `calls` are the calls in progress; their wait nodes live on their stacks, so a
      call that has returned is memory that must not be touched.  `open` are the read
      sections in progress and `begun` all that ever began. */
  datatype State = State(
    head: Ptr, stack: seq<Cid>, calls: map<Cid, Caller>, lock: Ptr, open: set<Sid>, begun: set<Sid>)

  datatype Action =
    | SectionBegin(x: Sid) | SectionEnd(x: Sid)
    | Call(c: Cid) | Exchange(c: Cid) | Store(c: Cid)
    | MarkRunning(c: Cid) | Lock(c: Cid) | PopAll(c: Cid) | Begin(c: Cid) | EndGp(c: Cid) | Release(c: Cid)
    | ReadNext(c: Cid) | Check(c: Cid) | SetWakeup(c: Cid)
    | ReadRunning(c: Cid) | FutexWake(c: Cid) | SetTeardown(c: Cid)
    | ReadState(c: Cid) | GiveUp(c: Cid) | DoWait(c: Cid) | Interrupt(c: Cid) | SetRun(c: Cid)
    | Return(c: Cid)

  predicate Is(s: State, c: Cid) { c in s.calls }

  predicate Enabled(s: State, a: Action) {
    match a
    case SectionBegin(x) => x !in s.begun
    case SectionEnd(x) => x in s.open
    case Call(c) => c !in s.calls
    case Exchange(c) => Is(s, c) && s.calls[c].pc.Push?
    case Store(c) => Is(s, c) && s.calls[c].pc.StoreNext?
    case MarkRunning(c) => Is(s, c) && s.calls[c].pc.SetRunning?
    case Lock(c) => Is(s, c) && s.calls[c].pc.WantLock? && s.lock.End?
    case PopAll(c) => Is(s, c) && s.calls[c].pc.HasLock?
    case Begin(c) => Is(s, c) && s.calls[c].pc.GpBegin?
    case EndGp(c) => Is(s, c) && s.calls[c].pc.InGp? && s.calls[c].pc.waitfor !! s.open
    case Release(c) => Is(s, c) && s.calls[c].pc.Unlock?
    case ReadNext(c) =>
      && Is(s, c) && s.calls[c].pc.WkNext? && s.calls[c].pc.iter.To?
      && (Is(s, s.calls[c].pc.iter.c) ==> s.calls[s.calls[c].pc.iter.c].next.Link?)
    case Check(c) => Is(s, c) && s.calls[c].pc.WkCheck?
    case SetWakeup(c) => Is(s, c) && s.calls[c].pc.WkSet?
    case ReadRunning(c) => Is(s, c) && s.calls[c].pc.WkRead?
    case FutexWake(c) => Is(s, c) && s.calls[c].pc.WkFutex?
    case SetTeardown(c) => Is(s, c) && s.calls[c].pc.WkOr?
    case ReadState(c) => Is(s, c) && s.calls[c].pc.Spin?
    case GiveUp(c) => Is(s, c) && s.calls[c].pc.Spin? && s.calls[c].word == WAITING
    case DoWait(c) => Is(s, c) && s.calls[c].pc.FutexWait?
    case Interrupt(c) => Is(s, c) && s.calls[c].pc.Asleep?
    case SetRun(c) => Is(s, c) && s.calls[c].pc.OrRunning?
    case Return(c) =>
      && Is(s, c)
      && (|| (s.calls[c].pc.WaitTeardown? && s.calls[c].word.teardown)
          || (s.calls[c].pc.WkNext? && s.calls[c].pc.iter.End?))
  }

  function Put(s: State, c: Cid, x: Caller): State { s.(calls := s.calls[c := x]) }

  function Go(s: State, c: Cid, pc: Pc): State
    requires c in s.calls
  {
    Put(s, c, s.calls[c].(pc := pc))
  }

  /** A write to another call's node; a node that is gone is not written. */
  function Touch(s: State, c: Cid, w: Word, at: Place): (t: State)
    ensures t.calls.Keys == s.calls.Keys
  {
    if c in s.calls then Put(s, c, s.calls[c].(word := w, at := at)) else s
  }

  function WordOf(s: State, c: Cid): Word { if c in s.calls then s.calls[c].word else WAITING }

  function PlaceOf(s: State, c: Cid): Place { if c in s.calls then s.calls[c].at else Out }

  function NextOf(s: State, c: Cid): Ptr {
    if c in s.calls && s.calls[c].next.Link? then s.calls[c].next.p else End
  }

  function Rest(q: seq<Cid>): seq<Cid> { if q == [] then [] else q[1..] }

  function Taken(calls: map<Cid, Caller>, leader: Cid): map<Cid, Caller> {
    map c | c in calls :: if calls[c].at == OnStack then calls[c].(at := InBatch(leader)) else calls[c]
  }

  function Do(s: State, a: Action): State
    requires Enabled(s, a)
  {
    match a
    case SectionBegin(x) => s.(open := s.open + {x}, begun := s.begun + {x})
    case SectionEnd(x) => s.(open := s.open - {x})
    case Call(c) => Put(s, c, Caller(Push, Null, WAITING, Nowhere, s.open))
    case Exchange(c) =>
      Put(s, c, s.calls[c].(pc := StoreNext(s.head), at := OnStack)).(head := To(c), stack := [c] + s.stack)
    case Store(c) =>
      var was := s.calls[c].pc.was;
      Put(s, c, s.calls[c].(pc := if was.End? then SetRunning else Spin, next := Link(was)))
    case MarkRunning(c) => Put(s, c, s.calls[c].(pc := WantLock, word := Word(false, true, false)))
    case Lock(c) => Go(s, c, HasLock).(lock := To(c))
    case PopAll(c) =>
      var s1 := s.(calls := Taken(s.calls, c), head := End, stack := []);
      Go(s1, c, GpBegin(s.stack))
    case Begin(c) => Go(s, c, InGp(s.calls[c].pc.rest, s.open))
    case EndGp(c) => Go(s, c, Unlock(s.calls[c].pc.rest))
    case Release(c) =>
      var rest := s.calls[c].pc.rest;
      Go(s, c, WkNext(rest, if rest == [] then End else To(rest[0]))).(lock := End)
    case ReadNext(c) =>
      var pc := s.calls[c].pc;
      Go(s, c, WkCheck(pc.rest, pc.iter.c, NextOf(s, pc.iter.c)))
    case Check(c) =>
      var pc := s.calls[c].pc;
      if WordOf(s, pc.node).running then
        var s1 := Touch(s, pc.node, WordOf(s, pc.node), Out);
        Go(s1, c, WkNext(Rest(pc.rest), pc.n))
      else Go(s, c, WkSet(pc.rest, pc.node, pc.n))
    case SetWakeup(c) =>
      var pc := s.calls[c].pc;
      var s1 := Touch(s, pc.node, Word(true, false, false), PlaceOf(s, pc.node));
      Go(s1, c, WkRead(pc.rest, pc.node, pc.n))
    case ReadRunning(c) =>
      var pc := s.calls[c].pc;
      Go(s, c, if WordOf(s, pc.node).running then WkOr(pc.rest, pc.node, pc.n) else WkFutex(pc.rest, pc.node, pc.n))
    case FutexWake(c) =>
      var pc := s.calls[c].pc;
      var s1 := Go(s, c, WkOr(pc.rest, pc.node, pc.n));
      if pc.node in s1.calls && s1.calls[pc.node].pc.Asleep? then Go(s1, pc.node, OrRunning) else s1
    case SetTeardown(c) =>
      var pc := s.calls[c].pc;
      var s1 := Touch(s, pc.node, WordOf(s, pc.node).(teardown := true), Out);
      Go(s1, c, WkNext(Rest(pc.rest), pc.n))
    case ReadState(c) => Go(s, c, if s.calls[c].word == WAITING then Spin else OrRunning)
    case GiveUp(c) => Go(s, c, FutexWait)
    case DoWait(c) => Go(s, c, if s.calls[c].word == WAITING then Asleep else OrRunning)
    case Interrupt(c) => Go(s, c, FutexWait)
    case SetRun(c) => Put(s, c, s.calls[c].(pc := WaitTeardown, word := s.calls[c].word.(running := true)))
    case Return(c) => s.(calls := s.calls - {c})
  }

  predicate Init(s: State) { s == State(End, [], map[], End, {}, {}) }

  // --- the invariant --------------------------------------------------------------------

  function First(q: seq<Cid>): Ptr { if q == [] then End else To(q[0]) }

  /** The node below on the stack: what the link says, or what its pusher will store. */
  function Below(x: Caller): Ptr {
    if x.next.Link? then x.next.p else if x.pc.StoreNext? then x.pc.was else End
  }

  predicate Linked(s: State, c: Cid, p: Ptr) { c in s.calls && Below(s.calls[c]) == p }

  /** `q` is linked, up to links that their pushers have still to store. */
  ghost predicate Chain(s: State, q: seq<Cid>) {
    && (forall k {:trigger q[k]} | 0 <= k < |q| :: Linked(s, q[k], First(q[k + 1..])))
    && (forall j, k {:trigger q[j], q[k]} | 0 <= j < k < |q| :: q[j] != q[k])
  }

  /** A leader that has pushed and not yet taken the stack. */
  predicate Leads(pc: Pc) { pc == StoreNext(End) || pc.SetRunning? || pc.WantLock? || pc.HasLock? }

  predicate Follows(pc: Pc) {
    (pc.StoreNext? && pc.was.To?) || pc.Spin? || pc.FutexWait? || pc.Asleep? || pc.OrRunning? || pc.WaitTeardown?
  }

  /** A leader whose node the waker is looking at. */
  predicate AtNode(pc: Pc) { pc.WkCheck? || pc.WkSet? || pc.WkRead? || pc.WkFutex? || pc.WkOr? }

  predicate HasRest(pc: Pc) { pc.GpBegin? || pc.InGp? || pc.Unlock? || pc.WkNext? || AtNode(pc) }

  /** The leader has waited for its grace period. */
  predicate Waited(pc: Pc) { HasRest(pc) && !pc.GpBegin? && !pc.InGp? }

  predicate Holds(pc: Pc) { pc.HasLock? || pc.GpBegin? || pc.InGp? || pc.Unlock? }

  /** The leader is between waking node `c` and letting go of it. */
  predicate Waking(pc: Pc, c: Cid) { (pc.WkRead? || pc.WkFutex? || pc.WkOr?) && pc.node == c }

  predicate InRest(s: State, l: Cid, c: Cid) { l in s.calls && HasRest(s.calls[l].pc) && c in s.calls[l].pc.rest }

  /** What a leader knows of node `c`. */
  ghost predicate MemberOk(s: State, l: Cid, c: Cid) {
    InRest(s, l, c) <==> c in s.calls && s.calls[c].at == InBatch(l)
  }

  ghost predicate LeaderOk(s: State, c: Cid) {
    && c in s.calls
    && var pc := s.calls[c].pc;
      (HasRest(pc) ==>
        && Chain(s, pc.rest)
        && (pc.WkNext? ==> pc.iter == First(pc.rest))
        && (AtNode(pc) ==>
              pc.rest != [] && pc.node == pc.rest[0] && pc.n == First(pc.rest[1..]) && NodeOk(s, c, pc.node))
        && s.calls[c].word == Word(false, true, false)
        && (s.calls[c].at == InBatch(c) || (s.calls[c].at == Out && (pc.WkNext? || AtNode(pc)))))
  }

  /** The node that leader `l` is looking at. */
  predicate NodeOk(s: State, l: Cid, c: Cid) {
    && l in s.calls && c in s.calls
    && var pc := s.calls[l].pc;
      && s.calls[c].next.Link?
      && (!pc.WkCheck? ==> c != l)
      && (pc.WkRead? || pc.WkFutex? || pc.WkOr? ==> s.calls[c].word.wakeup)
      && (pc.WkOr? ==> !s.calls[c].pc.Asleep?)
  }

  /** A call's program point against its own node. */
  predicate SelfOk(x: Caller) {
    && (x.pc.Push? <==> x.at == Nowhere)
    && (x.pc.Push? || x.pc.StoreNext? <==> x.next == Null)
    && (x.pc.Push? || Leads(x.pc) || Follows(x.pc) || HasRest(x.pc))
    && (Leads(x.pc) ==> x.at == OnStack)
    && (x.pc.StoreNext? || x.pc.Push? || x.pc.SetRunning? ==> x.word == WAITING)
    && (x.pc.WantLock? || x.pc.HasLock? ==> x.word == Word(false, true, false))
    && (x.at == OnStack && Follows(x.pc) ==> x.word == WAITING)
    && (Follows(x.pc) && x.word != WAITING ==> x.word.wakeup)
    && (Follows(x.pc) && x.at == Out ==> x.word.teardown && !x.pc.Asleep?)
    && (x.at == OnStack ==> Leads(x.pc) || Follows(x.pc))
    && (x.pc.OrRunning? || x.pc.WaitTeardown? ==> x.word.wakeup)
    && (x.pc.WaitTeardown? <==> Follows(x.pc) && x.word.running)
    && (x.word.teardown ==> x.at == Out)
  }

  /** A node taken off the stack against its leader. */
  predicate BatchOk(s: State, l: Cid, c: Cid) {
    c in s.calls && s.calls[c].at == InBatch(l) ==>
      && l in s.calls
      && var x := s.calls[c]; var pc := s.calls[l].pc;
        && HasRest(pc)
        && (c != l ==> Follows(x.pc) && (x.word == WAITING || Waking(pc, c)))
        && (c != l && x.pc.Asleep? && x.word != WAITING ==> !pc.WkOr?)
        && (Waited(pc) ==> x.owed !! s.open)
        && (pc.InGp? ==> x.owed * s.open <= pc.waitfor)
  }

  predicate CallOk(s: State, c: Cid) {
    && c in s.calls
    && var x := s.calls[c];
      && SelfOk(x)
      && (x.at == OnStack <==> c in s.stack)
      && (Leads(x.pc) ==> s.stack != [] && c == s.stack[|s.stack| - 1])
      && (x.word != WAITING && Follows(x.pc) ==> x.owed !! s.open)
      && (Waited(x.pc) ==> x.owed !! s.open)
      && (Holds(x.pc) <==> s.lock == To(c))
      && x.owed <= s.begun
  }

  predicate StackOk(s: State) {
    && s.head == First(s.stack)
    && (s.stack != [] ==> s.stack[|s.stack| - 1] in s.calls && Leads(s.calls[s.stack[|s.stack| - 1]].pc))
    && (s.lock.To? ==> s.lock.c in s.calls)
    && s.open <= s.begun
  }

  ghost predicate Inv(s: State) {
    && StackOk(s) && Chain(s, s.stack)
    && (forall c {:trigger CallOk(s, c)} | c in s.calls :: CallOk(s, c))
    && (forall c {:trigger LeaderOk(s, c)} | c in s.calls :: LeaderOk(s, c))
    && (forall l, c {:trigger MemberOk(s, l, c)} :: MemberOk(s, l, c))
    && (forall l, c {:trigger BatchOk(s, l, c)} :: BatchOk(s, l, c))
  }

  // --- every step keeps it --------------------------------------------------------------

  lemma ChainKept(s: State, t: State, q: seq<Cid>)
    requires Chain(s, q)
    requires forall c | c in q :: c in t.calls && (c in s.calls ==> Below(s.calls[c]) == Below(t.calls[c]))
    ensures Chain(t, q)
  {
    forall k {:trigger q[k]} | 0 <= k < |q| ensures Linked(t, q[k], First(q[k + 1..])) {
      assert Linked(s, q[k], First(q[k + 1..]));
    }
  }

  lemma ChainRest(s: State, q: seq<Cid>)
    requires Chain(s, q) && q != []
    ensures Chain(s, q[1..]) && q[0] !in q[1..]
    ensures q[0] in s.calls && Below(s.calls[q[0]]) == First(q[1..])
  {
    assert Linked(s, q[0], First(q[0 + 1..]));
    var r := q[1..];
    forall k {:trigger r[k]} | 0 <= k < |r| ensures Linked(s, r[k], First(r[k + 1..])) {
      assert r[k] == q[k + 1] && r[k + 1..] == q[k + 2..];
      assert Linked(s, q[k + 1], First(q[(k + 1) + 1..]));
    }
  }

  predicate Walks(pc: Pc) { pc.WkNext? || AtNode(pc) }

  /** Call `c` moves on by itself: its record becomes `y`, its node stays where it is,
      and what its batch may rely on is kept. */
  predicate Solo(s: State, c: Cid, y: Caller) {
    && c in s.calls
    && var x := s.calls[c];
      && y.at == x.at && y.owed == x.owed && Below(y) == Below(x) && (x.next.Link? ==> y.next.Link?)
      && SelfOk(y)
      && (HasRest(y.pc) <==> HasRest(x.pc)) && (HasRest(x.pc) ==> y.pc.rest == x.pc.rest && y.word == x.word)
      && (Leads(y.pc) <==> Leads(x.pc)) && (Follows(y.pc) <==> Follows(x.pc)) && (Holds(y.pc) <==> Holds(x.pc))
      && (x.word == WAITING && Follows(x.pc) ==> y.word == WAITING)
      && (x.word.wakeup ==> y.word.wakeup)
      && (y.pc.Asleep? ==> x.pc.Asleep? || y.word == WAITING)
      && (Waited(y.pc) ==> Waited(x.pc) || (x.pc.InGp? && x.pc.waitfor !! s.open))
      && (y.pc.InGp? ==> y.pc.waitfor == s.open)
      && (Walks(y.pc) <==> Walks(x.pc))
  }

  /** Where a walking leader may go. */
  predicate Stride(s: State, c: Cid, y: Pc) {
    && c in s.calls
    && var x := s.calls[c].pc;
      && (Walks(y) <==> Walks(x))
      && (y.WkNext? ==> Walks(x) && y.iter == First(x.rest))
      && (AtNode(y) ==> Walks(x) && AtFirst(s, c, x.rest, y))
      && (Walks(x) && x.rest != [] && Waking(x, x.rest[0]) ==> Waking(y, x.rest[0]))
  }

  predicate AtFirst(s: State, l: Cid, rest: seq<Cid>, y: Pc)
    requires AtNode(y)
  {
    && rest != [] && y.node == rest[0] && y.n == First(rest[1..])
    && y.node in s.calls && s.calls[y.node].next.Link?
    && (y.WkCheck? || y.node != l)
    && (y.WkRead? || y.WkFutex? || y.WkOr? ==> s.calls[y.node].word.wakeup)
    && (y.WkOr? ==> !s.calls[y.node].pc.Asleep?)
  }

  lemma SoloCalls(s: State, c: Cid, y: Caller)
    requires Inv(s) && Solo(s, c, y)
    ensures forall x {:trigger CallOk(Put(s, c, y), x)} | x in s.calls :: CallOk(Put(s, c, y), x)
  {
    var t := Put(s, c, y);
    assert CallOk(s, c) && LeaderOk(s, c) && BatchOk(s, c, c);
    forall x {:trigger CallOk(t, x)} | x in s.calls ensures CallOk(t, x) {
      assert CallOk(s, x);
    }
  }

  lemma SoloBatch(s: State, c: Cid, y: Caller, l: Cid, n: Cid)
    requires Inv(s) && Solo(s, c, y) && Stride(s, c, y.pc)
    ensures MemberOk(Put(s, c, y), l, n) && BatchOk(Put(s, c, y), l, n)
  {
    assert CallOk(s, c) && LeaderOk(s, c) && BatchOk(s, l, n) && MemberOk(s, l, n) && LeaderOk(s, c);
  }

  lemma SoloLeader(s: State, c: Cid, y: Caller, l: Cid)
    requires Inv(s) && Solo(s, c, y) && Stride(s, c, y.pc) && l in s.calls
    ensures LeaderOk(Put(s, c, y), l)
  {
    assert CallOk(s, c) && LeaderOk(s, c) && LeaderOk(s, l);
    if HasRest(s.calls[l].pc) { ChainKept(s, Put(s, c, y), s.calls[l].pc.rest); }
  }

  lemma SoloKeeps(s: State, c: Cid, y: Caller)
    requires Inv(s) && Solo(s, c, y) && Stride(s, c, y.pc)
    ensures Inv(Put(s, c, y))
  {
    var t := Put(s, c, y);
    assert CallOk(s, c);
    ChainKept(s, t, s.stack);
    SoloCalls(s, c, y);
    forall l {:trigger LeaderOk(t, l)} | l in t.calls ensures LeaderOk(t, l) { SoloLeader(s, c, y, l); }
    forall l, n ensures MemberOk(t, l, n) && BatchOk(t, l, n) { SoloBatch(s, c, y, l, n); }
  }

  // Followers.

  lemma SpinEnds(s: State, c: Cid, pc: Pc)
    requires Inv(s) && c in s.calls && s.calls[c].pc.Spin?
    requires pc.FutexWait? || (pc.OrRunning? && s.calls[c].word != WAITING)
    ensures Inv(Put(s, c, s.calls[c].(pc := pc)))
  {
    assert CallOk(s, c);
    SoloKeeps(s, c, s.calls[c].(pc := pc));
  }

  lemma WaitStarts(s: State, c: Cid)
    requires Inv(s) && c in s.calls && s.calls[c].pc.FutexWait? && s.calls[c].word == WAITING
    ensures Inv(Put(s, c, s.calls[c].(pc := Asleep)))
  {
    assert CallOk(s, c);
    SoloKeeps(s, c, s.calls[c].(pc := Asleep));
  }

  lemma Interrupted(s: State, c: Cid)
    requires Inv(s) && c in s.calls && s.calls[c].pc.Asleep?
    ensures Inv(Put(s, c, s.calls[c].(pc := FutexWait)))
  {
    assert CallOk(s, c);
    SoloKeeps(s, c, s.calls[c].(pc := FutexWait));
  }

  lemma WaitEnds(s: State, c: Cid)
    requires Inv(s) && c in s.calls && (s.calls[c].pc.FutexWait? || s.calls[c].pc.Asleep?) && s.calls[c].word != WAITING
    ensures Inv(Put(s, c, s.calls[c].(pc := OrRunning)))
  {
    assert CallOk(s, c);
    SoloKeeps(s, c, s.calls[c].(pc := OrRunning));
  }

  lemma RunningSet(s: State, c: Cid)
    requires Inv(s) && c in s.calls && s.calls[c].pc.OrRunning?
    ensures Inv(Put(s, c, s.calls[c].(pc := WaitTeardown, word := s.calls[c].word.(running := true))))
  {
    assert CallOk(s, c);
    SoloKeeps(s, c, s.calls[c].(pc := WaitTeardown, word := s.calls[c].word.(running := true)));
  }

  // Callers before their batch is taken.

  lemma LinkStored(s: State, c: Cid, y: Caller)
    requires Inv(s) && c in s.calls && s.calls[c].pc.StoreNext?
    requires var pc := if s.calls[c].pc.was.End? then SetRunning else Spin;
      y == s.calls[c].(pc := pc, next := Link(s.calls[c].pc.was))
    ensures Inv(Put(s, c, y))
  {
    assert CallOk(s, c);
    SoloKeeps(s, c, y);
  }

  lemma LeaderRuns(s: State, c: Cid, y: Caller)
    requires Inv(s) && c in s.calls && s.calls[c].pc.SetRunning?
    requires y == s.calls[c].(pc := WantLock, word := Word(false, true, false))
    ensures Inv(Put(s, c, y))
  {
    assert CallOk(s, c);
    SoloKeeps(s, c, y);
  }

  // Leaders.

  lemma GpBegins(s: State, c: Cid)
    requires Inv(s) && c in s.calls && s.calls[c].pc.GpBegin?
    ensures Inv(Put(s, c, s.calls[c].(pc := InGp(s.calls[c].pc.rest, s.open))))
  {
    assert CallOk(s, c) && LeaderOk(s, c);
    SoloKeeps(s, c, s.calls[c].(pc := InGp(s.calls[c].pc.rest, s.open)));
  }

  lemma GpEnds(s: State, c: Cid)
    requires Inv(s) && c in s.calls && s.calls[c].pc.InGp? && s.calls[c].pc.waitfor !! s.open
    ensures Inv(Put(s, c, s.calls[c].(pc := Unlock(s.calls[c].pc.rest))))
  {
    assert CallOk(s, c) && LeaderOk(s, c);
    SoloKeeps(s, c, s.calls[c].(pc := Unlock(s.calls[c].pc.rest)));
  }

  /** A walking leader moves to `pc`, still looking at the same node or just arriving. */
  lemma LeaderWalks(s: State, c: Cid, pc: Pc)
    requires Inv(s) && c in s.calls && Walks(s.calls[c].pc) && AtNode(pc)
    requires pc.rest == s.calls[c].pc.rest && AtFirst(s, c, pc.rest, pc)
    requires Waking(s.calls[c].pc, pc.node) ==> Waking(pc, pc.node)
    ensures Inv(Put(s, c, s.calls[c].(pc := pc)))
  {
    assert CallOk(s, c) && LeaderOk(s, c);
    SoloKeeps(s, c, s.calls[c].(pc := pc));
  }

  lemma Looked(s: State, c: Cid)
    requires Inv(s) && c in s.calls && AtNode(s.calls[c].pc)
    ensures var pc := s.calls[c].pc;
      && pc.rest != [] && pc.node == pc.rest[0] && pc.n == First(pc.rest[1..])
      && pc.node in s.calls && s.calls[pc.node].at == InBatch(c)
      && CallOk(s, c) && CallOk(s, pc.node) && BatchOk(s, c, pc.node) && NodeOk(s, c, pc.node)
      && s.calls[c].word == Word(false, true, false)
  {
    var pc := s.calls[c].pc;
    assert LeaderOk(s, c) && CallOk(s, c);
    assert InRest(s, c, pc.node);
    assert MemberOk(s, c, pc.node) && CallOk(s, pc.node) && BatchOk(s, c, pc.node);
  }

  lemma LookedRest(s: State, c: Cid)
    requires Inv(s) && c in s.calls && AtNode(s.calls[c].pc)
    ensures var pc := s.calls[c].pc;
      pc.rest != [] && Chain(s, pc.rest[1..]) && pc.rest[0] == pc.node && pc.node !in pc.rest[1..]
  {
    assert LeaderOk(s, c);
    ChainRest(s, s.calls[c].pc.rest);
  }

  /** Only a leader's own node is found running. */
  lemma SkipsItself(s: State, c: Cid)
    requires Inv(s) && c in s.calls && s.calls[c].pc.WkCheck?
    ensures s.calls[c].pc.node in s.calls
    ensures s.calls[s.calls[c].pc.node].word.running <==> s.calls[c].pc.node == c
    ensures s.calls[c].pc.node != c ==> s.calls[s.calls[c].pc.node].word == WAITING
  {
    Looked(s, c);
  }

  lemma RunningSeen(s: State, c: Cid)
    requires Inv(s) && c in s.calls && (s.calls[c].pc.WkRead? || s.calls[c].pc.WkFutex?)
    ensures var pc := s.calls[c].pc; AtFirst(s, c, pc.rest, WkFutex(pc.rest, pc.node, pc.n))
    ensures var pc := s.calls[c].pc;
      s.calls[pc.node].word.running || !s.calls[pc.node].pc.Asleep? ==>
        AtFirst(s, c, pc.rest, WkOr(pc.rest, pc.node, pc.n))
  {
    Looked(s, c);
  }

  // The lock.

  lemma Locked(s: State, c: Cid, t: State)
    requires Inv(s) && c in s.calls && s.calls[c].pc.WantLock? && s.lock.End?
    requires t == Put(s, c, s.calls[c].(pc := HasLock)).(lock := To(c))
    ensures Inv(t)
  {
    assert CallOk(s, c);
    ChainKept(s, t, s.stack);
    forall x {:trigger CallOk(t, x)} | x in t.calls ensures CallOk(t, x) { assert CallOk(s, x); }
    forall l {:trigger LeaderOk(t, l)} | l in t.calls ensures LeaderOk(t, l) {
      assert LeaderOk(s, l);
      if HasRest(s.calls[l].pc) { ChainKept(s, t, s.calls[l].pc.rest); }
    }
    forall l, n ensures MemberOk(t, l, n) && BatchOk(t, l, n) { assert MemberOk(s, l, n) && BatchOk(s, l, n); }
  }

  lemma ReleasedBatch(s: State, c: Cid, t: State, l: Cid, m: Cid)
    requires Inv(s) && c in s.calls && s.calls[c].pc.Unlock?
    requires t == Put(s, c, s.calls[c].(pc := WkNext(s.calls[c].pc.rest, First(s.calls[c].pc.rest)))).(lock := End)
    ensures MemberOk(t, l, m) && BatchOk(t, l, m)
  {
    assert CallOk(s, c) && LeaderOk(s, c);
    assert MemberOk(s, l, m) && BatchOk(s, l, m);
  }

  lemma ReleasedLeader(s: State, c: Cid, t: State, l: Cid)
    requires Inv(s) && c in s.calls && s.calls[c].pc.Unlock?
    requires t == Put(s, c, s.calls[c].(pc := WkNext(s.calls[c].pc.rest, First(s.calls[c].pc.rest)))).(lock := End)
    requires l in t.calls
    ensures LeaderOk(t, l)
  {
    assert CallOk(s, c) && LeaderOk(s, c);
    assert LeaderOk(s, l);
    if HasRest(s.calls[l].pc) { ChainKept(s, t, s.calls[l].pc.rest); }
  }

  lemma Released(s: State, c: Cid, t: State)
    requires Inv(s) && c in s.calls && s.calls[c].pc.Unlock?
    requires t == Put(s, c, s.calls[c].(pc := WkNext(s.calls[c].pc.rest, First(s.calls[c].pc.rest)))).(lock := End)
    ensures Inv(t)
  {
    assert CallOk(s, c) && LeaderOk(s, c);
    ChainKept(s, t, s.stack);
    forall x {:trigger CallOk(t, x)} | x in t.calls ensures CallOk(t, x) { assert CallOk(s, x); }
    forall l {:trigger LeaderOk(t, l)} | l in t.calls ensures LeaderOk(t, l) { ReleasedLeader(s, c, t, l); }
    forall l, m ensures MemberOk(t, l, m) && BatchOk(t, l, m) { ReleasedBatch(s, c, t, l, m); }
  }

  // The waker writes the node it is looking at.

  /** The store of WAKEUP to the word of `n`. */
  function Wakes(s: State, c: Cid, n: Cid): State
    requires c in s.calls && s.calls[c].pc.WkSet? && n in s.calls
  {
    var k := s.calls[n := s.calls[n].(word := Word(true, false, false))];
    s.(calls := k[c := s.calls[c].(pc := WkRead(s.calls[c].pc.rest, n, s.calls[c].pc.n))])
  }

  /** The fetch-or of TEARDOWN, after which `n` may be gone. */
  function LetsGo(s: State, c: Cid, n: Cid): State
    requires c in s.calls && s.calls[c].pc.WkOr? && n in s.calls
  {
    var k := s.calls[n := s.calls[n].(word := s.calls[n].word.(teardown := true), at := Out)];
    s.(calls := k[c := s.calls[c].(pc := WkNext(Rest(s.calls[c].pc.rest), s.calls[c].pc.n))])
  }

  lemma WokenBatch(s: State, c: Cid, n: Cid, t: State, l: Cid, m: Cid)
    requires Inv(s) && c in s.calls && s.calls[c].pc.WkSet? && n == s.calls[c].pc.node && n in s.calls && n != c
    requires t == Wakes(s, c, n)
    ensures MemberOk(t, l, m) && BatchOk(t, l, m)
  {
    Looked(s, c);
    assert MemberOk(s, l, m) && BatchOk(s, l, m);
  }

  lemma Woken(s: State, c: Cid, n: Cid, t: State)
    requires Inv(s) && c in s.calls && s.calls[c].pc.WkSet? && n == s.calls[c].pc.node && n in s.calls && n != c
    requires t == Wakes(s, c, n)
    ensures Inv(t)
  {
    Looked(s, c);
    ChainKept(s, t, s.stack);
    forall x {:trigger CallOk(t, x)} | x in t.calls ensures CallOk(t, x) { assert CallOk(s, x); }
    forall l {:trigger LeaderOk(t, l)} | l in t.calls ensures LeaderOk(t, l) { WokenLeader(s, c, n, t, l); }
    forall l, m ensures MemberOk(t, l, m) && BatchOk(t, l, m) { WokenBatch(s, c, n, t, l, m); }
  }

  lemma WokenLeader(s: State, c: Cid, n: Cid, t: State, l: Cid)
    requires Inv(s) && c in s.calls && s.calls[c].pc.WkSet? && n == s.calls[c].pc.node && n in s.calls && n != c
    requires t == Wakes(s, c, n) && l in s.calls
    ensures LeaderOk(t, l)
  {
    assert LeaderOk(s, l);
    Looked(s, c);
    if HasRest(s.calls[l].pc) { ChainKept(s, t, s.calls[l].pc.rest); }
    if AtNode(s.calls[l].pc) { Looked(s, l); }
  }

  lemma LetGo(s: State, c: Cid, n: Cid, t: State)
    requires Inv(s) && c in s.calls && s.calls[c].pc.WkOr? && n == s.calls[c].pc.node && n in s.calls && n != c
    requires t == LetsGo(s, c, n)
    ensures Inv(t)
  {
    Looked(s, c);
    ChainKept(s, t, s.stack);
    LookedRest(s, c);
    forall x {:trigger CallOk(t, x)} | x in t.calls ensures CallOk(t, x) { assert CallOk(s, x); }
    forall l {:trigger LeaderOk(t, l)} | l in t.calls ensures LeaderOk(t, l) { LetGoLeader(s, c, n, t, l); }
    forall l, m ensures MemberOk(t, l, m) && BatchOk(t, l, m) { LetGoBatch(s, c, n, t, l, m); }
  }

  lemma LetGoBatch(s: State, c: Cid, n: Cid, t: State, l: Cid, m: Cid)
    requires Inv(s) && c in s.calls && s.calls[c].pc.WkOr? && n == s.calls[c].pc.node && n in s.calls && n != c
    requires t == LetsGo(s, c, n)
    ensures MemberOk(t, l, m) && BatchOk(t, l, m)
  {
    Looked(s, c);
    LookedRest(s, c);
    assert MemberOk(s, l, m) && BatchOk(s, l, m);
  }

  lemma LetGoLeader(s: State, c: Cid, n: Cid, t: State, l: Cid)
    requires Inv(s) && c in s.calls && s.calls[c].pc.WkOr? && n == s.calls[c].pc.node && n in s.calls && n != c
    requires t == LetsGo(s, c, n) && l in s.calls
    ensures LeaderOk(t, l)
  {
    assert LeaderOk(s, l);
    Looked(s, c);
    LookedRest(s, c);
    if HasRest(s.calls[l].pc) { ChainKept(s, t, t.calls[l].pc.rest); }
    if AtNode(s.calls[l].pc) { Looked(s, l); }
  }

  lemma SkippedItselfBatch(s: State, c: Cid, t: State, l: Cid, m: Cid)
    requires Inv(s) && c in s.calls && s.calls[c].pc.WkCheck? && s.calls[c].pc.node == c
    requires t == Put(s, c, s.calls[c].(at := Out, pc := WkNext(Rest(s.calls[c].pc.rest), s.calls[c].pc.n)))
    ensures MemberOk(t, l, m) && BatchOk(t, l, m)
  {
    Looked(s, c);
    LookedRest(s, c);
    assert MemberOk(s, l, m) && BatchOk(s, l, m);
  }

  lemma SkippedItselfLeader(s: State, c: Cid, t: State, l: Cid)
    requires Inv(s) && c in s.calls && s.calls[c].pc.WkCheck? && s.calls[c].pc.node == c
    requires t == Put(s, c, s.calls[c].(at := Out, pc := WkNext(Rest(s.calls[c].pc.rest), s.calls[c].pc.n)))
    requires l in t.calls
    ensures LeaderOk(t, l)
  {
    Looked(s, c);
    assert LeaderOk(s, l);
    if HasRest(s.calls[l].pc) { ChainKept(s, t, t.calls[l].pc.rest); }
    if AtNode(s.calls[l].pc) { Looked(s, l); }
  }

  lemma SkippedItself(s: State, c: Cid, t: State)
    requires Inv(s) && c in s.calls && s.calls[c].pc.WkCheck? && s.calls[c].pc.node == c
    requires t == Put(s, c, s.calls[c].(at := Out, pc := WkNext(Rest(s.calls[c].pc.rest), s.calls[c].pc.n)))
    ensures Inv(t)
  {
    Looked(s, c);
    ChainKept(s, t, s.stack);
    LookedRest(s, c);
    forall x {:trigger CallOk(t, x)} | x in t.calls ensures CallOk(t, x) { assert CallOk(s, x); }
    forall l {:trigger LeaderOk(t, l)} | l in t.calls ensures LeaderOk(t, l) { SkippedItselfLeader(s, c, t, l); }
    forall l, m ensures MemberOk(t, l, m) && BatchOk(t, l, m) { SkippedItselfBatch(s, c, t, l, m); }
  }

  // The stack.

  lemma CalledLeader(s: State, c: Cid, t: State, l: Cid)
    requires Inv(s) && c !in s.calls
    requires t == Put(s, c, Caller(Push, Null, WAITING, Nowhere, s.open)) && l in t.calls
    ensures LeaderOk(t, l)
  {
    if l in s.calls {
      assert LeaderOk(s, l);
      if HasRest(s.calls[l].pc) { ChainKept(s, t, t.calls[l].pc.rest); }
      if AtNode(s.calls[l].pc) { Looked(s, l); }
    }
  }

  lemma Called(s: State, c: Cid, t: State)
    requires Inv(s) && c !in s.calls
    requires t == Put(s, c, Caller(Push, Null, WAITING, Nowhere, s.open))
    ensures Inv(t)
  {
    ChainKept(s, t, s.stack);
    forall x {:trigger CallOk(t, x)} | x in t.calls ensures CallOk(t, x) {
      if x in s.calls { assert CallOk(s, x); } else { NotLinked(s, x); }
    }
    forall l {:trigger LeaderOk(t, l)} | l in t.calls ensures LeaderOk(t, l) { CalledLeader(s, c, t, l); }
    forall l, m ensures MemberOk(t, l, m) && BatchOk(t, l, m) { assert MemberOk(s, l, m) && BatchOk(s, l, m); }
  }

  lemma NotLinked(s: State, c: Cid)
    requires Inv(s) && c !in s.calls
    ensures c !in s.stack && s.lock != To(c)
  {
    forall k | 0 <= k < |s.stack| ensures s.stack[k] != c {
      assert Linked(s, s.stack[k], First(s.stack[k + 1..]));
    }
  }

  lemma ExchangedLeader(s: State, c: Cid, t: State, l: Cid)
    requires Inv(s) && c in s.calls && s.calls[c].pc.Push?
    requires t == Put(s, c, s.calls[c].(pc := StoreNext(s.head), at := OnStack)).(head := To(c), stack := [c] + s.stack)
    requires l in t.calls
    ensures LeaderOk(t, l)
  {
    assert CallOk(s, c);
    assert LeaderOk(s, l);
    if HasRest(s.calls[l].pc) {
      assert MemberOk(s, l, c);
      ChainKept(s, t, t.calls[l].pc.rest);
    }
    if AtNode(s.calls[l].pc) { Looked(s, l); }
  }

  lemma ExchangedBatch(s: State, c: Cid, t: State, l: Cid, m: Cid)
    requires Inv(s) && c in s.calls && s.calls[c].pc.Push?
    requires t == Put(s, c, s.calls[c].(pc := StoreNext(s.head), at := OnStack)).(head := To(c), stack := [c] + s.stack)
    ensures MemberOk(t, l, m) && BatchOk(t, l, m)
  {
    assert CallOk(s, c);
    assert MemberOk(s, l, m) && BatchOk(s, l, m);
  }

  lemma Exchanged(s: State, c: Cid, t: State)
    requires Inv(s) && c in s.calls && s.calls[c].pc.Push?
    requires t == Put(s, c, s.calls[c].(pc := StoreNext(s.head), at := OnStack)).(head := To(c), stack := [c] + s.stack)
    ensures Inv(t)
  {
    assert CallOk(s, c);
    ExchangedChain(s, c, t);
    forall x {:trigger CallOk(t, x)} | x in t.calls ensures CallOk(t, x) { assert CallOk(s, x); }
    forall l {:trigger LeaderOk(t, l)} | l in t.calls ensures LeaderOk(t, l) { ExchangedLeader(s, c, t, l); }
    forall l, m ensures MemberOk(t, l, m) && BatchOk(t, l, m) { ExchangedBatch(s, c, t, l, m); }
  }

  lemma ExchangedChain(s: State, c: Cid, t: State)
    requires Inv(s) && c in s.calls && s.calls[c].pc.Push?
    requires t == Put(s, c, s.calls[c].(pc := StoreNext(s.head), at := OnStack)).(head := To(c), stack := [c] + s.stack)
    ensures Chain(t, t.stack) && c !in s.stack
  {
    assert CallOk(s, c);
    ChainKept(s, t, s.stack);
    var q := t.stack;
    forall k {:trigger q[k]} | 0 <= k < |q| ensures Linked(t, q[k], First(q[k + 1..])) {
      if k == 0 { assert q[1..] == s.stack; }
      else {
        assert q[k] == s.stack[k - 1] && q[k + 1..] == s.stack[k..];
        assert Linked(t, s.stack[k - 1], First(s.stack[(k - 1) + 1..]));
      }
    }
  }

  lemma Popped(s: State, c: Cid, t: State)
    requires Inv(s) && c in s.calls && s.calls[c].pc.HasLock?
    requires t.calls == Taken(s.calls, c)[c := Taken(s.calls, c)[c].(pc := GpBegin(s.stack))]
    requires t == s.(calls := t.calls, head := End, stack := [])
    ensures Inv(t)
  {
    assert CallOk(s, c);
    forall x {:trigger CallOk(t, x)} | x in t.calls ensures CallOk(t, x) { assert CallOk(s, x); }
    forall l {:trigger LeaderOk(t, l)} | l in t.calls ensures LeaderOk(t, l) { PoppedLeader(s, c, t, l); }
    forall l, m ensures MemberOk(t, l, m) && BatchOk(t, l, m) { PoppedBatch(s, c, t, l, m); }
  }

  lemma PoppedLeader(s: State, c: Cid, t: State, l: Cid)
    requires Inv(s) && c in s.calls && s.calls[c].pc.HasLock?
    requires t.calls == Taken(s.calls, c)[c := Taken(s.calls, c)[c].(pc := GpBegin(s.stack))]
    requires t == s.(calls := t.calls, head := End, stack := []) && l in s.calls
    ensures LeaderOk(t, l)
  {
    assert CallOk(s, c) && CallOk(s, l) && LeaderOk(s, l);
    if HasRest(t.calls[l].pc) { ChainKept(s, t, t.calls[l].pc.rest); }
    if AtNode(s.calls[l].pc) { Looked(s, l); }
  }

  lemma PoppedBatch(s: State, c: Cid, t: State, l: Cid, m: Cid)
    requires Inv(s) && c in s.calls && s.calls[c].pc.HasLock?
    requires t.calls == Taken(s.calls, c)[c := Taken(s.calls, c)[c].(pc := GpBegin(s.stack))]
    requires t == s.(calls := t.calls, head := End, stack := [])
    ensures MemberOk(t, l, m) && BatchOk(t, l, m)
  {
    assert CallOk(s, c) && MemberOk(s, l, m) && BatchOk(s, l, m);
    if m in s.calls {
      assert CallOk(s, m);
    } else { NotLinked(s, m); }
  }

  lemma Returned(s: State, c: Cid, t: State)
    requires Inv(s) && Enabled(s, Return(c))
    requires t == s.(calls := s.calls - {c})
    ensures Inv(t)
  {
    assert CallOk(s, c) && LeaderOk(s, c);
    ReturnedAlone(s, c);
    ChainKept(s, t, s.stack);
    forall x {:trigger CallOk(t, x)} | x in t.calls ensures CallOk(t, x) { assert CallOk(s, x); }
    forall l {:trigger LeaderOk(t, l)} | l in t.calls ensures LeaderOk(t, l) {
      assert LeaderOk(s, l) && MemberOk(s, l, c);
      if HasRest(s.calls[l].pc) { ChainKept(s, t, t.calls[l].pc.rest); }
      if AtNode(s.calls[l].pc) { Looked(s, l); }
    }
    forall l, m ensures MemberOk(t, l, m) && BatchOk(t, l, m) {
      assert MemberOk(s, l, m) && BatchOk(s, l, m) && MemberOk(s, l, c);
    }
  }

  /** A call that may return is on no stack and in nobody's batch, and leads nobody. */
  lemma ReturnedAlone(s: State, c: Cid)
    requires Inv(s) && Enabled(s, Return(c))
    ensures c in s.calls && s.calls[c].at == Out && c !in s.stack && s.lock != To(c)
    ensures forall x {:trigger s.calls[x]} | x in s.calls :: s.calls[x].at != InBatch(c)
  {
    assert CallOk(s, c) && LeaderOk(s, c) && MemberOk(s, c, c);
    forall x {:trigger s.calls[x]} | x in s.calls ensures s.calls[x].at != InBatch(c) {
      assert MemberOk(s, c, x) && BatchOk(s, c, x);
    }
  }

  lemma SectionSteps(s: State, t: State)
    requires Inv(s) && t == s.(open := t.open, begun := t.begun) && s.begun <= t.begun && t.open <= t.begun
    requires forall x {:trigger x in t.open} | x in t.open :: x in s.open || x !in s.begun
    ensures Inv(t)
  {
    ChainKept(s, t, s.stack);
    forall x {:trigger CallOk(t, x)} | x in t.calls ensures CallOk(t, x) { assert CallOk(s, x); }
    forall l {:trigger LeaderOk(t, l)} | l in t.calls ensures LeaderOk(t, l) {
      assert LeaderOk(s, l);
      if HasRest(s.calls[l].pc) { ChainKept(s, t, t.calls[l].pc.rest); }
      if AtNode(s.calls[l].pc) { Looked(s, l); }
    }
    forall l, m ensures MemberOk(t, l, m) && BatchOk(t, l, m) {
      assert MemberOk(s, l, m) && BatchOk(s, l, m);
      if m in s.calls { assert CallOk(s, m); }
    }
  }

  lemma InitInv(s: State)
    requires Init(s)
    ensures Inv(s)
  {
  }

  lemma CallerStep(s: State, a: Action)
    requires Inv(s) && Enabled(s, a)
    requires a.Call? || a.Exchange? || a.Store? || a.MarkRunning? || a.Return? || a.SectionBegin? || a.SectionEnd?
    ensures Inv(Do(s, a))
  {
    var t := Do(s, a);
    match a
    case Call(c) => Called(s, c, t);
    case Exchange(c) => Exchanged(s, c, t);
    case Store(c) => LinkStored(s, c, t.calls[c]);
    case MarkRunning(c) => LeaderRuns(s, c, t.calls[c]);
    case Return(c) => Returned(s, c, t);
    case _ => SectionSteps(s, t);
  }

  lemma FollowerStep(s: State, a: Action)
    requires Inv(s) && Enabled(s, a) && (a.ReadState? || a.GiveUp? || a.DoWait? || a.Interrupt? || a.SetRun?)
    ensures Inv(Do(s, a))
  {
    match a
    case ReadState(c) => if s.calls[c].word == WAITING { assert Do(s, a) == s; } else { SpinEnds(s, c, OrRunning); }
    case GiveUp(c) => SpinEnds(s, c, FutexWait);
    case DoWait(c) => if s.calls[c].word == WAITING { WaitStarts(s, c); } else { WaitEnds(s, c); }
    case Interrupt(c) => Interrupted(s, c);
    case SetRun(c) => RunningSet(s, c);
  }

  lemma LeaderStep(s: State, a: Action)
    requires Inv(s) && Enabled(s, a) && (a.Lock? || a.PopAll? || a.Begin? || a.EndGp? || a.Release?)
    ensures Inv(Do(s, a))
  {
    var t := Do(s, a);
    match a
    case Lock(c) => Locked(s, c, t);
    case PopAll(c) => Popped(s, c, t);
    case Begin(c) => GpBegins(s, c);
    case EndGp(c) => GpEnds(s, c);
    case Release(c) => Released(s, c, t);
  }

  lemma ReadNextKeeps(s: State, c: Cid)
    requires Inv(s) && Enabled(s, ReadNext(c))
    ensures Inv(Do(s, ReadNext(c)))
  {
    var pc := s.calls[c].pc;
    assert LeaderOk(s, c);
    ChainRest(s, pc.rest);
    LeaderWalks(s, c, WkCheck(pc.rest, pc.iter.c, NextOf(s, pc.iter.c)));
  }

  lemma CheckKeeps(s: State, c: Cid)
    requires Inv(s) && Enabled(s, Check(c))
    ensures Inv(Do(s, Check(c)))
  {
    var pc := s.calls[c].pc;
    SkipsItself(s, c);
    if pc.node == c {
      SkippedItself(s, c, Do(s, Check(c)));
    } else {
      CheckedOther(s, c);
    }
  }

  lemma CheckedOther(s: State, c: Cid)
    requires Inv(s) && c in s.calls && s.calls[c].pc.WkCheck? && s.calls[c].pc.node != c
    ensures var pc := s.calls[c].pc; Inv(Put(s, c, s.calls[c].(pc := WkSet(pc.rest, pc.node, pc.n))))
  {
    var pc := s.calls[c].pc;
    Looked(s, c);
    LeaderWalks(s, c, WkSet(pc.rest, pc.node, pc.n));
  }

  lemma ReadRunningKeeps(s: State, c: Cid)
    requires Inv(s) && Enabled(s, ReadRunning(c))
    ensures Inv(Do(s, ReadRunning(c)))
  {
    var pc := s.calls[c].pc;
    RunningSeen(s, c);
    if s.calls[pc.node].word.running {
      LeaderWalks(s, c, WkOr(pc.rest, pc.node, pc.n));
    } else {
      LeaderWalks(s, c, WkFutex(pc.rest, pc.node, pc.n));
    }
  }

  /** The leader moves on from the futex wake, its node not asleep. */
  lemma FutexWoken(s: State, c: Cid)
    requires Inv(s) && c in s.calls && s.calls[c].pc.WkFutex?
    requires s.calls[c].pc.node in s.calls && !s.calls[s.calls[c].pc.node].pc.Asleep?
    ensures var pc := s.calls[c].pc; Inv(Put(s, c, s.calls[c].(pc := WkOr(pc.rest, pc.node, pc.n))))
  {
    var pc := s.calls[c].pc;
    RunningSeen(s, c);
    LeaderWalks(s, c, WkOr(pc.rest, pc.node, pc.n));
  }

  /** The futex wake is the sleeper leaving the wait, then the leader moving on. */
  lemma WakesSleeper(s: State, c: Cid, n: Cid, y: Caller, t: State)
    requires Inv(s) && c in s.calls && s.calls[c].pc.WkFutex? && n == s.calls[c].pc.node && n != c
    requires n in s.calls && s.calls[n].pc.Asleep? && s.calls[n].word != WAITING
    requires y == s.calls[c].(pc := WkOr(s.calls[c].pc.rest, n, s.calls[c].pc.n))
    requires t == Go(Put(s, c, y), n, OrRunning)
    ensures Inv(t)
  {
    var s1 := Put(s, n, s.calls[n].(pc := OrRunning));
    WaitEnds(s, n);
    FutexWoken(s1, c);
    assert t.calls == s1.calls[c := y];
  }

  lemma FutexWakeKeeps(s: State, c: Cid)
    requires Inv(s) && Enabled(s, FutexWake(c))
    ensures Inv(Do(s, FutexWake(c)))
  {
    var pc := s.calls[c].pc;
    Looked(s, c);
    if s.calls[pc.node].pc.Asleep? {
      WakesSleeper(s, c, pc.node, s.calls[c].(pc := WkOr(pc.rest, pc.node, pc.n)), Do(s, FutexWake(c)));
    } else {
      FutexWoken(s, c);
    }
  }

  lemma SetWakeupKeeps(s: State, c: Cid)
    requires Inv(s) && Enabled(s, SetWakeup(c))
    ensures Inv(Do(s, SetWakeup(c)))
  {
    Looked(s, c);
    Woken(s, c, s.calls[c].pc.node, Do(s, SetWakeup(c)));
  }

  lemma SetTeardownKeeps(s: State, c: Cid)
    requires Inv(s) && Enabled(s, SetTeardown(c))
    ensures Inv(Do(s, SetTeardown(c)))
  {
    Looked(s, c);
    LetGo(s, c, s.calls[c].pc.node, Do(s, SetTeardown(c)));
  }

  predicate IsWaker(a: Action) {
    a.ReadNext? || a.Check? || a.SetWakeup? || a.ReadRunning? || a.FutexWake? || a.SetTeardown?
  }

  lemma WakerStep(s: State, a: Action)
    requires Inv(s) && Enabled(s, a) && IsWaker(a)
    ensures Inv(Do(s, a))
  {
    match a
    case ReadNext(c) => ReadNextKeeps(s, c);
    case Check(c) => CheckKeeps(s, c);
    case SetWakeup(c) => SetWakeupKeeps(s, c);
    case ReadRunning(c) => ReadRunningKeeps(s, c);
    case FutexWake(c) => FutexWakeKeeps(s, c);
    case SetTeardown(c) => SetTeardownKeeps(s, c);
  }

  lemma StepInv(s: State, a: Action)
    requires Inv(s) && Enabled(s, a)
    ensures Inv(Do(s, a))
  {
    if IsWaker(a) { WakerStep(s, a); }
    else if a.ReadState? || a.GiveUp? || a.DoWait? || a.Interrupt? || a.SetRun? { FollowerStep(s, a); }
    else if a.Lock? || a.PopAll? || a.Begin? || a.EndGp? || a.Release? { LeaderStep(s, a); }
    else { CallerStep(s, a); }
  }

  // --- runs -----------------------------------------------------------------------------

  ghost predicate IsRun(tr: seq<State>, acts: seq<Action>) {
    && |tr| == |acts| + 1 && Init(tr[0])
    && forall i {:trigger acts[i]} {:trigger tr[i + 1]} | 0 <= i < |acts| ::
      Enabled(tr[i], acts[i]) && tr[i + 1] == Do(tr[i], acts[i])
  }

  lemma {:induction false} Reachable(tr: seq<State>, acts: seq<Action>, i: nat)
    requires IsRun(tr, acts) && i < |tr|
    ensures Inv(tr[i])
  {
    if i == 0 {
      InitInv(tr[0]);
    } else {
      Reachable(tr, acts, i - 1);
      assert Enabled(tr[i - 1], acts[i - 1]) && tr[i] == Do(tr[i - 1], acts[i - 1]);
      StepInv(tr[i - 1], acts[i - 1]);
    }
  }

  /** `c` has pushed on an empty stack and not yet taken the stack. */
  predicate IsLeader(s: State, c: Cid) { c in s.calls && Leads(s.calls[c].pc) }

  /** The stack is non-empty exactly when some caller leads it; that caller is alone
      and at the bottom. */
  lemma OneLeaderAtBottom(tr: seq<State>, acts: seq<Action>, i: nat)
    requires IsRun(tr, acts) && i < |tr|
    ensures tr[i].head.To? <==> exists c {:trigger IsLeader(tr[i], c)} :: IsLeader(tr[i], c)
    ensures forall c {:trigger IsLeader(tr[i], c)} | IsLeader(tr[i], c) ::
              tr[i].stack != [] && c == tr[i].stack[|tr[i].stack| - 1]
    ensures tr[i].head == First(tr[i].stack)
  {
    Reachable(tr, acts, i);
    var s := tr[i];
    forall c {:trigger IsLeader(s, c)} | IsLeader(s, c) ensures s.stack != [] && c == s.stack[|s.stack| - 1] {
      assert CallOk(s, c);
    }
    if s.stack != [] { assert IsLeader(s, s.stack[|s.stack| - 1]); }
  }

  /** One grace period at a time: the lock has one holder. */
  lemma OneGracePeriod(tr: seq<State>, acts: seq<Action>, i: nat, c: Cid, d: Cid)
    requires IsRun(tr, acts) && i < |tr| && c in tr[i].calls && d in tr[i].calls
    requires Holds(tr[i].calls[c].pc) && Holds(tr[i].calls[d].pc)
    ensures c == d
  {
    Reachable(tr, acts, i);
    assert CallOk(tr[i], c) && CallOk(tr[i], d);
  }

  lemma StepOwed(s: State, a: Action, c: Cid)
    requires Enabled(s, a) && c in s.calls && c in Do(s, a).calls
    ensures Do(s, a).calls[c].owed == s.calls[c].owed
  {
  }

  /** Action `i` is a call by `c`, which is still in progress up to state `j`. */
  predicate IsCall(tr: seq<State>, acts: seq<Action>, i: nat, j: nat, c: Cid) {
    && i < j < |tr| && i < |acts| && acts[i] == Call(c)
    && forall k {:trigger tr[k]} | i < k <= j :: c in tr[k].calls
  }

  lemma {:induction false} OwedSinceCall(tr: seq<State>, acts: seq<Action>, i: nat, j: nat, c: Cid)
    requires IsRun(tr, acts) && IsCall(tr, acts, i, j, c)
    ensures tr[j].calls[c].owed == tr[i].open
  {
    assert Enabled(tr[j - 1], acts[j - 1]) && tr[j] == Do(tr[j - 1], acts[j - 1]);
    if i + 1 < j {
      OwedSinceCall(tr, acts, i, j - 1, c);
      StepOwed(tr[j - 1], acts[j - 1], c);
    }
  }

  /** Every caller, leader or follower, returns only when every read section in
      progress at its call has ended. */
  lemma ReturnsAfterGracePeriod(tr: seq<State>, acts: seq<Action>, i: nat, j: nat, c: Cid)
    requires IsRun(tr, acts) && IsCall(tr, acts, i, j, c) && Enabled(tr[j], Return(c))
    ensures tr[i].open !! tr[j].open
  {
    Reachable(tr, acts, j);
    OwedSinceCall(tr, acts, i, j, c);
    assert CallOk(tr[j], c);
  }

  /** A waker only ever reads or writes the node of a call still in progress, finds it
      WAITING when it is about to wake it, and skips no node but its own. */
  lemma WakerTouchesLiveNode(tr: seq<State>, acts: seq<Action>, i: nat, c: Cid)
    requires IsRun(tr, acts) && i < |tr| && c in tr[i].calls && AtNode(tr[i].calls[c].pc)
    ensures var pc := tr[i].calls[c].pc;
      && pc.node in tr[i].calls && !tr[i].calls[pc.node].word.teardown && !Enabled(tr[i], Return(pc.node))
      && (pc.WkSet? ==> tr[i].calls[pc.node].word == WAITING)
      && (pc.WkCheck? ==> (tr[i].calls[pc.node].word.running <==> pc.node == c))
  {
    Reachable(tr, acts, i);
    Looked(tr[i], c);
  }

  /** After TEARDOWN no leader has the node before it, or its own link to follow. */
  lemma NothingTouchesAfterTeardown(tr: seq<State>, acts: seq<Action>, i: nat, l: Cid, c: Cid)
    requires IsRun(tr, acts) && i < |tr| && c in tr[i].calls && tr[i].calls[c].word.teardown
    ensures !InRest(tr[i], l, c) && c !in tr[i].stack
    ensures l in tr[i].calls && AtNode(tr[i].calls[l].pc) ==>
              tr[i].calls[l].pc.node != c && tr[i].calls[l].pc.n != To(c)
    ensures l in tr[i].calls && tr[i].calls[l].pc.WkNext? ==> tr[i].calls[l].pc.iter != To(c)
  {
    Reachable(tr, acts, i);
    assert CallOk(tr[i], c) && MemberOk(tr[i], l, c);
    if l in tr[i].calls { assert LeaderOk(tr[i], l); }
  }

  /** The leader that is about to issue the futex wake for `c`. */
  predicate WillWake(s: State, l: Cid, c: Cid) {
    l in s.calls && (s.calls[l].pc.WkRead? || s.calls[l].pc.WkFutex?) && s.calls[l].pc.node == c
  }

  /** A follower asleep on its word is still going to be woken: its word is WAITING and
      it is on the led stack or in a batch before its leader, or the leader is between
      setting the word and the futex wake, and will not see it running. */
  lemma NoLostWakeup(tr: seq<State>, acts: seq<Action>, i: nat, c: Cid)
    requires IsRun(tr, acts) && i < |tr| && c in tr[i].calls && tr[i].calls[c].pc.Asleep?
    ensures var x := tr[i].calls[c];
      if x.word == WAITING then x.at == OnStack || (x.at.InBatch? && InRest(tr[i], x.at.leader, c))
      else x.at.InBatch? && WillWake(tr[i], x.at.leader, c) && !x.word.running
  {
    Reachable(tr, acts, i);
    var s := tr[i];
    assert CallOk(s, c);
    if s.calls[c].at.InBatch? {
      var l := s.calls[c].at.leader;
      assert BatchOk(s, l, c) && MemberOk(s, l, c) && LeaderOk(s, l);
    }
  }
}
