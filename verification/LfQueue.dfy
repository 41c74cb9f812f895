/** The lock-free RCU queue: any number of enqueuers and dequeuers, nodes never
    reclaimed while the run lasts.  One action is one load or compare-and-swap. */
module LfQueue {
  import opened Sequences

  type Tid = nat

  /** A node; dummies are allocated by the queue itself. */
  datatype Node = User(id: nat) | Dummy(id: nat)

  /** Who enqueues: a caller, or a dequeuer that found `head` to be the last node. */
  datatype For = Caller | Dequeuer(head: Node)

  datatype Pc =
    | ELoad(n: Node, f: For)
    | ECas(n: Node, f: For, tail: Node)
    | ESwing(n: Node, f: For, tail: Node)
    | EHelp(n: Node, f: For, tail: Node, next: Node)
    | DLoad
    | DNext(head: Node)
    | DAgain(head: Node)
    | DCas(head: Node, to: Option<Node>)
    | Returned(r: Option<Node>)

  /** A node not in `next` has a NULL link.  History: `chain` is every node ever linked,
      in link order, `pos` the place of each in it and `h` that of the head; `used` says
      who enqueued, or is enqueueing, each node; `freed` are the dummies handed to
      `call_rcu`. */
  datatype State = State(
    next: map<Node, Node>, head: Option<Node>, tail: Node, th: map<Tid, Pc>,
    chain: seq<Node>, pos: map<Node, nat>, h: nat, used: map<Node, Tid>, freed: set<Node>)

  datatype Action =
    | Enqueue(t: Tid, n: Node)
    | Dequeue(t: Tid)
    | Step(t: Tid)
    | AddDummy(t: Tid, d: Node)

  predicate Idle(s: State, t: Tid) { t in s.th ==> s.th[t].Returned? }

  /** The dequeuer's load of `head->next` finds NULL behind a node of a user. */
  predicate NeedsDummy(s: State, t: Tid) {
    t in s.th && s.th[t].DNext? && s.th[t].head !in s.next && s.th[t].head.User?
  }

  predicate Enabled(s: State, a: Action) {
    match a
    case Enqueue(t, n) => Idle(s, t) && n.User? && n !in s.used
    case Dequeue(t) => Idle(s, t)
    case Step(t) => t in s.th && !s.th[t].Returned? && !NeedsDummy(s, t)
    case AddDummy(t, d) => NeedsDummy(s, t) && d.Dummy? && d !in s.used
  }

  function Go(s: State, t: Tid, pc: Pc): State { s.(th := s.th[t := pc]) }

  function After(f: For): Pc { if f.Caller? then Returned(None) else DAgain(f.head) }

  function Load(s: State, x: Node): Option<Node> { if x in s.next then Some(s.next[x]) else None }

  function Swing(s: State, from: Node, to: Node): State { if s.tail == from then s.(tail := to) else s }

  /** The enqueuer's compare-and-swap of the tail's link succeeds. */
  function DoLink(s: State, t: Tid, n: Node, f: For, tail: Node): State {
    Go(s, t, ESwing(n, f, tail)).(next := s.next[tail := n], chain := s.chain + [n], pos := s.pos[n := |s.chain|])
  }

  /** The dequeuer's compare-and-swap of the head succeeds. */
  function DoPass(s: State, t: Tid, head: Node, to: Option<Node>): State {
    if head.Dummy? then Go(s, t, DLoad).(head := to, h := s.h + 1, freed := s.freed + {head})
    else Go(s, t, Returned(Some(head))).(head := to, h := s.h + 1)
  }

  function DoStep(s: State, t: Tid, pc: Pc): State {
    match pc
    case ELoad(n, f) => Go(s, t, ECas(n, f, s.tail))
    case ECas(n, f, tail) =>
      if tail in s.next then Go(s, t, EHelp(n, f, tail, s.next[tail])) else DoLink(s, t, n, f, tail)
    case ESwing(n, f, tail) => Go(Swing(s, tail, n), t, After(f))
    case EHelp(n, f, tail, next) => Go(Swing(s, tail, next), t, ELoad(n, f))
    case DLoad => if s.head.Some? then Go(s, t, DNext(s.head.value)) else s
    case DNext(head) => if head in s.next then Go(s, t, DCas(head, Load(s, head))) else Go(s, t, Returned(None))
    case DAgain(head) => Go(s, t, DCas(head, Load(s, head)))
    case DCas(head, to) => if s.head == Some(head) then DoPass(s, t, head, to) else Go(s, t, DLoad)
    case Returned(_) => s
  }

  function Do(s: State, a: Action): State
    requires Enabled(s, a)
  {
    match a
    case Enqueue(t, n) => Go(s, t, ELoad(n, Caller)).(used := s.used[n := t])
    case Dequeue(t) => Go(s, t, DLoad)
    case Step(t) => DoStep(s, t, s.th[t])
    case AddDummy(t, d) => Go(s, t, ELoad(d, Dequeuer(s.th[t].head))).(used := s.used[d := t])
  }

  /** One dummy, which is both the head and the tail. */
  predicate Init(s: State) {
    && s.tail.Dummy?
    && s == State(map[], Some(s.tail), s.tail, map[], [s.tail], map[s.tail := 0], 0, map[s.tail := 0], {})
  }

  // --- the invariant --------------------------------------------------------------------

  predicate PosOk(s: State, n: Node) {
    if n in s.pos then
      && s.pos[n] < |s.chain| && s.chain[s.pos[n]] == n && n in s.used
      && Load(s, n) == (if s.pos[n] + 1 < |s.chain| then Some(s.chain[s.pos[n] + 1]) else None)
    else n !in s.next
  }

  predicate ChainOk(s: State, i: int) { 0 <= i < |s.chain| ==> s.chain[i] in s.pos && s.pos[s.chain[i]] == i }

  predicate EndsOk(s: State) {
    && s.h < |s.chain| && s.head == Some(s.chain[s.h])
    && s.tail in s.pos && |s.chain| - 2 <= s.pos[s.tail]
  }

  /** A node the head has reached, if `f` names one. */
  predicate Reached(s: State, n: Node) { n in s.pos && s.pos[n] <= s.h }

  predicate ForOk(s: State, f: For) { f.Dequeuer? ==> Reached(s, f.head) }

  predicate Held(s: State, t: Tid, n: Node) { n !in s.pos && n in s.used && s.used[n] == t }

  predicate PcOk(s: State, t: Tid) {
    t in s.th ==>
      match s.th[t]
      case ELoad(n, f) => Held(s, t, n) && ForOk(s, f)
      case ECas(n, f, tail) =>
        Held(s, t, n) && ForOk(s, f) && tail in s.pos && s.tail in s.pos && s.pos[tail] <= s.pos[s.tail]
      case ESwing(n, f, tail) =>
        && ForOk(s, f) && n in s.pos && tail in s.pos && s.pos[n] == s.pos[tail] + 1
        && (f.Dequeuer? ==> s.pos[f.head] < s.pos[n])
      case EHelp(n, f, tail, next) =>
        Held(s, t, n) && ForOk(s, f) && tail in s.pos && next in s.pos && s.pos[next] == s.pos[tail] + 1
      case DNext(head) => Reached(s, head)
      case DAgain(head) => Reached(s, head) && s.pos[head] + 1 < |s.chain|
      case DCas(head, to) => Reached(s, head) && to.Some? && to.value in s.pos && s.pos[to.value] == s.pos[head] + 1
      case _ => true
  }

  predicate FreedOk(s: State, n: Node) { n in s.freed <==> n in s.pos && s.pos[n] < s.h && n.Dummy? }

  ghost predicate Inv(s: State) {
    && EndsOk(s)
    && (forall n {:trigger PosOk(s, n)} :: PosOk(s, n))
    && (forall i {:trigger ChainOk(s, i)} :: ChainOk(s, i))
    && (forall t {:trigger PcOk(s, t)} :: PcOk(s, t))
    && (forall n {:trigger FreedOk(s, n)} :: FreedOk(s, n))
  }

  lemma InitInv(s: State)
    requires Init(s)
    ensures Inv(s)
  {
  }

  /** Only one thread's program point moves, and nothing else but perhaps the tail. */
  lemma Moved(s: State, t: Tid, pc: Pc, to: Node)
    requires Inv(s) && PcOk(Go(s, t, pc).(tail := to), t)
    requires to in s.pos && s.pos[s.tail] <= s.pos[to]
    ensures Inv(Go(s, t, pc).(tail := to))
  {
    var s' := Go(s, t, pc).(tail := to);
    forall n {:trigger PosOk(s', n)} ensures PosOk(s', n) { assert PosOk(s, n); }
    forall i {:trigger ChainOk(s', i)} ensures ChainOk(s', i) { assert ChainOk(s, i); }
    forall u {:trigger PcOk(s', u)} ensures PcOk(s', u) { assert PcOk(s, u); }
    forall n {:trigger FreedOk(s', n)} ensures FreedOk(s', n) { assert FreedOk(s, n); }
  }

  lemma Claimed(s: State, t: Tid, n: Node, pc: Pc, s': State)
    requires Inv(s) && n !in s.used && s' == Go(s, t, pc).(used := s.used[n := t]) && PcOk(s', t)
    ensures Inv(s')
  {
    forall m {:trigger PosOk(s', m)} ensures PosOk(s', m) { assert PosOk(s, m); }
    forall i {:trigger ChainOk(s', i)} ensures ChainOk(s', i) { assert ChainOk(s, i); }
    forall u {:trigger PcOk(s', u)} ensures PcOk(s', u) { assert PcOk(s, u); }
    forall m {:trigger FreedOk(s', m)} ensures FreedOk(s', m) { assert FreedOk(s, m); }
  }

  /** A tail with a NULL link is the last node, and the queue's tail is there too. */
  lemma NullIsLast(s: State, t: Tid)
    requires Inv(s) && t in s.th && s.th[t].ECas? && s.th[t].tail !in s.next
    ensures s.th[t].tail == s.tail && s.pos[s.tail] == |s.chain| - 1
  {
    assert PcOk(s, t) && PosOk(s, s.th[t].tail) && PosOk(s, s.tail);
  }

  lemma LinkKeeps(s: State, t: Tid, n: Node, f: For, tail: Node, s': State)
    requires Inv(s) && t in s.th && s.th[t] == ECas(n, f, tail) && tail !in s.next
    requires s' == DoLink(s, t, n, f, tail)
    ensures Inv(s')
  {
    NullIsLast(s, t);
    assert PcOk(s, t);
    forall m {:trigger PosOk(s', m)} ensures PosOk(s', m) { assert PosOk(s, m) && PosOk(s, n) && PosOk(s, tail); }
    forall i {:trigger ChainOk(s', i)} ensures ChainOk(s', i) { assert ChainOk(s, i); }
    forall u {:trigger PcOk(s', u)} ensures PcOk(s', u) { LinkPc(s, t, n, f, tail, s', u); }
    forall m {:trigger FreedOk(s', m)} ensures FreedOk(s', m) { assert FreedOk(s, m); }
  }

  lemma LinkOwn(s: State, t: Tid, n: Node, f: For, tail: Node, s': State)
    requires Inv(s) && t in s.th && s.th[t] == ECas(n, f, tail) && tail !in s.next
    requires s' == DoLink(s, t, n, f, tail)
    ensures PcOk(s', t)
  {
    NullIsLast(s, t);
    assert PcOk(s, t);
    if f.Dequeuer? { assert PosOk(s, f.head); }
  }

  lemma LinkOther(s: State, t: Tid, n: Node, s': State, u: Tid)
    requires u != t && PcOk(s, u) && n !in s.pos && n in s.used && s.used[n] == t && s'.used == s.used
    requires t in s'.th && s'.th == s.th[t := s'.th[t]] && s'.tail == s.tail
    requires s'.chain == s.chain + [n] && s'.pos == s.pos[n := |s.chain|] && s'.h == s.h
    ensures PcOk(s', u)
  {
  }

  lemma LinkPc(s: State, t: Tid, n: Node, f: For, tail: Node, s': State, u: Tid)
    requires Inv(s) && t in s.th && s.th[t] == ECas(n, f, tail) && tail !in s.next
    requires s' == DoLink(s, t, n, f, tail)
    ensures PcOk(s', u)
  {
    assert PcOk(s, t) && PcOk(s, u);
    if u == t { LinkOwn(s, t, n, f, tail, s'); } else { LinkOther(s, t, n, s', u); }
  }

  lemma PassPc(s: State, t: Tid, pc: Pc, s': State, u: Tid)
    requires PcOk(s, u) && s'.th == s.th[t := pc] && (pc.DLoad? || pc.Returned?) && s'.used == s.used
    requires s'.tail == s.tail && s'.chain == s.chain && s'.pos == s.pos && s.h <= s'.h
    ensures PcOk(s', u)
  {
  }

  lemma PassKeeps(s: State, t: Tid, head: Node, to: Option<Node>, s': State)
    requires Inv(s) && t in s.th && s.th[t] == DCas(head, to) && s.head == Some(head)
    requires s' == DoPass(s, t, head, to)
    ensures Inv(s')
    ensures head in s.pos && s.pos[head] == s.h && to.Some? && s.h + 1 < |s.chain| && to.value == s.chain[s.h + 1]
  {
    assert PcOk(s, t) && ChainOk(s, s.h) && PosOk(s, head) && PosOk(s, to.value);
    forall m {:trigger PosOk(s', m)} ensures PosOk(s', m) { assert PosOk(s, m); }
    forall i {:trigger ChainOk(s', i)} ensures ChainOk(s', i) { assert ChainOk(s, i); }
    forall u {:trigger PcOk(s', u)} ensures PcOk(s', u) { assert PcOk(s, u); PassPc(s, t, s'.th[t], s', u); }
    forall m {:trigger FreedOk(s', m)} ensures FreedOk(s', m) { assert FreedOk(s, m) && PosOk(s, m); }
  }

  lemma EnqStep(s: State, t: Tid)
    requires Inv(s) && Enabled(s, Step(t)) && (s.th[t].ELoad? || s.th[t].ECas? || s.th[t].ESwing? || s.th[t].EHelp?)
    ensures Inv(Do(s, Step(t)))
  {
    assert PcOk(s, t);
    match s.th[t]
    case ELoad(n, f) => Moved(s, t, ECas(n, f, s.tail), s.tail);
    case ECas(n, f, tail) =>
      assert PosOk(s, tail);
      if tail in s.next {
        assert ChainOk(s, s.pos[tail] + 1);
        Moved(s, t, EHelp(n, f, tail, s.next[tail]), s.tail);
      } else { LinkKeeps(s, t, n, f, tail, Do(s, Step(t))); }
    case ESwing(n, f, tail) =>
      assert PosOk(s, n);
      Moved(s, t, After(f), if s.tail == tail then n else s.tail);
    case EHelp(n, f, tail, next) =>
      Moved(s, t, ELoad(n, f), if s.tail == tail then next else s.tail);
  }

  lemma DeqStep(s: State, t: Tid)
    requires Inv(s) && Enabled(s, Step(t)) && (s.th[t].DLoad? || s.th[t].DNext? || s.th[t].DAgain? || s.th[t].DCas?)
    ensures Inv(Do(s, Step(t)))
  {
    assert PcOk(s, t) && ChainOk(s, s.h);
    match s.th[t]
    case DLoad => Moved(s, t, DNext(s.chain[s.h]), s.tail);
    case DNext(head) =>
      assert PosOk(s, head) && ChainOk(s, s.pos[head] + 1);
      Moved(s, t, if head in s.next then DCas(head, Load(s, head)) else Returned(None), s.tail);
    case DAgain(head) =>
      assert PosOk(s, head) && ChainOk(s, s.pos[head] + 1);
      Moved(s, t, DCas(head, Load(s, head)), s.tail);
    case DCas(head, to) =>
      if s.head == Some(head) { PassKeeps(s, t, head, to, Do(s, Step(t))); } else { Moved(s, t, DLoad, s.tail); }
  }

  lemma StepInv(s: State, a: Action)
    requires Inv(s) && Enabled(s, a)
    ensures Inv(Do(s, a))
  {
    match a
    case Enqueue(t, n) =>
      assert PosOk(s, n);
      Claimed(s, t, n, ELoad(n, Caller), Do(s, a));
    case Dequeue(t) => Moved(s, t, DLoad, s.tail);
    case Step(t) =>
      if s.th[t].ELoad? || s.th[t].ECas? || s.th[t].ESwing? || s.th[t].EHelp? { EnqStep(s, t); } else { DeqStep(s, t); }
    case AddDummy(t, d) =>
      assert PcOk(s, t) && PosOk(s, d);
      Claimed(s, t, d, ELoad(d, Dequeuer(s.th[t].head)), Do(s, a));
  }

  // --- runs -----------------------------------------------------------------------------

  ghost predicate IsRun(tr: seq<State>, acts: seq<Action>) {
    && |tr| == |acts| + 1 && Init(tr[0])
    && forall i {:trigger acts[i]} {:trigger tr[i + 1]} | 0 <= i < |acts| ::
      Enabled(tr[i], acts[i]) && tr[i + 1] == Do(tr[i], acts[i])
  }

  lemma {:induction false} Reachable(tr: seq<State>, acts: seq<Action>, i: nat)
    requires IsRun(tr, acts) && i < |tr|
    ensures Inv(tr[i])
  {
    if i == 0 {
      InitInv(tr[0]);
    } else {
      Reachable(tr, acts, i - 1);
      assert Enabled(tr[i - 1], acts[i - 1]) && tr[i] == Do(tr[i - 1], acts[i - 1]);
      StepInv(tr[i - 1], acts[i - 1]);
    }
  }

  /** The head is never NULL; the tail is the last or the second-to-last linked node. */
  lemma HeadAndTail(tr: seq<State>, acts: seq<Action>, i: nat)
    requires IsRun(tr, acts) && i < |tr|
    ensures var s := tr[i];
      && s.head.Some? && s.head.value in s.chain
      && (s.tail == s.chain[|s.chain| - 1] || (|s.chain| >= 2 && s.tail == s.chain[|s.chain| - 2]))
      && s.chain[|s.chain| - 1] !in s.next
  {
    Reachable(tr, acts, i);
    var s := tr[i];
    assert PosOk(s, s.tail) && ChainOk(s, |s.chain| - 1) && PosOk(s, s.chain[|s.chain| - 1]);
  }

  /** The nodes of users among `w`, in order. */
  function Users(w: seq<Node>): seq<Node> {
    if w == [] then [] else (if w[0].User? then [w[0]] else []) + Users(w[1..])
  }

  /** The abstract queue. */
  function Queue(s: State): seq<Node> { if s.h <= |s.chain| then Users(s.chain[s.h..]) else [] }

  lemma {:induction false} UsersAppend(v: seq<Node>, w: seq<Node>)
    ensures Users(v + w) == Users(v) + Users(w)
  {
    if v == [] {
      assert v + w == w;
    } else {
      var x := if v[0].User? then [v[0]] else [];
      UsersAppend(v[1..], w);
      assert (v + w)[1..] == v[1..] + w && (v + w)[0] == v[0];
      assert Users(v + w) == x + Users(v[1..] + w);
      assert x + (Users(v[1..]) + Users(w)) == (x + Users(v[1..])) + Users(w);
    }
  }

  /** The node that a step links. */
  function StepIn(s: State, a: Action): seq<Node> {
    if a.Step? && a.t in s.th && s.th[a.t].ECas? && s.th[a.t].tail !in s.next && s.th[a.t].n.User? then [s.th[a.t].n]
    else []
  }

  /** The node that a step returns from a dequeue. */
  function StepOut(s: State, a: Action, s': State): seq<Node> {
    if a.Step? && a.t in s.th && s.th[a.t].DCas? && a.t in s'.th && s'.th[a.t].Returned? && s'.th[a.t].r.Some? then
      [s'.th[a.t].r.value]
    else []
  }

  lemma LinkFifo(s: State, t: Tid, n: Node, f: For, tail: Node)
    requires Inv(s) && tail !in s.next
    ensures Queue(DoLink(s, t, n, f, tail)) == Queue(s) + (if n.User? then [n] else [])
  {
    assert (s.chain + [n])[s.h..] == s.chain[s.h..] + [n];
    UsersAppend(s.chain[s.h..], [n]);
  }

  lemma PassFifo(s: State, t: Tid, head: Node, to: Option<Node>)
    requires Inv(s) && t in s.th && s.th[t] == DCas(head, to) && s.head == Some(head)
    ensures Queue(s) == (if head.User? then [head] else []) + Queue(DoPass(s, t, head, to))
  {
    PassKeeps(s, t, head, to, DoPass(s, t, head, to));
    assert s.chain[s.h..][1..] == s.chain[s.h + 1..];
  }

  lemma StepFifo(s: State, a: Action)
    requires Inv(s) && Enabled(s, a)
    ensures Queue(s) + StepIn(s, a) == StepOut(s, a, Do(s, a)) + Queue(Do(s, a))
  {
    if a.Step? && s.th[a.t].ECas? && s.th[a.t].tail !in s.next {
      LinkFifo(s, a.t, s.th[a.t].n, s.th[a.t].f, s.th[a.t].tail);
    } else if a.Step? && s.th[a.t].DCas? && s.head == Some(s.th[a.t].head) {
      PassFifo(s, a.t, s.th[a.t].head, s.th[a.t].to);
    } else {
      assert Do(s, a).chain == s.chain && Do(s, a).h == s.h;
    }
  }

  /** Every user's node linked so far, in link order. */
  function Entered(tr: seq<State>, acts: seq<Action>, i: nat): seq<Node>
    requires |tr| == |acts| + 1 && i < |tr|
  {
    if i == 0 then [] else Entered(tr, acts, i - 1) + StepIn(tr[i - 1], acts[i - 1])
  }

  /** Every node returned so far, in order. */
  function Left(tr: seq<State>, acts: seq<Action>, i: nat): seq<Node>
    requires |tr| == |acts| + 1 && i < |tr|
  {
    if i == 0 then [] else Left(tr, acts, i - 1) + StepOut(tr[i - 1], acts[i - 1], tr[i])
  }

  /** First in, first out: the nodes returned, followed by those on the queue, are the
      nodes linked, in link order. */
  lemma {:induction false} Fifo(tr: seq<State>, acts: seq<Action>, i: nat)
    requires IsRun(tr, acts) && i < |tr|
    ensures Entered(tr, acts, i) == Left(tr, acts, i) + Queue(tr[i])
  {
    if i == 0 {
      assert Queue(tr[0]) == [] by { assert tr[0].chain[0..] == tr[0].chain && Users(tr[0].chain[1..]) == []; }
    } else {
      Fifo(tr, acts, i - 1);
      Reachable(tr, acts, i - 1);
      assert Enabled(tr[i - 1], acts[i - 1]) && tr[i] == Do(tr[i - 1], acts[i - 1]);
      StepFifo(tr[i - 1], acts[i - 1]);
      Regroup(Left(tr, acts, i - 1), Queue(tr[i - 1]), StepIn(tr[i - 1], acts[i - 1]),
              StepOut(tr[i - 1], acts[i - 1], tr[i]), Queue(tr[i]));
    }
  }

  /** A node that a step returns is at the head, and the head moves on. */
  lemma StepPasses(s: State, a: Action, n: Node)
    requires Inv(s) && Enabled(s, a)
    ensures s.h <= Do(s, a).h && (n in s.pos ==> n in Do(s, a).pos && Do(s, a).pos[n] == s.pos[n])
    ensures StepOut(s, a, Do(s, a)) == [] || (StepOut(s, a, Do(s, a)) == [s.chain[s.h]] && s.h < Do(s, a).h)
    ensures s.chain[s.h] in s.pos && s.pos[s.chain[s.h]] == s.h
  {
    assert ChainOk(s, s.h);
    if a.Step? && s.th[a.t].ECas? { assert PcOk(s, a.t); }
    if a.Step? && s.th[a.t].DCas? && s.head == Some(s.th[a.t].head) {
      PassKeeps(s, a.t, s.th[a.t].head, s.th[a.t].to, Do(s, a));
    }
  }

  lemma RunPasses(tr: seq<State>, acts: seq<Action>, k: nat, n: Node)
    requires IsRun(tr, acts) && k < |acts|
    ensures n in tr[k].pos ==> n in tr[k + 1].pos && tr[k + 1].pos[n] == tr[k].pos[n]
    ensures var out := StepOut(tr[k], acts[k], tr[k + 1]);
      || out == []
      || (|out| == 1 && out[0] in tr[k].pos && out[0] in tr[k + 1].pos
          && tr[k].pos[out[0]] == tr[k + 1].pos[out[0]] == tr[k].h < tr[k + 1].h)
    ensures tr[k].h <= tr[k + 1].h
  {
    Reachable(tr, acts, k);
    assert Enabled(tr[k], acts[k]) && tr[k + 1] == Do(tr[k], acts[k]);
    StepPasses(tr[k], acts[k], n);
    StepPasses(tr[k], acts[k], tr[k].chain[tr[k].h]);
  }

  lemma {:induction false} HeadAdvances(tr: seq<State>, acts: seq<Action>, i: nat, j: nat, n: Node)
    requires IsRun(tr, acts) && i <= j < |tr|
    ensures tr[i].h <= tr[j].h
    ensures n in tr[i].pos ==> n in tr[j].pos && tr[j].pos[n] == tr[i].pos[n]
  {
    if i < j {
      HeadAdvances(tr, acts, i, j - 1, n);
      RunPasses(tr, acts, j - 1, n);
    }
  }

  /** Two dequeues never return the same node. */
  lemma ReturnedOnce(tr: seq<State>, acts: seq<Action>, i: nat, j: nat)
    requires IsRun(tr, acts) && i < j < |acts|
    requires StepOut(tr[i], acts[i], tr[i + 1]) != [] && StepOut(tr[j], acts[j], tr[j + 1]) != []
    ensures StepOut(tr[i], acts[i], tr[i + 1])[0] != StepOut(tr[j], acts[j], tr[j + 1])[0]
  {
    var n := StepOut(tr[i], acts[i], tr[i + 1])[0];
    RunPasses(tr, acts, i, n);
    RunPasses(tr, acts, j, n);
    HeadAdvances(tr, acts, i + 1, j, n);
  }

  /** A dequeue that returns NULL does so on loading a link at a moment when the queue
      is empty. */
  lemma NullMeansEmpty(tr: seq<State>, acts: seq<Action>, i: nat, t: Tid)
    requires IsRun(tr, acts) && i < |acts| && acts[i] == Step(t) && t in tr[i].th && tr[i].th[t].DNext?
    requires tr[i + 1].th[t] == Returned(None)
    ensures Queue(tr[i]) == [] && Entered(tr, acts, i) == Left(tr, acts, i)
  {
    Reachable(tr, acts, i);
    assert Enabled(tr[i], acts[i]) && tr[i + 1] == Do(tr[i], acts[i]);
    var s := tr[i];
    assert PcOk(s, t) && PosOk(s, s.th[t].head);
    assert s.chain[s.h..] == [s.th[t].head];
    assert Users(s.chain[s.h..][1..]) == [];
    Fifo(tr, acts, i);
  }

  /** Step `k` passes the dummy `d` and hands it to `call_rcu`. */
  predicate HandsOver(s: State, a: Action, d: Node) {
    a.Step? && a.t in s.th && s.th[a.t].DCas? && s.th[a.t].head == d && s.head == Some(d) && d.Dummy?
  }

  /** A dummy is handed to `call_rcu` exactly by the step with which the head passes it. */
  lemma FreedByHandOver(tr: seq<State>, acts: seq<Action>, i: nat, d: Node)
    requires IsRun(tr, acts) && i < |acts|
    ensures d in tr[i + 1].freed && d !in tr[i].freed <==> HandsOver(tr[i], acts[i], d)
    ensures d in tr[i].freed ==> d in tr[i + 1].freed && tr[i + 1].head != Some(d)
  {
    var s, s' := tr[i], tr[i + 1];
    Reachable(tr, acts, i);
    Reachable(tr, acts, i + 1);
    assert Enabled(s, acts[i]) && s' == Do(s, acts[i]);
    assert FreedOk(s, d) && ChainOk(s, s.h);
    assert FreedOk(s', d) && ChainOk(s', s'.h);
  }

  lemma {:induction false} StaysFreed(tr: seq<State>, acts: seq<Action>, i: nat, j: nat, d: Node)
    requires IsRun(tr, acts) && i <= j < |tr| && d in tr[i].freed
    ensures d in tr[j].freed
  {
    if i < j {
      StaysFreed(tr, acts, i, j - 1, d);
      FreedByHandOver(tr, acts, j - 1, d);
    }
  }

  /** No dummy is handed over twice. */
  lemma DummiesFreedOnce(tr: seq<State>, acts: seq<Action>, i: nat, j: nat, d: Node)
    requires IsRun(tr, acts) && i < |acts| && j < |acts|
    requires HandsOver(tr[i], acts[i], d) && HandsOver(tr[j], acts[j], d)
    ensures i == j
  {
    FreedByHandOver(tr, acts, i, d);
    FreedByHandOver(tr, acts, j, d);
    if i < j { StaysFreed(tr, acts, i + 1, j, d); } else if j < i { StaysFreed(tr, acts, j + 1, i, d); }
  }

  lemma Extend(tr: seq<State>, acts: seq<Action>, a: Action, last: State, s: State)
    returns (tr': seq<State>, acts': seq<Action>)
    requires IsRun(tr, acts) && tr[|acts|] == last && Enabled(last, a) && s == Do(last, a)
    ensures IsRun(tr', acts') && tr'[|acts'|] == s
  {
    tr', acts' := tr + [s], acts + [a];
  }

  /** The head passes the tail: a dequeuer overtakes an enqueuer that has linked its
      node and not yet swung the tail, and the tail then names a dummy that has been
      handed to `call_rcu`. */
  lemma HeadPassesTail() returns (tr: seq<State>, acts: seq<Action>)
    ensures IsRun(tr, acts)
    ensures var s := tr[|acts|]; s.tail in s.freed && s.tail in s.pos && s.pos[s.tail] < s.h
  {
    var d, n := Dummy(0), User(1);
    var swing := ESwing(n, Caller, d);
    var s0 := State(map[], Some(d), d, map[], [d], map[d := 0], 0, map[d := 0], {});
    var s1 := s0.(th := map[0 := ELoad(n, Caller)], used := map[d := 0, n := 0]);
    var s2 := s1.(th := map[0 := ECas(n, Caller, d)]);
    var s3 := State(map[d := n], Some(d), d, map[0 := swing], [d, n], map[d := 0, n := 1], 0, s1.used, {});
    tr, acts := [s0], [];
    tr, acts := Extend(tr, acts, Enqueue(0, n), s0, s1);
    tr, acts := Extend(tr, acts, Step(0), s1, s2);
    tr, acts := Extend(tr, acts, Step(0), s2, s3);
    tr, acts := Overtakes(tr, acts, d, n, s3);
  }

  lemma Overtakes(tr: seq<State>, acts: seq<Action>, d: Node, n: Node, s3: State)
    returns (tr': seq<State>, acts': seq<Action>)
    requires IsRun(tr, acts) && tr[|acts|] == s3 && d == Dummy(0) && n == User(1)
    requires s3 == State(map[d := n], Some(d), d, map[0 := ESwing(n, Caller, d)], [d, n],
                         map[d := 0, n := 1], 0, map[d := 0, n := 0], {})
    ensures IsRun(tr', acts')
    ensures var s := tr'[|acts'|]; s.tail in s.freed && s.tail in s.pos && s.pos[s.tail] < s.h
  {
    var s4 := Go(s3, 1, DLoad);
    var s5 := Go(s4, 1, DNext(d));
    var s6 := Go(s5, 1, DCas(d, Some(n)));
    var s7 := Go(s6, 1, DLoad).(head := Some(n), h := 1, freed := {d});
    assert Do(s4, Step(1)) == s5;
    assert Do(s5, Step(1)) == s6;
    Passes(s6, d, n);
    tr', acts' := Extend(tr, acts, Dequeue(1), s3, s4);
    tr', acts' := Extend(tr', acts', Step(1), s4, s5);
    tr', acts' := Extend(tr', acts', Step(1), s5, s6);
    tr', acts' := Extend(tr', acts', Step(1), s6, s7);
  }

  lemma Passes(s: State, d: Node, n: Node)
    requires 1 in s.th && s.th[1] == DCas(d, Some(n)) && d.Dummy? && s.head == Some(d) && s.h == 0 && s.freed == {}
    ensures Enabled(s, Step(1)) && Do(s, Step(1)) == Go(s, 1, DLoad).(head := Some(n), h := 1, freed := {d})
  {
  }
}
