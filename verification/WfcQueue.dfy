/** The wait-free concurrent queue: any number of enqueuers, and one dequeuer or
    splicer for each queue.  An enqueue takes effect at its exchange of the tail; the
    link from the old tail is stored later, so the list in memory has gaps.  One
    action is one shared access. */
module WfcQueue {
  import opened Sequences


  type Node = nat
  type Qid = nat
  type Tid = nat

  /** A word holding a `next` pointer: a queue's head node or a queued node. */
  datatype Cell = Head(q: Qid) | Item(n: Node)

  datatype Result = Got(node: Node, last: bool) | Null | WouldBlock | SrcEmpty

  /** The dequeue or splice in progress on a queue; `b` is the blocking flag. */
  datatype Cons =
    | Idle
    | Returned(r: Result)
    | DqHead(b: bool)
    | DqTail(b: bool)
    | DqFirst(b: bool)
    | DqNext(b: bool, node: Node)
    | DqClear(b: bool, node: Node)
    | DqCas(b: bool, node: Node)
    | DqSync(b: bool, node: Node)
    | DqRestore(node: Node)
    | DqStore(node: Node, next: Node)
    | SpHead(b: bool, d: Qid)
    | SpTail(b: bool, d: Qid)
    | SpXchg(b: bool, d: Qid)
    | SpCheck(b: bool, d: Qid)
    | SpTake(d: Qid, node: Node)

  /** An append in progress: nodes taken off one queue and not yet on the next, or the
      tail exchanged and the link not yet stored.  `nonEmpty` is the value the append
      returns. */
  datatype Thread =
    | Append(node: Node, last: Cell, d: Qid)
    | Linking(old_tail: Cell, node: Node, nonEmpty: bool)

  /** Where nodes are (history): on a queue, or in flight between two. */
  datatype Place = On(q: Qid) | Flight(t: Tid)

  datatype Pend = Pend(t: Tid, node: Node)

  /** A cell not in `next` holds NULL.  `at` (history) is the abstract state: each
      queue, and each splice in flight, as a sequence; `pend` (history) are the links
      still to be stored. */
  datatype State = State(
    next: map<Cell, Node>, tail: map<Qid, Cell>, cons: map<Qid, Cons>, th: map<Tid, Thread>,
    at: map<Place, seq<Node>>, pend: map<Cell, Pend>)

  datatype Action =
    | Enqueue(t: Tid, q: Qid, n: Node)
    | Link(t: Tid)
    | Dequeue(q: Qid, b: bool)
    | Splice(q: Qid, b: bool, d: Qid)
    | Step(q: Qid)
    | TakeTail(q: Qid, t: Tid)
    | AppendTail(t: Tid)

  predicate Resting(c: Cons) { c.Idle? || c.Returned? }

  /** A node that is neither queued nor in flight: its owner may do with it what it likes. */
  ghost predicate Free(s: State, n: Node) { forall p {:trigger s.at[p]} | p in s.at :: n !in s.at[p] }

  ghost predicate Enabled(s: State, a: Action) {
    match a
    case Enqueue(t, q, n) => t !in s.th && q in s.tail && Free(s, n) && On(q) in s.at
    case Link(t) => t in s.th && s.th[t].Linking?
    case Dequeue(q, b) => q in s.cons && Resting(s.cons[q])
    case Splice(q, b, d) => q in s.cons && Resting(s.cons[q]) && d in s.tail
    case Step(q) => q in s.cons && q in s.tail && On(q) in s.at && !Resting(s.cons[q]) && !s.cons[q].SpTake?
    case TakeTail(q, t) => q in s.cons && q in s.tail && On(q) in s.at && s.cons[q].SpTake? && t !in s.th
    case AppendTail(t) =>
      t in s.th && s.th[t].Append? && s.th[t].d in s.tail && On(s.th[t].d) in s.at && Flight(t) in s.at
  }

  function Go(s: State, q: Qid, c: Cons): State { s.(cons := s.cons[q := c]) }

  function Load(s: State, x: Cell): Option<Node> { if x in s.next then Some(s.next[x]) else None }

  function Rest(w: seq<Node>): seq<Node> { if w == [] then [] else w[1..] }

  /** `_cds_wfcq_node_init` and the append of a single node: the exchange of the tail. */
  function DoEnqueue(s: State, t: Tid, q: Qid, n: Node): State
    requires q in s.tail && On(q) in s.at
  {
    State(s.next - {Item(n)}, s.tail[q := Item(n)], s.cons, s.th[t := Linking(s.tail[q], n, s.tail[q] != Head(q))],
          s.at[On(q) := s.at[On(q)] + [n]], s.pend[s.tail[q] := Pend(t, n)])
  }

  function DoLink(s: State, t: Tid, x: Cell, n: Node): State {
    s.(next := s.next[x := n], th := s.th - {t}, pend := s.pend - {x})
  }

  /** The consumer's steps that only load. */
  function DoLoad(s: State, q: Qid, c: Cons): Cons
    requires q in s.tail
  {
    match c
    case DqHead(b) => if Head(q) in s.next then DqFirst(b) else DqTail(b)
    case DqTail(b) => if s.tail[q] == Head(q) then Returned(Null) else DqFirst(b)
    case DqFirst(b) =>
      if Head(q) in s.next then DqNext(b, s.next[Head(q)]) else if b then c else Returned(WouldBlock)
    case DqNext(b, node) => if Item(node) in s.next then DqStore(node, s.next[Item(node)]) else DqClear(b, node)
    case DqSync(b, node) =>
      if Item(node) in s.next then DqStore(node, s.next[Item(node)]) else if b then c else DqRestore(node)
    case SpHead(b, d) => if Head(q) in s.next then SpXchg(b, d) else SpTail(b, d)
    case SpTail(b, d) => if s.tail[q] == Head(q) then Returned(SrcEmpty) else SpXchg(b, d)
    case SpCheck(b, d) =>
      if s.tail[q] == Head(q) then Returned(SrcEmpty) else if b then SpXchg(b, d) else Returned(WouldBlock)
    case _ => c
  }

  predicate Loads(c: Cons) {
    c.DqHead? || c.DqTail? || c.DqFirst? || c.DqNext? || c.DqSync? || c.SpHead? || c.SpTail? || c.SpCheck?
  }

  /** The consumer's steps that store, compare-and-swap or exchange. */
  function DoWrite(s: State, q: Qid, c: Cons): State
    requires q in s.tail && On(q) in s.at
  {
    match c
    case DqClear(b, node) => Go(s, q, DqCas(b, node)).(next := s.next - {Head(q)})
    case DqCas(b, node) =>
      if s.tail[q] == Item(node) then
        Go(s, q, Returned(Got(node, true))).(tail := s.tail[q := Head(q)], at := s.at[On(q) := Rest(s.at[On(q)])])
      else Go(s, q, DqSync(b, node))
    case DqRestore(node) => Go(s, q, Returned(WouldBlock)).(next := s.next[Head(q) := node])
    case DqStore(node, next) =>
      Go(s, q, Returned(Got(node, false))).(next := s.next[Head(q) := next], at := s.at[On(q) := Rest(s.at[On(q)])])
    case SpXchg(b, d) =>
      if Head(q) in s.next then Go(s, q, SpTake(d, s.next[Head(q)])).(next := s.next - {Head(q)})
      else Go(s, q, SpCheck(b, d))
    case _ => s
  }

  /** The splicer's exchange of the source's tail.  What is left of the splice is an
      append; the source's caller excludes other consumers until the return, which
      nothing needs from here on. */
  function DoTake(s: State, q: Qid, t: Tid, node: Node, d: Qid): State
    requires q in s.tail && On(q) in s.at
  {
    State(s.next, s.tail[q := Head(q)], s.cons[q := Idle], s.th[t := Append(node, s.tail[q], d)],
          s.at[Flight(t) := s.at[On(q)]][On(q) := []], s.pend)
  }

  function DoAppend(s: State, t: Tid, node: Node, last: Cell, d: Qid): State
    requires d in s.tail && On(d) in s.at && Flight(t) in s.at
  {
    State(s.next, s.tail[d := last], s.cons, s.th[t := Linking(s.tail[d], node, s.tail[d] != Head(d))],
          s.at[On(d) := s.at[On(d)] + s.at[Flight(t)]] - {Flight(t)}, s.pend[s.tail[d] := Pend(t, node)])
  }

  function Do(s: State, a: Action): State
    requires Enabled(s, a)
  {
    match a
    case Enqueue(t, q, n) => DoEnqueue(s, t, q, n)
    case Link(t) => DoLink(s, t, s.th[t].old_tail, s.th[t].node)
    case Dequeue(q, b) => Go(s, q, DqHead(b))
    case Splice(q, b, d) => Go(s, q, SpHead(b, d))
    case Step(q) => if Loads(s.cons[q]) then Go(s, q, DoLoad(s, q, s.cons[q])) else DoWrite(s, q, s.cons[q])
    case TakeTail(q, t) => DoTake(s, q, t, s.cons[q].node, s.cons[q].d)
    case AppendTail(t) => DoAppend(s, t, s.th[t].node, s.th[t].last, s.th[t].d)
  }

  /** Any number of queues, all empty. */
  ghost predicate Init(s: State) {
    && s.next == map[] && s.th == map[] && s.pend == map[]
    && s.tail.Keys == s.cons.Keys
    && (forall q {:trigger s.tail[q]} | q in s.tail :: s.tail[q] == Head(q) && s.cons[q] == Idle)
    && (forall p {:trigger p in s.at} :: p in s.at <==> p.On? && p.q in s.tail)
    && (forall p {:trigger s.at[p]} | p in s.at :: s.at[p] == [])
  }

  // --- the invariant --------------------------------------------------------------------

  /** The next node of a cell, whether its link is stored or still to be. */
  function Succ(s: State, x: Cell): Option<Node> {
    if x in s.next then Some(s.next[x]) else if x in s.pend then Some(s.pend[x].node) else None
  }

  function Nth(w: seq<Node>, i: nat): Option<Node> { if i < |w| then Some(w[i]) else None }

  function LastCell(q: Qid, w: seq<Node>): Cell { if w == [] then Head(q) else Item(w[|w| - 1]) }

  predicate Placed(s: State, p: Place, i: int) { p in s.at && 0 <= i < |s.at[p]| }

  predicate PlaceOk(s: State, p: Place) {
    p in s.at <==> if p.On? then p.q in s.tail else p.t in s.th && s.th[p.t].Append?
  }

  /** Each node's logical successor is the next in its sequence. */
  predicate NodeOk(s: State, p: Place, i: int) {
    Placed(s, p, i) ==> Succ(s, Item(s.at[p][i])) == Nth(s.at[p], i + 1)
  }

  /** No node is in two places. */
  predicate Apart(s: State, p: Place, i: int, r: Place, j: int) {
    Placed(s, p, i) && Placed(s, r, j) && s.at[p][i] == s.at[r][j] ==> p == r && i == j
  }

  /** The consumer has set `head.next` to NULL and not yet dealt with the first node. */
  predicate TookHead(c: Cons) { c.DqCas? || c.DqSync? || c.DqRestore? || c.SpTake? }

  predicate HeadOk(s: State, q: Qid) {
    q in s.tail ==>
      && q in s.cons && On(q) in s.at
      && var w := s.at[On(q)]; var c := s.cons[q];
        && s.tail[q] == LastCell(q, w)
        && (TookHead(c) ==> w != [] && w[0] == c.node && Head(q) !in s.next && Head(q) !in s.pend)
        && (c.DqSync? || c.DqRestore? ==> |w| >= 2)
        && (c.DqStore? ==>
              |w| >= 2 && w[0] == c.node && w[1] == c.next && Item(w[0]) in s.next && Head(q) !in s.pend
              && (Head(q) in s.next ==> s.next[Head(q)] == w[0]))
        && (!TookHead(c) && !c.DqStore? ==> Succ(s, Head(q)) == Nth(w, 0))
        && (c.DqFirst? || c.SpXchg? || c.SpCheck? ==> w != [])
        && (c.DqNext? || c.DqClear? ==> w != [] && w[0] == c.node && Head(q) in s.next)
        && (c.SpHead? || c.SpTail? || c.SpXchg? || c.SpCheck? || c.SpTake? ==> c.d in s.tail)
  }

  predicate ThreadOk(s: State, t: Tid) {
    t in s.th ==>
      match s.th[t]
      case Linking(x, n, _) => x in s.pend && s.pend[x] == Pend(t, n)
      case Append(n, last, d) =>
        && Flight(t) in s.at && s.at[Flight(t)] != [] && n == s.at[Flight(t)][0] && d in s.tail
        && last == Item(s.at[Flight(t)][|s.at[Flight(t)]| - 1])
  }

  ghost predicate PendOk(s: State, x: Cell) {
    x in s.pend ==>
      && x !in s.next
      && s.pend[x].t in s.th && s.th[s.pend[x].t].Linking?
      && s.th[s.pend[x].t].old_tail == x && s.th[s.pend[x].t].node == s.pend[x].node
      && (if x.Item? then !Free(s, x.n) else x.q in s.tail)
  }

  ghost predicate Inv(s: State) {
    && s.cons.Keys == s.tail.Keys
    && (forall p {:trigger PlaceOk(s, p)} :: PlaceOk(s, p))
    && (forall p, i {:trigger NodeOk(s, p, i)} :: NodeOk(s, p, i))
    && (forall p, i, r, j {:trigger Apart(s, p, i, r, j)} :: Apart(s, p, i, r, j))
    && (forall q {:trigger HeadOk(s, q)} :: HeadOk(s, q))
    && (forall t {:trigger ThreadOk(s, t)} :: ThreadOk(s, t))
    && (forall x {:trigger PendOk(s, x)} :: PendOk(s, x))
  }

  lemma InitInv(s: State)
    requires Init(s)
    ensures Inv(s)
  {
  }

  // --- every step keeps it --------------------------------------------------------------

  lemma TailIsFree(s: State, q: Qid)
    requires Inv(s) && q in s.tail
    ensures HeadOk(s, q) && s.tail[q] !in s.pend && s.tail[q] !in s.next
    ensures s.tail[q].Item? ==> s.at[On(q)] != [] && s.tail[q].n == s.at[On(q)][|s.at[On(q)]| - 1]
    ensures s.tail[q].Head? ==> s.at[On(q)] == [] && s.tail[q].q == q
  {
    assert HeadOk(s, q);
    assert NodeOk(s, On(q), |s.at[On(q)]| - 1);
  }

  lemma EnqueuedNodes(s: State, t: Tid, q: Qid, n: Node, p: Place, i: int)
    requires Inv(s) && Enabled(s, Enqueue(t, q, n))
    ensures NodeOk(DoEnqueue(s, t, q, n), p, i)
  {
    TailIsFree(s, q);
    assert PendOk(s, Item(n));
    assert NodeOk(s, p, i) && Apart(s, p, i, On(q), |s.at[On(q)]| - 1);
  }

  lemma Enqueued(s: State, t: Tid, q: Qid, n: Node)
    requires Inv(s) && Enabled(s, Enqueue(t, q, n))
    ensures Inv(DoEnqueue(s, t, q, n))
  {
    var t' := DoEnqueue(s, t, q, n);
    TailIsFree(s, q);
    assert PendOk(s, Item(n));
    forall p: Place {:trigger PlaceOk(t', p)} ensures PlaceOk(t', p) { assert PlaceOk(s, p); }
    forall p: Place, i: int {:trigger NodeOk(t', p, i)} ensures NodeOk(t', p, i) { EnqueuedNodes(s, t, q, n, p, i); }
    forall p: Place, i: int, r: Place, j: int {:trigger Apart(t', p, i, r, j)} ensures Apart(t', p, i, r, j) {
      assert Apart(s, p, i, r, j);
    }
    forall h: Qid {:trigger HeadOk(t', h)} ensures HeadOk(t', h) { assert HeadOk(s, h); }
    forall u: Tid {:trigger ThreadOk(t', u)} ensures ThreadOk(t', u) { assert ThreadOk(s, u); }
    forall z: Cell {:trigger PendOk(t', z)} ensures PendOk(t', z) {
      assert PendOk(s, z);
      if z.Item? && z in s.pend {
        var p :| p in s.at && z.n in s.at[p];
        assert z.n in DoEnqueue(s, t, q, n).at[p];
      }
      if z == s.tail[q] && z.Item? { assert z.n in DoEnqueue(s, t, q, n).at[On(q)]; }
    }
  }

  lemma Linked(s: State, t: Tid, x: Cell, n: Node)
    requires Inv(s) && t in s.th && s.th[t].Linking? && s.th[t].old_tail == x && s.th[t].node == n
    ensures Inv(DoLink(s, t, x, n))
  {
    var t' := DoLink(s, t, x, n);
    assert ThreadOk(s, t) && PendOk(s, x);
    forall p: Place {:trigger PlaceOk(t', p)} ensures PlaceOk(t', p) { assert PlaceOk(s, p); }
    forall p: Place, i: int {:trigger NodeOk(t', p, i)} ensures NodeOk(t', p, i) { assert NodeOk(s, p, i); }
    forall p: Place, i: int, r: Place, j: int {:trigger Apart(t', p, i, r, j)} ensures Apart(t', p, i, r, j) {
      assert Apart(s, p, i, r, j);
    }
    forall h: Qid {:trigger HeadOk(t', h)} ensures HeadOk(t', h) { assert HeadOk(s, h); }
    forall u: Tid {:trigger ThreadOk(t', u)} ensures ThreadOk(t', u) { assert ThreadOk(s, u); }
    forall z: Cell {:trigger PendOk(t', z)} ensures PendOk(t', z) {
      assert PendOk(s, z);
      if z.Item? && z in s.pend {
        var p :| p in s.at && z.n in s.at[p];
        assert z.n in DoLink(s, t, x, n).at[p];
      }
    }
  }

  lemma Taken(s: State, q: Qid, t: Tid, node: Node, d: Qid)
    requires Inv(s) && Enabled(s, TakeTail(q, t)) && node == s.cons[q].node && d == s.cons[q].d
    ensures Inv(DoTake(s, q, t, node, d))
  {
    var t' := DoTake(s, q, t, node, d);
    TailIsFree(s, q);
    assert PlaceOk(s, Flight(t));
    forall p: Place {:trigger PlaceOk(t', p)} ensures PlaceOk(t', p) { assert PlaceOk(s, p); }
    forall p: Place, i: int {:trigger NodeOk(t', p, i)} ensures NodeOk(t', p, i) {
      var w := if p == Flight(t) then On(q) else p;
      assert NodeOk(s, w, i);
    }
    forall p: Place, i: int, r: Place, j: int {:trigger Apart(t', p, i, r, j)} ensures Apart(t', p, i, r, j) {
      var w := if p == Flight(t) then On(q) else p;
      var v := if r == Flight(t) then On(q) else r;
      assert Apart(s, w, i, v, j);
    }
    forall h: Qid {:trigger HeadOk(t', h)} ensures HeadOk(t', h) { assert HeadOk(s, h); }
    forall u: Tid {:trigger ThreadOk(t', u)} ensures ThreadOk(t', u) { assert ThreadOk(s, u); }
    forall z: Cell {:trigger PendOk(t', z)} ensures PendOk(t', z) {
      assert PendOk(s, z);
      if z.Item? && z in s.pend {
        var p :| p in s.at && z.n in s.at[p];
        var w := if p == On(q) then Flight(t) else p;
        assert z.n in DoTake(s, q, t, node, d).at[w];
      }
    }
  }

  lemma AppendedNodes(s: State, t: Tid, node: Node, last: Cell, d: Qid, p: Place, i: int)
    requires Inv(s) && Enabled(s, AppendTail(t)) && s.th[t] == Append(node, last, d)
    ensures NodeOk(DoAppend(s, t, node, last, d), p, i)
  {
    TailIsFree(s, d);
    assert ThreadOk(s, t) && PlaceOk(s, Flight(t));
    var k := |s.at[On(d)]|;
    assert NodeOk(s, p, i) && NodeOk(s, Flight(t), i - k);
    assert Apart(s, p, i, On(d), k - 1) && Apart(s, Flight(t), i - k, On(d), k - 1);
  }

  lemma AppendedApart(s: State, t: Tid, node: Node, last: Cell, d: Qid, p: Place, i: int, r: Place, j: int)
    requires Inv(s) && Enabled(s, AppendTail(t)) && s.th[t] == Append(node, last, d)
    ensures Apart(DoAppend(s, t, node, last, d), p, i, r, j)
  {
    TailIsFree(s, d);
    assert ThreadOk(s, t) && PlaceOk(s, Flight(t));
    var k := |s.at[On(d)]|;
    var w := if p == On(d) && i >= k then Flight(t) else p;
    var v := if r == On(d) && j >= k then Flight(t) else r;
    assert Apart(s, w, if w == p then i else i - k, v, if v == r then j else j - k);
  }

  lemma Appended(s: State, t: Tid, node: Node, last: Cell, d: Qid)
    requires Inv(s) && Enabled(s, AppendTail(t)) && s.th[t] == Append(node, last, d)
    ensures Inv(DoAppend(s, t, node, last, d))
  {
    var t' := DoAppend(s, t, node, last, d);
    TailIsFree(s, d);
    assert ThreadOk(s, t) && PlaceOk(s, Flight(t));
    forall p: Place {:trigger PlaceOk(t', p)} ensures PlaceOk(t', p) { assert PlaceOk(s, p); }
    forall p: Place, i: int {:trigger NodeOk(t', p, i)} ensures NodeOk(t', p, i) {
      AppendedNodes(s, t, node, last, d, p, i);
    }
    forall p: Place, i: int, r: Place, j: int {:trigger Apart(t', p, i, r, j)} ensures Apart(t', p, i, r, j) {
      AppendedApart(s, t, node, last, d, p, i, r, j);
    }
    forall h: Qid {:trigger HeadOk(t', h)} ensures HeadOk(t', h) { assert HeadOk(s, h); }
    forall u: Tid {:trigger ThreadOk(t', u)} ensures ThreadOk(t', u) { assert ThreadOk(s, u); }
    forall z: Cell {:trigger PendOk(t', z)} ensures PendOk(t', z) {
      assert PendOk(s, z);
      if z.Item? && z in s.pend {
        var p :| p in s.at && z.n in s.at[p];
        var w := if p == Flight(t) then On(d) else p;
        assert z.n in DoAppend(s, t, node, last, d).at[w];
      }
      if z == s.tail[d] && z.Item? { assert z.n in DoAppend(s, t, node, last, d).at[On(d)]; }
    }
  }

  lemma Moved(s: State, q: Qid, c: Cons)
    requires Inv(s) && q in s.tail && HeadOk(Go(s, q, c), q)
    ensures Inv(Go(s, q, c))
  {
    var t' := Go(s, q, c);
    forall p: Place {:trigger PlaceOk(t', p)} ensures PlaceOk(t', p) { assert PlaceOk(s, p); }
    forall p: Place, i: int {:trigger NodeOk(t', p, i)} ensures NodeOk(t', p, i) { assert NodeOk(s, p, i); }
    forall p: Place, i: int, r: Place, j: int {:trigger Apart(t', p, i, r, j)} ensures Apart(t', p, i, r, j) {
      assert Apart(s, p, i, r, j);
    }
    forall h: Qid {:trigger HeadOk(t', h)} ensures HeadOk(t', h) { assert HeadOk(s, h); }
    forall u: Tid {:trigger ThreadOk(t', u)} ensures ThreadOk(t', u) { assert ThreadOk(s, u); }
    forall z: Cell {:trigger PendOk(t', z)} ensures PendOk(t', z) {
      assert PendOk(s, z);
      if z.Item? && z in s.pend {
        var p :| p in s.at && z.n in s.at[p];
        assert z.n in Go(s, q, c).at[p];
      }
    }
  }

  lemma HeadSet(s: State, q: Qid, c: Cons, n: Node, t: State)
    requires Inv(s) && q in s.tail && HeadOk(t, q) && Head(q) !in s.pend
    requires t == s.(next := t.next, cons := s.cons[q := c])
    requires t.next == s.next - {Head(q)} || t.next == s.next[Head(q) := n]
    ensures Inv(t)
  {
    var t' := t;
    forall p: Place {:trigger PlaceOk(t', p)} ensures PlaceOk(t', p) { assert PlaceOk(s, p); }
    forall p: Place, i: int {:trigger NodeOk(t', p, i)} ensures NodeOk(t', p, i) { assert NodeOk(s, p, i); }
    forall p: Place, i: int, r: Place, j: int {:trigger Apart(t', p, i, r, j)} ensures Apart(t', p, i, r, j) {
      assert Apart(s, p, i, r, j);
    }
    forall h: Qid {:trigger HeadOk(t', h)} ensures HeadOk(t', h) { assert HeadOk(s, h); }
    forall u: Tid {:trigger ThreadOk(t', u)} ensures ThreadOk(t', u) { assert ThreadOk(s, u); }
    forall z: Cell {:trigger PendOk(t', z)} ensures PendOk(t', z) {
      assert PendOk(s, z);
      if z.Item? && z in s.pend {
        var p :| p in s.at && z.n in s.at[p];
        assert z.n in t.at[p];
      }
    }
  }

  lemma TakenOff(s: State, q: Qid, c: Cons, n: Node, t: State)
    requires Inv(s) && q in s.tail && On(q) in s.at && s.at[On(q)] != [] && HeadOk(t, q) && Head(q) !in s.pend
    requires Item(s.at[On(q)][0]) !in s.pend
    requires t == State(t.next, t.tail, s.cons[q := c], s.th, s.at[On(q) := Rest(s.at[On(q)])], s.pend)
    requires t.next == s.next || t.next == s.next[Head(q) := n]
    requires t.tail == s.tail || t.tail == s.tail[q := Head(q)]
    ensures Inv(t)
  {
    var t' := t;
    forall p: Place {:trigger PlaceOk(t', p)} ensures PlaceOk(t', p) { assert PlaceOk(s, p); }
    forall p: Place, i: int {:trigger NodeOk(t', p, i)} ensures NodeOk(t', p, i) {
      assert NodeOk(s, p, if p == On(q) then i + 1 else i);
    }
    forall p: Place, i: int, r: Place, j: int {:trigger Apart(t', p, i, r, j)} ensures Apart(t', p, i, r, j) {
      assert Apart(s, p, if p == On(q) then i + 1 else i, r, if r == On(q) then j + 1 else j);
    }
    forall h: Qid {:trigger HeadOk(t', h)} ensures HeadOk(t', h) { assert HeadOk(s, h); }
    forall u: Tid {:trigger ThreadOk(t', u)} ensures ThreadOk(t', u) { assert ThreadOk(s, u); }
    forall z: Cell {:trigger PendOk(t', z)} ensures PendOk(t', z) {
      assert PendOk(s, z);
      if z.Item? && z in s.pend {
        var p :| p in s.at && z.n in s.at[p];
        var k :| 0 <= k < |s.at[p]| && s.at[p][k] == z.n;
        assert z.n in t.at[p] by { if p == On(q) { assert t.at[p][k - 1] == z.n; } }
      }
    }
  }

  lemma LoadKeeps(s: State, q: Qid)
    requires Inv(s) && Enabled(s, Step(q)) && Loads(s.cons[q])
    ensures Inv(Do(s, Step(q)))
  {
    assert HeadOk(s, q) && PendOk(s, Head(q));
    if s.cons[q].DqNext? || s.cons[q].DqSync? { assert NodeOk(s, On(q), 0); }
    if s.cons[q].DqSync? && |s.at[On(q)]| >= 2 { assert PendOk(s, Item(s.cons[q].node)); }
    Moved(s, q, DoLoad(s, q, s.cons[q]));
  }

  lemma CasKeeps(s: State, q: Qid)
    requires Inv(s) && Enabled(s, Step(q)) && s.cons[q].DqCas?
    ensures Inv(Do(s, Step(q)))
    ensures s.tail[q] == Item(s.cons[q].node) ==> |s.at[On(q)]| == 1
  {
    var c := s.cons[q];
    var w := s.at[On(q)];
    assert HeadOk(s, q) && NodeOk(s, On(q), 0) && Apart(s, On(q), 0, On(q), |w| - 1);
    if s.tail[q] == Item(c.node) {
      TakenOff(s, q, Returned(Got(c.node, true)), c.node, Do(s, Step(q)));
    } else {
      Moved(s, q, DqSync(c.b, c.node));
    }
  }

  lemma WriteKeeps(s: State, q: Qid)
    requires Inv(s) && Enabled(s, Step(q)) && !Loads(s.cons[q]) && !s.cons[q].DqCas?
    ensures Inv(Do(s, Step(q)))
  {
    var c := s.cons[q];
    var t := Do(s, Step(q));
    assert HeadOk(s, q) && PendOk(s, Head(q));
    match c
    case DqClear(b, node) => HeadSet(s, q, DqCas(b, node), node, t);
    case DqRestore(node) => HeadSet(s, q, Returned(WouldBlock), node, t);
    case DqStore(node, next) =>
      assert PendOk(s, Item(node));
      TakenOff(s, q, Returned(Got(node, false)), next, t);
    case SpXchg(b, d) =>
      if Head(q) in s.next { HeadSet(s, q, SpTake(d, s.next[Head(q)]), 0, t); } else { Moved(s, q, SpCheck(b, d)); }
    case _ =>
  }

  lemma StepInv(s: State, a: Action)
    requires Inv(s) && Enabled(s, a)
    ensures Inv(Do(s, a))
  {
    match a
    case Enqueue(t, q, n) => Enqueued(s, t, q, n);
    case Link(t) => Linked(s, t, s.th[t].old_tail, s.th[t].node);
    case Dequeue(q, b) =>
      assert HeadOk(s, q);
      Moved(s, q, DqHead(b));
    case Splice(q, b, d) =>
      assert HeadOk(s, q);
      Moved(s, q, SpHead(b, d));
    case Step(q) =>
      if Loads(s.cons[q]) { LoadKeeps(s, q); } else if s.cons[q].DqCas? { CasKeeps(s, q); } else { WriteKeeps(s, q); }
    case TakeTail(q, t) => Taken(s, q, t, s.cons[q].node, s.cons[q].d);
    case AppendTail(t) => Appended(s, t, s.th[t].node, s.th[t].last, s.th[t].d);
  }

  // --- the abstract queue ---------------------------------------------------------------

  /** The tail exchange tells whether the queue was empty, and `head.next` is NULL on an
      empty queue, so both loads of `_cds_wfcq_empty` are right at their moment. */
  lemma EmptyIffTailAtHead(s: State, q: Qid)
    requires Inv(s) && q in s.tail
    ensures On(q) in s.at && (s.tail[q] == Head(q) <==> s.at[On(q)] == [])
    ensures Head(q) in s.next ==> s.at[On(q)] != []
  {
    assert HeadOk(s, q);
  }

  /** What a consumer's step does to the queues, from what it returns. */
  lemma ConsumerRefines(s: State, q: Qid)
    requires Inv(s) && Enabled(s, Step(q))
    ensures var t := Do(s, Step(q)); var w := s.at[On(q)];
      match t.cons[q]
      case Returned(Got(n, last)) => w != [] && n == w[0] && (last <==> |w| == 1) && t.at == s.at[On(q) := w[1..]]
      case Returned(Null) => w == [] && t.at == s.at
      case Returned(SrcEmpty) => w == [] && t.at == s.at
      case _ => t.at == s.at
  {
    assert HeadOk(s, q);
    if s.cons[q].DqCas? { CasKeeps(s, q); }
  }

  /** What the other steps do: an append adds at the end, whole, and reports whether
      the queue had anything; a splice takes the whole queue, and holds its ends. */
  lemma ProducerRefines(s: State, a: Action)
    requires Inv(s) && Enabled(s, a) && !a.Step?
    ensures var t := Do(s, a);
      match a
      case Enqueue(u, q, n) => t.at == s.at[On(q) := s.at[On(q)] + [n]] && (t.th[u].nonEmpty <==> s.at[On(q)] != [])
      case TakeTail(q, u) => t.at == s.at[Flight(u) := s.at[On(q)]][On(q) := []] && s.at[On(q)] != []
                             && t.th[u].node == s.at[On(q)][0] && t.th[u].last == Item(s.at[On(q)][|s.at[On(q)]| - 1])
      case AppendTail(u) =>
        && t.at == s.at[On(s.th[u].d) := s.at[On(s.th[u].d)] + s.at[Flight(u)]] - {Flight(u)}
        && (t.th[u].nonEmpty <==> s.at[On(s.th[u].d)] != [])
      case _ => t.at == s.at
  {
    match a
    case Enqueue(u, q, n) => EmptyIffTailAtHead(s, q);
    case TakeTail(q, u) => TailIsFree(s, q);
    case AppendTail(u) => EmptyIffTailAtHead(s, s.th[u].d);
    case _ =>
  }

  /** Some append has exchanged a tail holding `x` and not yet stored the link. */
  ghost predicate Halfway(s: State, x: Cell) {
    exists t {:trigger s.th[t]} :: t in s.th && s.th[t].Linking? && s.th[t].old_tail == x
  }

  /** A consumer only ever blocks, or returns WOULDBLOCK, because of an enqueuer that is
      between its exchange and its store. */
  lemma BlockedByEnqueuer(s: State, q: Qid)
    requires Inv(s) && Enabled(s, Step(q))
    ensures s.cons[q].DqFirst? && Head(q) !in s.next ==> Halfway(s, Head(q))
    ensures s.cons[q].SpCheck? ==> s.at[On(q)] != []
    ensures s.cons[q].DqSync? && Item(s.cons[q].node) !in s.next ==> Halfway(s, Item(s.cons[q].node))
  {
    assert HeadOk(s, q) && NodeOk(s, On(q), 0);
    assert PendOk(s, Head(q));
    if s.cons[q].DqSync? { assert PendOk(s, Item(s.cons[q].node)); }
  }

  /** Iteration: `next` of a queued node is the one behind it, and a NULL next at the
      tail is the end; anywhere else it is an append halfway. */
  lemma NextInQueue(s: State, q: Qid, i: nat)
    requires Inv(s) && q in s.tail && On(q) in s.at && i < |s.at[On(q)]|
    ensures var w := s.at[On(q)];
      && (Item(w[i]) in s.next ==> i + 1 < |w| && s.next[Item(w[i])] == w[i + 1])
      && (s.tail[q] == Item(w[i]) <==> i + 1 == |w|)
      && (Item(w[i]) !in s.next && s.tail[q] != Item(w[i]) ==> Halfway(s, Item(w[i])))
  {
    var w := s.at[On(q)];
    assert HeadOk(s, q) && NodeOk(s, On(q), i) && Apart(s, On(q), i, On(q), |w| - 1);
    assert PendOk(s, Item(w[i]));
  }

  /** A node that has been returned may be reused or freed at once: nobody holds it, and
      no link to be stored is in it. */
  lemma FreeIsUntouched(s: State, n: Node, t: Tid, q: Qid)
    requires Inv(s) && Free(s, n)
    ensures t in s.th ==> s.th[t].node != n
    ensures t in s.th && s.th[t].Linking? ==> s.th[t].old_tail != Item(n)
    ensures t in s.th && s.th[t].Append? ==> s.th[t].last != Item(n)
    ensures q in s.tail ==> s.tail[q] != Item(n) && (Head(q) in s.next ==> s.next[Head(q)] != n)
    ensures q in s.cons && !Resting(s.cons[q])
            && (TookHead(s.cons[q]) || s.cons[q].DqNext? || s.cons[q].DqClear? || s.cons[q].DqStore?) ==>
              s.cons[q].node != n
  {
    assert HeadOk(s, q);
    if t in s.th {
      assert ThreadOk(s, t);
      if s.th[t].Linking? {
        var x := s.th[t].old_tail;
        assert PendOk(s, x);
        if x.Head? {
          assert HeadOk(s, x.q);
        } else {
          var p :| p in s.at && x.n in s.at[p];
          var k :| 0 <= k < |s.at[p]| && s.at[p][k] == x.n;
          assert NodeOk(s, p, k);
        }
      }
    }
  }

  // --- runs -----------------------------------------------------------------------------

  ghost predicate IsRun(tr: seq<State>, acts: seq<Action>) {
    && |tr| == |acts| + 1 && Init(tr[0])
    && forall i {:trigger acts[i]} {:trigger tr[i + 1]} | 0 <= i < |acts| ::
      Enabled(tr[i], acts[i]) && tr[i + 1] == Do(tr[i], acts[i])
  }

  lemma {:induction false} Reachable(tr: seq<State>, acts: seq<Action>, i: nat)
    requires IsRun(tr, acts) && i < |tr|
    ensures Inv(tr[i])
  {
    if i == 0 {
      InitInv(tr[0]);
    } else {
      Reachable(tr, acts, i - 1);
      assert Enabled(tr[i - 1], acts[i - 1]) && tr[i] == Do(tr[i - 1], acts[i - 1]);
      StepInv(tr[i - 1], acts[i - 1]);
    }
  }

  function Queue(s: State, q: Qid): seq<Node> { if On(q) in s.at then s.at[On(q)] else [] }

  function InFlight(s: State, t: Tid): seq<Node> { if Flight(t) in s.at then s.at[Flight(t)] else [] }

  /** What a step appends to `q` at its exchange of the tail. */
  function StepIn(s: State, a: Action, q: Qid): seq<Node> {
    match a
    case Enqueue(t, p, n) => if p == q then [n] else []
    case AppendTail(t) => if t in s.th && s.th[t].Append? && s.th[t].d == q then InFlight(s, t) else []
    case _ => []
  }

  /** What a step takes from `q`: the node a dequeue returns, or all that a splice takes. */
  function StepOut(s: State, a: Action, t: State, q: Qid): seq<Node> {
    match a
    case Step(p) => if p == q && q in t.cons && t.cons[q].Returned? && t.cons[q].r.Got? then [t.cons[q].r.node] else []
    case TakeTail(p, u) => if p == q then InFlight(t, u) else []
    case _ => []
  }

  /** Everything ever appended to `q`, in the order of the exchanges of its tail. */
  function Entered(tr: seq<State>, acts: seq<Action>, q: Qid, i: nat): seq<Node>
    requires |tr| == |acts| + 1 && i < |tr|
  {
    if i == 0 then [] else Entered(tr, acts, q, i - 1) + StepIn(tr[i - 1], acts[i - 1], q)
  }

  /** Everything ever taken from `q`, in order. */
  function Left(tr: seq<State>, acts: seq<Action>, q: Qid, i: nat): seq<Node>
    requires |tr| == |acts| + 1 && i < |tr|
  {
    if i == 0 then [] else Left(tr, acts, q, i - 1) + StepOut(tr[i - 1], acts[i - 1], tr[i], q)
  }

  lemma StepFifo(s: State, a: Action, q: Qid)
    requires Inv(s) && Enabled(s, a)
    ensures Queue(s, q) + StepIn(s, a, q) == StepOut(s, a, Do(s, a), q) + Queue(Do(s, a), q)
  {
    if a.Step? { ConsumerRefines(s, a.q); } else { ProducerRefines(s, a); }
    match a
    case Step(p) => assert Queue(s, q) == StepOut(s, a, Do(s, a), q) + Queue(Do(s, a), q);
    case AppendTail(t) =>
      assert PlaceOk(s, Flight(t));
    case _ =>
  }

  /** Step `i` moves nodes from what enters `q` to what leaves it in order. */
  predicate Flows(tr: seq<State>, acts: seq<Action>, q: Qid, i: nat) {
    && i < |acts| && |tr| == |acts| + 1
    && Queue(tr[i], q) + StepIn(tr[i], acts[i], q) == StepOut(tr[i], acts[i], tr[i + 1], q) + Queue(tr[i + 1], q)
  }

  lemma RunFlows(tr: seq<State>, acts: seq<Action>, q: Qid, i: nat)
    requires IsRun(tr, acts) && i < |acts|
    ensures Flows(tr, acts, q, i)
  {
    Reachable(tr, acts, i);
    assert Enabled(tr[i], acts[i]) && tr[i + 1] == Do(tr[i], acts[i]);
    StepFifo(tr[i], acts[i], q);
  }

  lemma {:induction false} FlowsAll(tr: seq<State>, acts: seq<Action>, q: Qid, i: nat)
    requires |tr| == |acts| + 1 && i < |tr| && Queue(tr[0], q) == []
    requires forall k: nat {:trigger Flows(tr, acts, q, k)} | k < i :: Flows(tr, acts, q, k)
    ensures Entered(tr, acts, q, i) == Left(tr, acts, q, i) + Queue(tr[i], q)
  {
    if i > 0 {
      FlowsAll(tr, acts, q, i - 1);
      assert Flows(tr, acts, q, i - 1);
      Regroup(Left(tr, acts, q, i - 1), Queue(tr[i - 1], q), StepIn(tr[i - 1], acts[i - 1], q),
              StepOut(tr[i - 1], acts[i - 1], tr[i], q), Queue(tr[i], q));
    }
  }

  /** First in, first out: what has left a queue, followed by what is on it, is what
      entered it in the order of the tail exchanges; nothing is lost, repeated or
      reordered, by dequeue or by splice. */
  lemma Fifo(tr: seq<State>, acts: seq<Action>, q: Qid, i: nat)
    requires IsRun(tr, acts) && i < |tr|
    ensures Entered(tr, acts, q, i) == Left(tr, acts, q, i) + Queue(tr[i], q)
  {
    forall k: nat {:trigger Flows(tr, acts, q, k)} | k < i ensures Flows(tr, acts, q, k) { RunFlows(tr, acts, q, k); }
    FlowsAll(tr, acts, q, i);
  }

  lemma StepFlight(s: State, a: Action, t: Tid)
    requires Inv(s) && Enabled(s, a) && Flight(t) in s.at && a != AppendTail(t)
    ensures Flight(t) in Do(s, a).at && InFlight(Do(s, a), t) == InFlight(s, t)
    ensures t in s.th && s.th[t].Append? && t in Do(s, a).th && Do(s, a).th[t] == s.th[t]
  {
    assert PlaceOk(s, Flight(t));
    if a.Step? { ConsumerRefines(s, a.q); }
  }

  /** What a splice takes from the source is what it appends to the destination. */
  lemma {:induction false} SpliceCarries(tr: seq<State>, acts: seq<Action>, i: nat, j: nat, q: Qid, t: Tid)
    requires IsRun(tr, acts) && i < j < |tr| && i < |acts| && acts[i] == TakeTail(q, t)
    requires forall k {:trigger acts[k]} | i < k < j :: acts[k] != AppendTail(t)
    ensures Flight(t) in tr[j].at && InFlight(tr[j], t) == Queue(tr[i], q) && Queue(tr[i], q) != []
    ensures t in tr[j].th && tr[j].th[t].Append? && tr[j].th[t].d == tr[i].cons[q].d
  {
    assert Enabled(tr[j - 1], acts[j - 1]) && tr[j] == Do(tr[j - 1], acts[j - 1]);
    Reachable(tr, acts, j - 1);
    if i + 1 == j {
      ProducerRefines(tr[i], acts[i]);
    } else {
      SpliceCarries(tr, acts, i, j - 1, q, t);
      StepFlight(tr[j - 1], acts[j - 1], t);
    }
  }

  /** A dequeue that returns NULL, and a splice that finds the source empty, do so at a
      moment when the queue is empty. */
  lemma NullMeansEmpty(tr: seq<State>, acts: seq<Action>, i: nat, q: Qid)
    requires IsRun(tr, acts) && i < |acts| && acts[i] == Step(q)
    requires tr[i + 1].cons[q] == Returned(Null) || tr[i + 1].cons[q] == Returned(SrcEmpty)
    ensures Queue(tr[i], q) == [] && Queue(tr[i + 1], q) == []
    ensures Entered(tr, acts, q, i) == Left(tr, acts, q, i)
  {
    Reachable(tr, acts, i);
    assert Enabled(tr[i], acts[i]) && tr[i + 1] == Do(tr[i], acts[i]);
    ConsumerRefines(tr[i], q);
    Fifo(tr, acts, q, i);
  }

  /** Step `k` does not end with a node returned from `q`, nor take its tail. */
  predicate Quiet(tr: seq<State>, acts: seq<Action>, q: Qid, k: nat) {
    && k + 1 < |tr| && k < |acts|
    && !(q in tr[k + 1].cons && tr[k + 1].cons[q].Returned? && tr[k + 1].cons[q].r.Got?)
    && !(acts[k].TakeTail? && acts[k].q == q)
  }

  lemma {:induction false} QuietLeft(tr: seq<State>, acts: seq<Action>, i: nat, j: nat, q: Qid)
    requires |tr| == |acts| + 1 && i <= j < |tr|
    requires forall k {:trigger Quiet(tr, acts, q, k)} | i <= k < j :: Quiet(tr, acts, q, k)
    ensures Left(tr, acts, q, j) == Left(tr, acts, q, i)
  {
    if i < j {
      QuietLeft(tr, acts, i, j - 1, q);
      assert Quiet(tr, acts, q, j - 1);
    }
  }

  predicate BusyAt(s: State, q: Qid) { q in s.cons && !Resting(s.cons[q]) }

  /** A dequeue or splice of `q` starts at step `i`, and at state `j` it has returned
      WOULDBLOCK. */
  predicate Blocked(tr: seq<State>, acts: seq<Action>, q: Qid, i: nat, j: nat) {
    && i < j < |tr| && i < |acts|
    && (acts[i].Dequeue? || acts[i].Splice?) && acts[i].q == q
    && (forall k {:trigger BusyAt(tr[k], q)} | i < k < j :: BusyAt(tr[k], q))
    && q in tr[j].cons && tr[j].cons[q] == Returned(WouldBlock)
  }

  lemma TakenEnds(s: State, q: Qid, t: Tid)
    requires Enabled(s, TakeTail(q, t))
    ensures !BusyAt(Do(s, TakeTail(q, t)), q) && Do(s, TakeTail(q, t)).cons[q] == Idle
  {
  }

  lemma BlockedIsQuiet(tr: seq<State>, acts: seq<Action>, i: nat, j: nat, q: Qid, k: nat)
    requires IsRun(tr, acts) && Blocked(tr, acts, q, i, j) && i <= k < j
    ensures Quiet(tr, acts, q, k)
  {
    assert Enabled(tr[k], acts[k]) && tr[k + 1] == Do(tr[k], acts[k]);
    assert k + 1 < j ==> BusyAt(tr[k + 1], q);
    if acts[k].TakeTail? { TakenEnds(tr[k], acts[k].q, acts[k].t); }
  }

  /** An operation that returns WOULDBLOCK has taken nothing from the queue, from its
      first step to its last: the queue is what it was, plus what was appended since. */
  lemma WouldBlockTakesNothing(tr: seq<State>, acts: seq<Action>, i: nat, j: nat, q: Qid)
    requires IsRun(tr, acts) && Blocked(tr, acts, q, i, j)
    ensures Left(tr, acts, q, j) == Left(tr, acts, q, i)
    ensures Queue(tr[i], q) <= Queue(tr[j], q)
  {
    forall k {:trigger Quiet(tr, acts, q, k)} | i <= k < j ensures Quiet(tr, acts, q, k) {
      BlockedIsQuiet(tr, acts, i, j, q, k);
    }
    QuietLeft(tr, acts, i, j, q);
    Fifo(tr, acts, q, i);
    Fifo(tr, acts, q, j);
    EnteredGrows(tr, acts, q, i, j);
    Cancel(Left(tr, acts, q, i), Queue(tr[i], q), Queue(tr[j], q));
  }

  lemma {:induction false} EnteredGrows(tr: seq<State>, acts: seq<Action>, q: Qid, i: nat, j: nat)
    requires |tr| == |acts| + 1 && i <= j < |tr|
    ensures Entered(tr, acts, q, i) <= Entered(tr, acts, q, j)
  {
    if i < j { EnteredGrows(tr, acts, q, i, j - 1); }
  }

  lemma Cancel(l: seq<Node>, w: seq<Node>, v: seq<Node>)
    requires l + w <= l + v
    ensures w <= v
  {
    forall k | 0 <= k < |w| ensures w[k] == v[k] {
      assert (l + w)[|l| + k] == (l + v)[|l| + k];
    }
  }

  // --- the queue is in memory -----------------------------------------------------------

  /** The words the program has: everything but the history. */
  predicate SameMemory(s: State, t: State) { s.next == t.next && s.tail == t.tail && s.cons == t.cons && s.th == t.th }

  lemma SameSucc(s: State, t: State, x: Cell)
    requires Inv(s) && Inv(t) && SameMemory(s, t)
    ensures Succ(s, x) == Succ(t, x)
  {
    assert PendOk(s, x) && PendOk(t, x);
    if x in s.pend { assert ThreadOk(t, s.pend[x].t); }
    if x in t.pend { assert ThreadOk(s, t.pend[x].t); }
  }

  /** The abstract queue is a function of the words in memory and of where the threads
      stand: the history says nothing that they do not. */
  lemma {:induction false} MemoryPrefix(s: State, t: State, q: Qid, i: nat)
    requires Inv(s) && Inv(t) && SameMemory(s, t) && q in s.tail && i <= |Queue(s, q)|
    ensures i <= |Queue(t, q)| && Queue(t, q)[..i] == Queue(s, q)[..i]
  {
    var w, v := Queue(s, q), Queue(t, q);
    if i == 1 {
      assert HeadOk(s, q) && HeadOk(t, q);
      SameSucc(s, t, Head(q));
      assert w[0] == v[0];
    } else if i > 1 {
      MemoryPrefix(s, t, q, i - 1);
      assert w[..i - 1][i - 2] == v[..i - 1][i - 2];
      assert NodeOk(s, On(q), i - 2) && NodeOk(t, On(q), i - 2);
      SameSucc(s, t, Item(w[i - 2]));
      assert v[..i] == v[..i - 1] + [v[i - 1]] && w[..i] == w[..i - 1] + [w[i - 1]];
    }
  }

  lemma MemoryDeterminesQueue(s: State, t: State, q: Qid)
    requires Inv(s) && Inv(t) && SameMemory(s, t) && q in s.tail
    ensures Queue(s, q) == Queue(t, q)
  {
    MemoryPrefix(s, t, q, |Queue(s, q)|);
    MemoryPrefix(t, s, q, |Queue(t, q)|);
    assert Queue(s, q)[..|Queue(s, q)|] == Queue(s, q) && Queue(t, q)[..|Queue(t, q)|] == Queue(t, q);
  }
}
