/** The hash table as a machine: any number of threads run operations inside read
    sections while one resizer grows and shrinks the bucket index.  One action is
    one shared access. */
module HashTable {
  import opened HashList
  import opened HashSteps
  import opened HashUnique
  import opened SplitOrder

  type Tid = nat

  /** A thread inside a read section.  `off` (history) is what had been unlinked when
      the section began; `order` is the table order the current operation loaded,
      `idx` and `start` the bucket it starts from. */
  datatype Thread = Thread(off: set<Node>, order: nat, idx: nat, start: Node, op: Op)

  /** The resize worker.  `todo` are the bucket indices of the order being linked or
      removed that no partition thread has taken up, `busy` says who took the others,
      `waiting` is the part of the sections a grace period still waits for, and
      `pend` are unlinked buckets whose memory is to be freed after it. */
  datatype Resize =
    | RIdle
    | Grow(o: nat, todo: set<nat>, busy: map<nat, Tid>)
    | ShrinkWait(o: nat, waiting: set<Tid>, pend: set<Node>)
    | ShrinkRemove(o: nat, todo: set<nat>, busy: map<nat, Tid>)
    | FreeNext(pend: set<Node>)
    | FreeWait(waiting: set<Tid>, pend: set<Node>)

  /** `order` is the published size, `slot` the bucket index.  History: `used` nodes
      handed to the table, `wins` successful removals, `marker` who first set REMOVED
      on a user node, `freed` bucket memory given back. */
  datatype State = State(
    l: List, th: map<Tid, Thread>, order: nat, slot: map<nat, Node>, rz: Resize,
    used: set<Node>, wins: multiset<Node>, marker: map<Node, Tid>, freed: set<Node>, r: Rules)

  datatype Action =
    | Enter(t: Tid)
    | Exit(t: Tid)
    | Call(t: Tid, op: Op)
    | Run(t: Tid, v: real)
    | GrowBegin
    | Populate(t: Tid, j: nat, gen: nat)
    | GrowPublish
    | ShrinkBegin
    | ShrinkGo
    | Retire(t: Tid, j: nat)
    | ShrinkDone
    | FinalWait
    | FinalFree

  predicate InOrder(o: nat, j: nat) { o > 0 && Pow2(o - 1) <= j < Pow2(o) }

  ghost function Indices(o: nat): set<nat> { set j | 0 <= j < Pow2(o) && InOrder(o, j) }

  /** The reversed hash an operation works on, and whether a thread may start it. */
  function Target(op: Op): nat {
    match op
    case AddStart(n, _) => n.rh
    case ReplCas(_, _, n, _) => n.rh
    case DelRead(d) => d.rh
    case LookStart(rh, _) => rh
    case _ => 0
  }

  predicate Callable(s: State, t: Tid, op: Op)
    requires t in s.th
  {
    && Target(op) < Pow2(BITS)
    && match op
       case AddStart(n, m) =>
         && n.User? && n !in s.used && !m.BucketMode?
         && (m.Plain? ==> (n.rh, n.key) !in s.r.uniq)
         && (!m.Plain? ==> (n.rh, n.key) !in s.r.dup)
       case ReplCas(k, was, n, again) =>
         && Ref(s.l, s.th[t].off, k) && k.User? && n.User? && n !in s.used
         && n.rh == k.rh && n.key == k.key && !again
       case DelRead(d) => Ref(s.l, s.th[t].off, d) && d.User?
       case LookStart(rh, key) => true
       case _ => false
  }

  predicate Bystander(s: State, t: Tid) { t in s.th && Resting(s.th[t].op) }

  predicate AllJoined(s: State, busy: map<nat, Tid>) {
    forall j | j in busy :: busy[j] in s.th ==> Resting(s.th[busy[j]].op)
  }

  ghost predicate Enabled(s: State, a: Action) {
    match a
    case Enter(t) => t !in s.th
    case Exit(t) => Bystander(s, t)
    case Call(t, op) => Bystander(s, t) && Callable(s, t, op) && BucketIndex(RevHash(Target(op)), s.order) in s.slot
    case Run(t, v) => t in s.th && PlaceOk(s.l, Next(s.l, s.th[t].start, s.th[t].op, v).w)
    case GrowBegin => s.rz.RIdle? && s.order < BITS
    case Populate(t, j, gen) =>
      && Bystander(s, t) && s.rz.Grow? && j in s.rz.todo && Bucket(gen, RevHash(j)) !in s.used
      && InOrder(s.rz.o, j) && j - Pow2(s.rz.o - 1) in s.slot
    case GrowPublish => s.rz.Grow? && s.rz.todo == {} && AllJoined(s, s.rz.busy)
    case ShrinkBegin => (s.rz.RIdle? || s.rz.FreeNext?) && s.order > 0
    case ShrinkGo => s.rz.ShrinkWait? && s.rz.waiting == {}
    case Retire(t, j) =>
      && Bystander(s, t) && s.rz.ShrinkRemove? && j in s.rz.todo
      && InOrder(s.rz.o, j) && j in s.slot && j - Pow2(s.rz.o - 1) in s.slot
    case ShrinkDone =>
      s.rz.ShrinkRemove? && s.rz.todo == {} && AllJoined(s, s.rz.busy) && Indices(s.rz.o) <= s.slot.Keys
    case FinalWait => s.rz.FreeNext?
    case FinalFree => s.rz.FreeWait? && s.rz.waiting == {}
  }

  ghost function Leave(rz: Resize, t: Tid): Resize {
    if rz.ShrinkWait? || rz.FreeWait? then rz.(waiting := rz.waiting - {t}) else rz
  }

  function Marks(l: List, w: Write, t: Tid, marker: map<Node, Tid>): map<Node, Tid> {
    if w.WMark? && !Load(l, w.n).removed then marker[w.n := t] else marker
  }

  ghost function RunTo(s: State, t: Tid, o: Outcome): State
    requires t in s.th
  {
    s.(l := Apply(s.l, o.w), th := s.th[t := s.th[t].(op := o.op)],
       wins := s.wins + Wins(s.l, o.w), marker := Marks(s.l, o.w, t, s.marker))
  }

  ghost function Do(s: State, a: Action): State
    requires Enabled(s, a)
  {
    match a
    case Enter(t) =>
      s.(th := s.th[t := Thread(s.l.next.Keys - s.l.on, 0, 0, HEAD, Idle)])
    case Exit(t) => s.(th := s.th - {t}, rz := Leave(s.rz, t))
    case Call(t, op) =>
      var idx := BucketIndex(RevHash(Target(op)), s.order);
      s.(th := s.th[t := Thread(s.th[t].off, s.order, idx, s.slot[idx], op)],
         used := s.used + set n | n in NewNodes(op))
    case Run(t, v) =>
      RunTo(s, t, Next(s.l, s.th[t].start, s.th[t].op, v))
    case GrowBegin => s.(rz := Grow(s.order + 1, Indices(s.order + 1), map[]))
    case Populate(t, j, gen) =>
      var o := s.rz.o;
      var n := Bucket(gen, RevHash(j));
      var idx := j - Pow2(o - 1);
      s.(th := s.th[t := Thread(s.th[t].off, o - 1, idx, s.slot[idx], AddStart(n, BucketMode))],
         slot := s.slot[j := n], used := s.used + {n},
         rz := Grow(o, s.rz.todo - {j}, s.rz.busy[j := t]))
    case GrowPublish => s.(order := s.rz.o, rz := RIdle)
    case ShrinkBegin =>
      s.(order := s.order - 1,
         rz := ShrinkWait(s.order, s.th.Keys, if s.rz.FreeNext? then s.rz.pend else {}))
    case ShrinkGo => s.(freed := s.freed + s.rz.pend, rz := ShrinkRemove(s.rz.o, Indices(s.rz.o), map[]))
    case Retire(t, j) =>
      var o := s.rz.o;
      var idx := j - Pow2(o - 1);
      s.(th := s.th[t := Thread(s.th[t].off, o - 1, idx, s.slot[idx], BktOr(s.slot[j]))],
         rz := ShrinkRemove(o, s.rz.todo - {j}, s.rz.busy[j := t]))
    case ShrinkDone => s.(rz := FreeNext(set j | j in Indices(s.rz.o) :: s.slot[j]))
    case FinalWait => s.(rz := FreeWait(s.th.Keys, s.rz.pend))
    case FinalFree => s.(freed := s.freed + s.rz.pend, rz := RIdle)
  }

  function NewNodes(op: Op): set<Node> {
    match op
    case AddStart(n, _) => {n}
    case ReplCas(_, _, n, _) => {n}
    case _ => {}
  }

  ghost predicate Init(s: State) {
    && s.l == List(map[HEAD := Link(End, false, true, false)], map[HEAD := 0.0], {HEAD})
    && s.th == map[] && s.order == 0 && s.slot == map[0 := HEAD] && s.rz == RIdle
    && s.used == {HEAD} && s.wins == multiset{} && s.marker == map[] && s.freed == {}
  }

  // --- the invariant ------------------------------------------------------------

  predicate BucketFor(s: State, j: nat) {
    j in s.slot && s.slot[j].Bucket? && s.slot[j].rh == RevHash(j)
  }

  ghost predicate ThreadOk(s: State, t: Tid)
    requires t in s.th
  {
    var x := s.th[t];
    && Closed(s.l, x.off)
    && OpOk(s.l, x.off, s.r, x.start, x.op)
    && OpUnique(s.l, s.r, x.op)
    && s.freed <= x.off
    && (!Resting(x.op) ==> x.idx < Pow2(x.order) && BucketFor(s, x.idx) && s.slot[x.idx] == x.start)
    && (x.order <= s.order || (s.rz.ShrinkWait? && t in s.rz.waiting && x.order <= s.order + 1))
    && (forall n | Adds(x.op, n) :: n in s.used)
    && (x.op.BktOr? ==> s.rz.ShrinkRemove? && Retired(s, t, x.op.d))
  }

  /** `d` is a bucket of the order being removed, taken up by `t`. */
  predicate Retired(s: State, t: Tid, d: Node)
    requires s.rz.ShrinkRemove?
  {
    var j := RevHash(d.rh);
    && d.Bucket? && d.rh < Pow2(BITS) && InOrder(s.rz.o, j)
    && j !in s.rz.todo && j in s.rz.busy && s.rz.busy[j] == t
  }

  ghost predicate Distinct(s: State, t: Tid, u: Tid)
    requires t in s.th && u in s.th
  {
    t != u ==> forall n {:trigger Adds(s.th[t].op, n)} | Adds(s.th[t].op, n) :: !Adds(s.th[u].op, n)
  }

  ghost predicate ThreadsOk(s: State) {
    && (forall t {:trigger ThreadOk(s, t)} | t in s.th :: ThreadOk(s, t))
    && (forall t, u {:trigger Distinct(s, t, u)} | t in s.th && u in s.th :: Distinct(s, t, u))
  }

  /** Published buckets are linked and live. */
  predicate Published(s: State, j: nat) { BucketFor(s, j) && Live(s.l, s.slot[j]) }

  ghost predicate Unlinked(s: State, pend: set<Node>) {
    pend <= s.l.next.Keys && pend !! s.l.on
  }

  ghost predicate AllOutlive(s: State, waiting: set<Tid>, pend: set<Node>) {
    forall t {:trigger s.th[t]} | t in s.th && t !in waiting :: pend <= s.th[t].off
  }

  ghost predicate Populated(s: State, j: nat)
    requires s.rz.Grow?
  {
    && BucketFor(s, j) && j in s.rz.busy
    && (Live(s.l, s.slot[j]) || (s.rz.busy[j] in s.th && Adds(s.th[s.rz.busy[j]].op, s.slot[j])))
  }

  ghost predicate BeingRetired(s: State, j: nat)
    requires s.rz.ShrinkRemove?
  {
    && BucketFor(s, j) && s.slot[j] in s.l.next
    && if j in s.rz.todo then Live(s.l, s.slot[j]) else
         j in s.rz.busy
         && (s.slot[j] !in s.l.on || (s.rz.busy[j] in s.th && Removing(s.th[s.rz.busy[j]].op, s.slot[j])))
  }

  ghost predicate ResizeOk(s: State) {
    match s.rz
    case RIdle => true
    case Grow(o, todo, busy) =>
      && o == s.order + 1 && todo <= Indices(o)
      && forall j {:trigger Populated(s, j)} | InOrder(o, j) && j !in todo :: Populated(s, j)
    case ShrinkWait(o, waiting, pend) =>
      && o == s.order + 1 && Unlinked(s, pend) && AllOutlive(s, waiting, pend)
      && forall j {:trigger Published(s, j)} | InOrder(o, j) :: Published(s, j)
    case ShrinkRemove(o, todo, busy) =>
      && o == s.order + 1 && todo <= Indices(o)
      && forall j {:trigger BeingRetired(s, j)} | InOrder(o, j) :: BeingRetired(s, j)
    case FreeNext(pend) => Unlinked(s, pend)
    case FreeWait(waiting, pend) => Unlinked(s, pend) && AllOutlive(s, waiting, pend)
  }

  /** One removal at most has succeeded on `n`; and as long as none has, whoever set
      REMOVED first is on its way to claim the node. */
  ghost predicate Claimed(s: State, n: Node) {
    && s.wins[n] == (if n in s.l.next && s.l.next[n].owner then 1 else 0)
    && (n in s.l.next && n.User? && s.l.next[n].removed && !s.l.next[n].owner ==>
          n in s.marker && s.marker[n] in s.th && DelBusy(s.th[s.marker[n]].op, n))
  }

  ghost predicate Inv(s: State) {
    && ListInv(s.l) && ListUnique(s.l, s.r)
    && s.l.next.Keys <= s.used
    && s.order <= BITS
    && (s.rz.Grow? || s.rz.ShrinkWait? || s.rz.ShrinkRemove? ==> s.order < BITS)
    && ThreadsOk(s)
    && (forall j {:trigger Published(s, j)} | 0 <= j < Pow2(s.order) :: Published(s, j))
    && ResizeOk(s)
    && Unlinked(s, s.freed)
    && (forall n {:trigger Claimed(s, n)} :: Claimed(s, n))
  }
}
