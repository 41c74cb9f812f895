/** A key that enters both by plain adds and by unique ones can be missed by a lookup
    although it is present throughout: a concrete run, for every such key. */
module HashMixed {
  import opened HashList
  import opened HashSteps
  import opened HashUnique
  import opened HashTable
  import opened HashTableProof
  import opened HashTableRuns
  import opened SplitOrder

  // --- a table of one bucket ------------------------------------------------------

  /** What the list of a table with the one bucket HEAD is and what each thread does. */
  datatype Scene = Scene(l: List, ops: map<Tid, Op>, used: set<Node>)

  ghost predicate At(s: State, c: Scene, r: Rules) {
    && s.l == c.l && s.order == 0 && s.slot == map[0 := HEAD] && s.rz.RIdle? && s.used == c.used && s.r == r
    && s.th.Keys == c.ops.Keys
    && forall t {:trigger s.th[t]} {:trigger c.ops[t]} | t in c.ops ::
      s.th[t].op == c.ops[t] && s.th[t].off == {} && (Resting(c.ops[t]) || s.th[t].start == HEAD)
  }

  predicate MayCall(c: Scene, op: Op, r: Rules) {
    && Target(op) < Pow2(BITS)
    && match op
       case AddStart(n, Plain) => n.User? && n !in c.used && (n.rh, n.key) !in r.uniq
       case AddStart(n, Unique) => n.User? && n !in c.used && (n.rh, n.key) !in r.dup
       case DelRead(d) => Ref(c.l, {}, d) && d.User?
       case LookStart(_, _) => true
       case _ => false
  }

  /** The machine's step from scene to scene. */
  ghost predicate Plays(r: Rules, c: Scene, a: Action, d: Scene) {
    match a
    case Enter(t) => t !in c.ops && c.l.next.Keys == c.l.on && d == c.(ops := c.ops[t := Idle])
    case Call(t, op) =>
      && t in c.ops && Resting(c.ops[t]) && MayCall(c, op, r)
      && d == Scene(c.l, c.ops[t := op], c.used + NewNodes(op))
    case Run(t, v) =>
      && t in c.ops && !Resting(c.ops[t])
      && var o := Next(c.l, HEAD, c.ops[t], v);
         PlaceOk(c.l, o.w) && d == Scene(Apply(c.l, o.w), c.ops[t := o.op], c.used)
    case _ => false
  }

  lemma CallAt(r: Rules, s: State, c: Scene, t: Tid, op: Op, d: Scene)
    requires At(s, c, r) && Plays(r, c, Call(t, op), d)
    ensures Enabled(s, Call(t, op)) && At(Do(s, Call(t, op)), d, r)
  {
    assert BucketIndex(RevHash(Target(op)), s.order) == 0;
    assert Callable(s, t, op);
  }

  lemma PlayAt(r: Rules, s: State, c: Scene, a: Action, d: Scene)
    requires At(s, c, r) && Plays(r, c, a, d)
    ensures Enabled(s, a) && At(Do(s, a), d, r)
  {
    if a.Call? { CallAt(r, s, c, a.t, a.op, d); }
  }

  // --- the run -----------------------------------------------------------------------

  /** Node `X` has another key of the same hash, `A` comes by a plain add and `B` by a
      unique one. */
  datatype Cast = Cast(r: Rules, rh: nat, key: Key, other: Key) {
    function X(): Node { User(0, rh, other) }
    function A(): Node { User(1, rh, key) }
    function B(): Node { User(2, rh, key) }

    predicate Valid() {
      && rh < Pow2(BITS) && other != key && (rh, other) !in r.uniq
      && (rh, key) !in r.uniq && (rh, key) !in r.dup
    }

    /** HEAD alone; HEAD, X; HEAD, X, A; HEAD, B, X, A; and the last with A removed. */
    function Bare(): List { List(map[HEAD := First(End)], map[HEAD := 0.0], {HEAD}) }

    function WithX(): List {
      List(map[HEAD := First(To(X())), X() := Word(End)], map[HEAD := 0.0, X() := 1.0], {HEAD, X()})
    }

    function WithA(): List {
      List(map[HEAD := First(To(X())), X() := Word(To(A())), A() := Word(End)],
           map[HEAD := 0.0, X() := 1.0, A() := 2.0], {HEAD, X(), A()})
    }

    function WithB(): List {
      var l := WithA();
      List(l.next[B() := Word(To(X()))][HEAD := First(To(B()))], l.pos[B() := 0.5], l.on + {B()})
    }

    function WithoutA(): List { Mark(WithB(), A()) }

    function ListAt(k: nat): List {
      if k < 5 then Bare() else if k < 16 then WithX() else if k < 20 then WithA() else if k < 23 then WithB()
      else WithoutA()
    }

    /** Thread 0 adds X, later A behind it, and then deletes A. */
    function Op0(k: nat): Op {
      match k
      case 1 => Idle
      case 2 => AddStart(X(), Plain)
      case 3 => AddAt(X(), Plain, HEAD, First(End))
      case 4 => AddCas(X(), Plain, HEAD, First(End))
      case 12 => AddStart(A(), Plain)
      case 13 => AddAt(A(), Plain, HEAD, First(To(X())))
      case 14 => AddAt(A(), Plain, X(), Word(End))
      case 15 => AddCas(A(), Plain, X(), Word(End))
      case 21 => DelRead(A())
      case 22 => DelOr(A())
      case _ => if k < 23 then Returned(Added) else GcStart(A(), ThenOwn)
    }

    /** Thread 1 scans for B before A is there and links it behind HEAD after that. */
    function Op1(k: nat): Op {
      match k
      case 6 => Idle
      case 7 => AddStart(B(), Unique)
      case 8 => AddAt(B(), Unique, HEAD, First(To(X())))
      case 9 => AddScan(B(), Unique, HEAD, First(To(X())), To(X()))
      case 10 => AddScan(B(), Unique, HEAD, First(To(X())), End)
      case _ => if k < 20 then AddCas(B(), Unique, HEAD, First(To(X()))) else Returned(Added)
    }

    /** Thread 2 looks for the key: it has passed HEAD when B is linked there, and
        reaches A when A is removed. */
    function Op2(k: nat): Op {
      match k
      case 17 => Idle
      case 18 => LookStart(rh, key)
      case 24 => LookAt(rh, key, To(A()))
      case 25 => LookAt(rh, key, End)
      case _ => if k < 24 then LookAt(rh, key, To(X())) else Returned(NotFound)
    }

    function OpsAt(k: nat): map<Tid, Op> {
      if k < 1 then map[] else if k < 6 then map[0 := Op0(k)] else if k < 17 then map[0 := Op0(k), 1 := Op1(k)]
      else map[0 := Op0(k), 1 := Op1(k), 2 := Op2(k)]
    }

    function UsedAt(k: nat): set<Node> {
      if k < 2 then {HEAD} else if k < 7 then {HEAD, X()} else if k < 12 then {HEAD, X(), B()}
      else {HEAD, X(), B(), A()}
    }

    function SceneAt(k: nat): Scene { Scene(ListAt(k), OpsAt(k), UsedAt(k)) }

    function ActionAt(k: nat): Action {
      match k
      case 0 => Enter(0)
      case 1 => Call(0, AddStart(X(), Plain))
      case 5 => Enter(1)
      case 6 => Call(1, AddStart(B(), Unique))
      case 11 => Call(0, AddStart(A(), Plain))
      case 16 => Enter(2)
      case 17 => Call(2, LookStart(rh, key))
      case 20 => Call(0, DelRead(A()))
      case 4 => Run(0, 1.0)
      case 15 => Run(0, 2.0)
      case 19 => Run(1, 0.5)
      case _ => Run(if k < 5 then 0 else if k < 11 then 1 else if k < 16 || 20 < k < 23 then 0 else 2, 0.0)
    }
  }

  function Word(to: Ptr): Link { Link(to, false, false, false) }

  function First(to: Ptr): Link { Link(to, false, true, false) }

  lemma Quiet0(c: Cast, k: nat)
    requires c.Valid() && (2 <= k < 4 || 12 <= k < 15 || k == 21)
    ensures Next(c.ListAt(k), HEAD, c.Op0(k), 0.0) == Then(Nop, c.Op0(k + 1))
  {
  }

  lemma Quiet1(c: Cast, k: nat)
    requires c.Valid() && 7 <= k < 11
    ensures Next(c.ListAt(k), HEAD, c.Op1(k), 0.0) == Then(Nop, c.Op1(k + 1))
  {
  }

  lemma Quiet2(c: Cast, k: nat)
    requires c.Valid() && (k == 18 || 23 <= k < 26)
    ensures Next(c.ListAt(k), HEAD, c.Op2(k), 0.0) == Then(Nop, c.Op2(k + 1))
  {
  }

  function Actor(k: nat): Tid {
    if k < 5 then 0 else if k < 11 then 1 else if k < 16 then 0 else if k < 19 then 2 else if k < 20 then 1
    else if k < 23 then 0 else 2
  }

  function Moving(c: Cast, k: nat, t: Tid): Op { if t == 0 then c.Op0(k) else if t == 1 then c.Op1(k) else c.Op2(k) }

  /** One thread moves at a time. */
  lemma OneMoves(c: Cast, k: nat)
    requires k < 26
    ensures c.OpsAt(k + 1) == c.OpsAt(k)[Actor(k) := Moving(c, k + 1, Actor(k))]
    ensures c.ActionAt(k).t == Actor(k)
    ensures if c.ActionAt(k).Enter? then Actor(k) !in c.OpsAt(k)
      else Actor(k) in c.OpsAt(k) && c.OpsAt(k)[Actor(k)] == Moving(c, k, Actor(k))
  {
  }

  lemma Enters(c: Cast, k: nat)
    requires c.Valid() && (k == 0 || k == 5 || k == 16)
    ensures Plays(c.r, c.SceneAt(k), c.ActionAt(k), c.SceneAt(k + 1))
  {
    OneMoves(c, k);
  }

  lemma UsedGrows(c: Cast, k: nat)
    requires k == 1 || k == 6 || k == 11 || k == 17 || k == 20
    ensures c.ActionAt(k).Call? && c.UsedAt(k) + NewNodes(c.ActionAt(k).op) == c.UsedAt(k + 1)
  {
  }

  lemma Asks(c: Cast, k: nat)
    requires c.Valid() && (k == 1 || k == 6 || k == 11 || k == 17 || k == 20)
    ensures c.ActionAt(k).Call? && c.ActionAt(k).op == Moving(c, k + 1, Actor(k)) && Resting(Moving(c, k, Actor(k)))
    ensures MayCall(c.SceneAt(k), c.ActionAt(k).op, c.r)
  {
  }

  lemma Calls(c: Cast, k: nat)
    requires c.Valid() && (k == 1 || k == 6 || k == 11 || k == 17 || k == 20)
    ensures Plays(c.r, c.SceneAt(k), c.ActionAt(k), c.SceneAt(k + 1))
  {
    OneMoves(c, k);
    UsedGrows(c, k);
    Asks(c, k);
    assert c.ListAt(k) == c.ListAt(k + 1);
  }

  /** Step `k` is an access with write `w`, and a new node gets place `v`. */
  ghost predicate Access(c: Cast, k: nat, v: real, w: Write) {
    && c.ActionAt(k) == Run(Actor(k), v) && !Resting(Moving(c, k, Actor(k)))
    && Next(c.ListAt(k), HEAD, Moving(c, k, Actor(k)), v) == Then(w, Moving(c, k + 1, Actor(k)))
    && PlaceOk(c.ListAt(k), w) && Apply(c.ListAt(k), w) == c.ListAt(k + 1) && c.UsedAt(k) == c.UsedAt(k + 1)
  }

  lemma Runs(c: Cast, k: nat, v: real, w: Write)
    requires k < 26 && Access(c, k, v, w)
    ensures Plays(c.r, c.SceneAt(k), c.ActionAt(k), c.SceneAt(k + 1))
  {
    OneMoves(c, k);
  }

  lemma Reads(c: Cast, k: nat)
    requires c.Valid() && k < 26 && c.ActionAt(k) == Run(Actor(k), 0.0) && k != 22
    ensures Access(c, k, 0.0, Nop)
  {
    if Actor(k) == 0 { Quiet0(c, k); } else if Actor(k) == 1 { Quiet1(c, k); } else { Quiet2(c, k); }
  }

  lemma LinkX(c: Cast)
    requires c.Valid()
    ensures Access(c, 4, 1.0, WInsert(HEAD, c.X(), 1.0))
  {
  }

  lemma LinkA(c: Cast)
    requires c.Valid()
    ensures Access(c, 15, 2.0, WInsert(c.X(), c.A(), 2.0))
  {
  }

  lemma LinkB(c: Cast)
    requires c.Valid()
    ensures Access(c, 19, 0.5, WInsert(HEAD, c.B(), 0.5))
  {
  }

  lemma MarkA(c: Cast)
    requires c.Valid()
    ensures Access(c, 22, 0.0, WMark(c.A()))
  {
  }

  lemma Scripted(c: Cast, k: nat)
    requires c.Valid() && k < 26
    ensures Plays(c.r, c.SceneAt(k), c.ActionAt(k), c.SceneAt(k + 1))
  {
    if c.ActionAt(k).Enter? { Enters(c, k); }
    else if c.ActionAt(k).Call? { Calls(c, k); }
    else if k == 4 { LinkX(c); Runs(c, k, 1.0, WInsert(HEAD, c.X(), 1.0)); }
    else if k == 15 { LinkA(c); Runs(c, k, 2.0, WInsert(c.X(), c.A(), 2.0)); }
    else if k == 19 { LinkB(c); Runs(c, k, 0.5, WInsert(HEAD, c.B(), 0.5)); }
    else if k == 22 { MarkA(c); Runs(c, k, 0.0, WMark(c.A())); }
    else { Reads(c, k); Runs(c, k, 0.0, Nop); }
  }

  /** A run that has played the first `k` steps. */
  ghost predicate Played(c: Cast, k: nat, tr: seq<State>, acts: seq<Action>) {
    && IsRun(tr, acts) && |acts| == k
    && forall m {:trigger tr[m]} | 0 <= m <= k :: At(tr[m], c.SceneAt(m), c.r)
  }

  lemma Raise(c: Cast) returns (tr: seq<State>)
    ensures Played(c, 0, tr, [])
  {
    tr := [State(c.Bare(), map[], 0, map[0 := HEAD], RIdle, {HEAD}, multiset{}, map[], {}, c.r)];
  }

  lemma Extend(c: Cast, k: nat, tr: seq<State>, acts: seq<Action>, a: Action, s: State, run: seq<State>,
               all: seq<Action>)
    requires Played(c, k, tr, acts) && Enabled(tr[k], a) && s == Do(tr[k], a) && At(s, c.SceneAt(k + 1), c.r)
    requires run == tr + [s] && all == acts + [a]
    ensures Played(c, k + 1, run, all)
  {
    LongerRun(tr, acts, a, s, run, all);
    forall m {:trigger run[m]} | 0 <= m <= k + 1 ensures At(run[m], c.SceneAt(m), c.r) {
      if m <= k { assert At(tr[m], c.SceneAt(m), c.r); }
    }
  }

  lemma LongerRun(tr: seq<State>, acts: seq<Action>, a: Action, s: State, run: seq<State>, all: seq<Action>)
    requires IsRun(tr, acts) && Enabled(tr[|acts|], a) && s == Do(tr[|acts|], a)
    requires run == tr + [s] && all == acts + [a]
    ensures IsRun(run, all)
  {
    forall i {:trigger all[i]} | 0 <= i < |all| ensures Enabled(run[i], all[i]) && run[i + 1] == Do(run[i], all[i]) {
      if i < |acts| { assert Enabled(tr[i], acts[i]); }
    }
  }

  lemma {:induction false} PlayAll(c: Cast, k: nat) returns (tr: seq<State>, acts: seq<Action>)
    requires c.Valid() && k <= 26
    ensures Played(c, k, tr, acts)
  {
    if k == 0 {
      tr := Raise(c);
      acts := [];
    } else {
      tr, acts := PlayAll(c, k - 1);
      Scripted(c, k - 1);
      assert At(tr[k - 1], c.SceneAt(k - 1), c.r);
      PlayAt(c.r, tr[k - 1], c.SceneAt(k - 1), c.ActionAt(k - 1), c.SceneAt(k));
      var s := Do(tr[k - 1], c.ActionAt(k - 1));
      Extend(c, k - 1, tr, acts, c.ActionAt(k - 1), s, tr + [s], acts + [c.ActionAt(k - 1)]);
      tr, acts := tr + [s], acts + [c.ActionAt(k - 1)];
    }
  }

  // --- the lookup that misses --------------------------------------------------------

  /** Thread `t` looks for the key from state `i` on, returns nothing at state `j`, and
      the key is present in every state of the lookup. */
  ghost predicate Misses(r: Rules, tr: seq<State>, acts: seq<Action>, i: nat, j: nat, t: Tid, rh: nat, key: Key) {
    && IsRun(tr, acts) && tr[0].r == r && i < j < |tr| && Looking(tr, i, j, t, rh, key)
    && tr[i].th[t].op == LookStart(rh, key) && tr[j].th[t].op == Returned(NotFound)
    && forall k {:trigger tr[k].l} | i <= k < j :: Present(tr[k].l, rh, key)
  }

  /** From state 18 on thread 2 is looking and A or B is live. */
  lemma Watches(c: Cast, k: nat)
    requires c.Valid() && 18 <= k < 26
    ensures Present(c.ListAt(k), c.rh, c.key)
    ensures c.Op2(k) == LookStart(c.rh, c.key) || (exists p :: c.Op2(k) == LookAt(c.rh, c.key, p))
  {
    if k < 20 { assert Live(c.ListAt(k), c.A()) && Matches(c.A(), c.rh, c.key); }
    else { assert Live(c.ListAt(k), c.B()) && Matches(c.B(), c.rh, c.key); }
  }

  /** For any key that may enter both by plain adds and by unique ones, a run in which
      a lookup misses it although it is present all along. */
  lemma MixedKeyMissed(r: Rules, rh: nat, key: Key) returns (tr: seq<State>, acts: seq<Action>)
    requires rh < Pow2(BITS) && (rh, key) !in r.uniq && (rh, key) !in r.dup
    ensures Misses(r, tr, acts, 18, 26, 2, rh, key)
  {
    var other := OtherKey(r, rh, key);
    var c := Cast(r, rh, key, other);
    tr, acts := PlayAll(c, 26);
    forall k {:trigger tr[k]} | 18 <= k < 26
      ensures Present(tr[k].l, rh, key) && 2 in tr[k].th && tr[k].th[2].op == c.Op2(k)
    {
      assert At(tr[k], c.SceneAt(k), r);
      Watches(c, k);
      assert 2 in c.OpsAt(k);
    }
    assert At(tr[0], c.SceneAt(0), r) && At(tr[26], c.SceneAt(26), r);
    assert 2 in c.OpsAt(26);
    forall k | 18 <= k < 26 ensures c.Op2(k) == LookStart(rh, key) || (exists p :: c.Op2(k) == LookAt(rh, key, p)) {
      Watches(c, k);
    }
  }

  lemma OtherKey(r: Rules, rh: nat, key: Key) returns (k: Key)
    ensures k != key && (rh, k) !in r.uniq
  {
    var s := set p | p in r.uniq :: p.1;
    k := Above(s, key);
    Below(s, r, rh, k);
  }

  lemma Below(s: set<Key>, r: Rules, rh: nat, k: Key)
    requires s == set p | p in r.uniq :: p.1
    ensures (rh, k) in r.uniq ==> k in s
  {
    if (rh, k) in r.uniq { assert (rh, k).1 in s; }
  }

  lemma {:induction false} Above(s: set<Key>, key: Key) returns (k: Key)
    ensures k > key && forall x {:trigger x in s} | x in s :: x < k
  {
    if s == {} {
      k := key + 1;
    } else {
      var y :| y in s;
      k := Above(s - {y}, key);
      forall x {:trigger x in s} | x in s && x != y ensures x < k { assert x in s - {y}; }
      if k <= y { k := y + 1; }
    }
  }

  /** A lookup misses a key that is present all along exactly when the key may enter
      both by plain adds and by unique ones. */
  lemma MissedIffMixed(r: Rules, rh: nat, key: Key)
    requires rh < Pow2(BITS)
    ensures ((rh, key) in r.uniq || (rh, key) in r.dup) <==>
      !exists tr, acts, i, j, t :: Misses(r, tr, acts, i, j, t, rh, key)
  {
    if (rh, key) in r.uniq || (rh, key) in r.dup {
      forall tr, acts, i, j, t ensures !Misses(r, tr, acts, i, j, t, rh, key) {
        if Misses(r, tr, acts, i, j, t, rh, key) { NotFoundMeansAbsent(tr, acts, i, j, t, rh, key); }
      }
    } else {
      var tr, acts := MixedKeyMissed(r, rh, key);
      assert Misses(r, tr, acts, 18, 26, 2, rh, key);
    }
  }
}
