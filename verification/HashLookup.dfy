/** How far lookups never miss: a node that stays, or whose replacements stay, is found
    whatever its key and however it entered. */
module HashLookup {
  import opened HashList
  import opened HashSteps
  import opened HashUnique
  import opened HashTable
  import opened HashTableProof
  import opened HashTableRuns
  import opened SplitOrder

  // --- a node and its heirs ---------------------------------------------------------

  /** `n` is `m`, or what action `a` put in the place of `m`. */
  ghost predicate Heir(s: State, a: Action, m: Node, n: Node) {
    || n == m
    || (a.Run? && a.t in s.th
        && var w := Next(s.l, s.th[a.t].start, s.th[a.t].op, a.v).w; w.WReplace? && w.k == m && w.n == n)
  }

  /** From state `i` to before `j`, `who` names a live node and then its heirs. */
  ghost predicate Line(tr: seq<State>, acts: seq<Action>, i: nat, j: nat, who: seq<Node>)
    requires |tr| == |acts| + 1 && i < j < |tr|
  {
    && |who| == j
    && (forall k {:trigger who[k]} | i <= k < j :: Live(tr[k].l, who[k]) && who[k].User?)
    && (forall k {:trigger acts[k]} | i <= k < j - 1 :: Heir(tr[k], acts[k], who[k], who[k + 1]))
  }

  lemma HeirAhead(s: State, a: Action, m: Node, n: Node, cur: Ptr)
    requires Inv(s) && Enabled(s, a) && Heir(s, a, m, n) && Live(s.l, m) && OneAhead(Do(s, a).l, cur, m)
    ensures OneAhead(Do(s, a).l, cur, n) && n.rh == m.rh && (m.User? ==> n.User? && n.key == m.key)
  {
    if n != m {
      MoveOf(s, a.t, a.v);
      ApplyEvolves(s.l, Next(s.l, s.th[a.t].start, s.th[a.t].op, a.v).w);
      assert Kept(s.l, Do(s, a).l, m);
    }
  }

  lemma HeirSame(s: State, a: Action, m: Node, n: Node)
    requires Inv(s) && Enabled(s, a) && Heir(s, a, m, n)
    ensures n.rh == m.rh && (m.User? ==> n.User? && n.key == m.key)
  {
    if n != m { MoveOf(s, a.t, a.v); }
  }

  /** A lookup of a key does not miss a node of it that is live from the lookup's first
      access to its last, even if it is replaced meanwhile, any number of times. */
  lemma {:induction false} HeirIsFound(tr: seq<State>, acts: seq<Action>, i: nat, j: nat, t: Tid, who: seq<Node>)
    requires IsRun(tr, acts) && i < j < |tr| && Line(tr, acts, i, j, who)
    requires Looking(tr, i, j, t, who[i].rh, who[i].key) && tr[i].th[t].op == LookStart(who[i].rh, who[i].key)
    ensures tr[j].th[t].op != Returned(NotFound)
    ensures who[j - 1].rh == who[i].rh && who[j - 1].key == who[i].key
    ensures tr[j].th[t].op.LookAt? ==> OneAhead(tr[j].l, tr[j].th[t].op.cur, who[j - 1])
    decreases j
  {
    Reachable(tr, acts, j - 1);
    assert Enabled(tr[j - 1], acts[j - 1]) && tr[j] == Do(tr[j - 1], acts[j - 1]);
    if i < j - 1 { BeforeLast(tr, acts, i, j, t, who); }
    assert Live(tr[j - 1].l, who[j - 1]);
    StaysAhead(tr[j - 1], acts[j - 1], t, who[j - 1]);
  }

  lemma BeforeLast(tr: seq<State>, acts: seq<Action>, i: nat, j: nat, t: Tid, who: seq<Node>)
    requires IsRun(tr, acts) && i < j - 1 && j < |tr| && Line(tr, acts, i, j, who)
    requires Looking(tr, i, j, t, who[i].rh, who[i].key) && tr[i].th[t].op == LookStart(who[i].rh, who[i].key)
    ensures who[j - 1].rh == who[i].rh && who[j - 1].key == who[i].key
    ensures tr[j - 1].th[t].op.LookAt? ==> OneAhead(tr[j - 1].l, tr[j - 1].th[t].op.cur, who[j - 1])
    decreases j, 0
  {
    assert Line(tr, acts, i, j - 1, who[..j - 1]);
    HeirIsFound(tr, acts, i, j - 1, t, who[..j - 1]);
    Reachable(tr, acts, j - 2);
    assert Enabled(tr[j - 2], acts[j - 2]) && tr[j - 1] == Do(tr[j - 2], acts[j - 2]);
    assert Heir(tr[j - 2], acts[j - 2], who[j - 2], who[j - 2 + 1]);
    assert Live(tr[j - 2].l, who[j - 2]);
    HeirSame(tr[j - 2], acts[j - 2], who[j - 2], who[j - 1]);
    if tr[j - 1].th[t].op.LookAt? { HeirAhead(tr[j - 2], acts[j - 2], who[j - 2], who[j - 1], tr[j - 1].th[t].op.cur); }
  }

  // --- a lookup as one moment -------------------------------------------------------

  /** `r` is what a lookup of the key would return if it took place all at once. */
  ghost predicate Answers(l: List, r: Result, rh: nat, key: Key) {
    match r
    case Found(n, nx) => Live(l, n) && Matches(n, rh, key) && nx == l.next[n]
    case NotFound => !Present(l, rh, key)
    case _ => false
  }

  lemma LastAccess(s: State, a: Action, t: Tid, rh: nat, key: Key)
    requires Inv(s) && Enabled(s, a) && t in s.th && t in Do(s, a).th && Do(s, a).th[t].op.Returned?
    requires s.th[t].op == LookStart(rh, key) || (s.th[t].op.LookAt? && s.th[t].op.rh == rh && s.th[t].op.key == key)
    ensures s.th[t].op.LookAt? && (Do(s, a).th[t].op.r.Found? || Do(s, a).th[t].op.r.NotFound?)
  {
    LookAction(s, a, t);
    if a.Run? && a.t == t { LookWrites(s, t, a.v); }
  }

  lemma FoundAtLast(tr: seq<State>, acts: seq<Action>, j: nat, t: Tid, rh: nat, key: Key)
    requires IsRun(tr, acts) && 0 < j < |tr| && Looking(tr, j - 1, j, t, rh, key) && tr[j].th[t].op.Returned?
    ensures var r := tr[j].th[t].op.r; r.NotFound? || (r.Found? && Answers(tr[j - 1].l, r, rh, key))
  {
    Reachable(tr, acts, j - 1);
    var s, a, r := tr[j - 1], acts[j - 1], tr[j].th[t].op.r;
    assert Enabled(s, a) && tr[j] == Do(s, a);
    LastAccess(s, a, t, rh, key);
    if r.Found? { FoundMeansPresent(s, a, t, rh, key, r.node, r.next); }
  }

  /** Whatever runs meanwhile, a lookup returns what it would have returned at one moment
      between its call and its return. */
  lemma LookupIsAtomic(tr: seq<State>, acts: seq<Action>, i: nat, j: nat, t: Tid, rh: nat, key: Key)
    requires IsRun(tr, acts) && i < j < |tr| && Looking(tr, i, j, t, rh, key)
    requires tr[i].th[t].op == LookStart(rh, key) && tr[j].th[t].op.Returned?
    requires (rh, key) in tr[0].r.uniq || (rh, key) in tr[0].r.dup
    ensures exists k :: i <= k < j && Answers(tr[k].l, tr[j].th[t].op.r, rh, key)
  {
    var r := tr[j].th[t].op.r;
    FoundAtLast(tr, acts, j, t, rh, key);
    if r.Found? {
      assert Answers(tr[j - 1].l, r, rh, key);
    } else {
      NotFoundMeansAbsent(tr, acts, i, j, t, rh, key);
      var k :| i <= k < j && !Present(tr[k].l, rh, key);
      assert Answers(tr[k].l, r, rh, key);
    }
  }
}
