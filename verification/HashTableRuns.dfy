/** What every run of the hash table machine guarantees. */
module HashTableRuns {
  import opened HashList
  import opened HashSteps
  import opened HashUnique
  import opened HashTable
  import opened HashTableProof
  import opened SplitOrder

  ghost predicate IsRun(tr: seq<State>, acts: seq<Action>) {
    && |tr| == |acts| + 1
    && Init(tr[0])
    && forall i {:trigger acts[i]} | 0 <= i < |acts| :: Enabled(tr[i], acts[i]) && tr[i + 1] == Do(tr[i], acts[i])
  }

  lemma {:induction false} Reachable(tr: seq<State>, acts: seq<Action>, i: nat)
    requires IsRun(tr, acts) && i < |tr|
    ensures Inv(tr[i])
  {
    if i == 0 {
      InitInv(tr[0]);
    } else {
      Reachable(tr, acts, i - 1);
      assert Enabled(tr[i - 1], acts[i - 1]);
      StepInv(tr[i - 1], acts[i - 1]);
    }
  }

  // --- uniqueness -----------------------------------------------------------------

  /** No reachable state has two unremoved nodes with the same key, for a key that
      enters by add_unique, add_replace or a key-preserving replace only. */
  lemma NoDuplicateKeys(tr: seq<State>, acts: seq<Action>, i: nat, n: Node, m: Node)
    requires IsRun(tr, acts) && i < |tr|
    requires Live(tr[i].l, n) && Live(tr[i].l, m) && n.User? && Matches(m, n.rh, n.key)
    requires (n.rh, n.key) in tr[i].r.uniq
    ensures n == m
  {
    Reachable(tr, acts, i);
  }

  // --- memory: flags, unlinking, reclamation ------------------------------------------

  lemma {:induction false} RunEvolves(tr: seq<State>, acts: seq<Action>, i: nat, j: nat, n: Node)
    requires IsRun(tr, acts) && i <= j < |tr| && n in tr[i].l.next
    ensures Kept(tr[i].l, tr[j].l, n)
    decreases j - i
  {
    Reachable(tr, acts, i);
    assert NodeOk(tr[i].l, n);
    if i < j {
      RunEvolves(tr, acts, i, j - 1, n);
      Reachable(tr, acts, j - 1);
      StepEvolves(tr[j - 1], acts[j - 1]);
      assert Kept(tr[j - 1].l, Do(tr[j - 1], acts[j - 1]).l, n);
    }
  }

  lemma StepEvolves(s: State, a: Action)
    requires Inv(s) && Enabled(s, a)
    ensures Evolves(s.l, Do(s, a).l)
  {
    if a.Run? {
      MoveOf(s, a.t, a.v);
      ApplyEvolves(s.l, Next(s.l, s.th[a.t].start, s.th[a.t].op, a.v).w);
    } else {
      assert Do(s, a).l == s.l;
      forall n | n in s.l.next ensures Kept(s.l, s.l, n) { assert NodeOk(s.l, n); }
    }
  }

  /** Once REMOVED is set the successor never changes, REMOVAL_OWNER implies REMOVED,
      no flag is ever cleared and the BUCKET flag is constant. */
  lemma RemovedIsFrozen(tr: seq<State>, acts: seq<Action>, i: nat, j: nat, n: Node)
    requires IsRun(tr, acts) && i <= j < |tr| && n in tr[i].l.next
    ensures n in tr[j].l.next
    ensures tr[i].l.next[n].removed ==> tr[j].l.next[n].removed && tr[j].l.next[n].to == tr[i].l.next[n].to
    ensures tr[i].l.next[n].owner ==> tr[j].l.next[n].owner && tr[i].l.next[n].removed
    ensures tr[i].l.next[n].bucket == tr[j].l.next[n].bucket == n.Bucket?
  {
    RunEvolves(tr, acts, i, j, n);
    Reachable(tr, acts, i);
    assert NodeOk(tr[i].l, n);
  }

  /** A del or replace returns only after its node has been unlinked, and it is never
      linked again. */
  lemma UnlinkedOnReturn(tr: seq<State>, acts: seq<Action>, i: nat, j: nat, t: Tid, r: Result)
    requires IsRun(tr, acts) && i <= j < |tr| && t in tr[i].th && tr[i].th[t].op == Returned(r)
    requires r.Removed? || r.Replaced? || r.BucketRemoved?
    ensures r.node in tr[j].l.next && r.node !in tr[j].l.on
  {
    Reachable(tr, acts, i);
    assert ThreadOk(tr[i], t);
    RunEvolves(tr, acts, i, j, r.node);
  }

  /** The nodes an operation in progress may still dereference. */
  predicate Holds(op: Op, n: Node) {
    match op
    case AddAt(_, _, prev, iter) => n == prev || iter.to == To(n)
    case AddScan(_, _, prev, iter, cur) => n == prev || iter.to == To(n) || cur == To(n)
    case AddCas(_, _, prev, iter) => n == prev
    case AddGc(_, _, prev, iter, nx) => n == prev || iter.to == To(n) || nx.to == To(n)
    case ReplCas(k, _, _, _) => n == k
    case GcStart(d, _) => n == d
    case GcAt(d, _, prev, iter) => n == d || n == prev || iter.to == To(n)
    case GcCas(d, _, prev, iter, nx) => n == d || n == prev || nx.to == To(n)
    case DelRead(d) => n == d
    case DelOr(d) => n == d
    case DelReread(d) => n == d
    case DelXchg(d, _) => n == d
    case BktOr(d) => n == d
    case LookAt(_, _, cur) => cur == To(n)
    case Returned(Found(x, _)) => n == x
    case Returned(Exists(x)) => n == x
    case _ => false
  }

  /** Memory freed after a grace period is never dereferenced: a section that began
      after a node was unlinked never gets hold of it.  `off` is what was unlinked
      when the section began. */
  lemma SectionAvoids(s: State, t: Tid, n: Node)
    requires Inv(s) && t in s.th && Holds(s.th[t].op, n)
    ensures n !in s.th[t].off && n !in s.freed
  {
    assert ThreadOk(s, t);
  }

  /** On every break path of a shrink, bucket memory is given back only when no
      operation in progress can reach it. */
  lemma FreedIsUnreferenced(tr: seq<State>, acts: seq<Action>, i: nat, t: Tid, n: Node)
    requires IsRun(tr, acts) && i < |tr| && t in tr[i].th && n in tr[i].freed
    ensures !Holds(tr[i].th[t].op, n) && n !in tr[i].l.on
    ensures !Resting(tr[i].th[t].op) ==> n != tr[i].th[t].start
  {
    var s := tr[i];
    Reachable(tr, acts, i);
    assert ThreadOk(s, t);
    if Holds(s.th[t].op, n) { SectionAvoids(s, t, n); }
    if !Resting(s.th[t].op) { assert NodeOk(s.l, s.th[t].start); }
  }

  /** A user node handed back by del may be reclaimed once every section that was
      running then has ended: sections entered later never meet it. */
  lemma {:induction false} LaterSectionsAvoid(tr: seq<State>, acts: seq<Action>, i: nat, e: nat, j: nat, t: Tid,
                                              n: Node)
    requires IsRun(tr, acts) && i <= e < j < |tr|
    requires n in tr[i].l.next && n !in tr[i].l.on
    requires acts[e] == Enter(t) && (forall k | e < k <= j :: t in tr[k].th)
    ensures n in tr[j].th[t].off && !Holds(tr[j].th[t].op, n)
    decreases j
  {
    Reachable(tr, acts, j);
    if j == e + 1 {
      RunEvolves(tr, acts, i, e, n);
      assert Enabled(tr[e], acts[e]) && tr[e + 1] == Do(tr[e], acts[e]);
    } else {
      LaterSectionsAvoid(tr, acts, i, e, j - 1, t, n);
      SameSection(tr[j - 1], acts[j - 1], t);
      assert tr[j] == Do(tr[j - 1], acts[j - 1]);
    }
    if Holds(tr[j].th[t].op, n) { SectionAvoids(tr[j], t, n); }
  }

  lemma SameSection(s: State, a: Action, t: Tid)
    requires Enabled(s, a) && t in s.th && t in Do(s, a).th
    ensures Do(s, a).th[t].off == s.th[t].off
  {
  }

  // --- removal ownership ------------------------------------------------------------

  /** Action `a` is the access with which a del or a replace wins node `n`. */
  ghost predicate Succeeds(s: State, a: Action, n: Node) {
    && a.Run? && a.t in s.th
    && var o := Next(s.l, s.th[a.t].start, s.th[a.t].op, a.v);
       (s.th[a.t].op.DelXchg? && o.op == Returned(Removed(n))) || (o.w.WReplace? && o.w.k == n)
  }

  lemma WinsCount(s: State, a: Action, n: Node)
    requires Inv(s) && Enabled(s, a)
    ensures Do(s, a).wins[n] == s.wins[n] + if Succeeds(s, a, n) then 1 else 0
  {
    if a.Run? { assert ThreadOk(s, a.t); }
  }

  lemma {:induction false} WinsGrow(tr: seq<State>, acts: seq<Action>, i: nat, j: nat, n: Node)
    requires IsRun(tr, acts) && i <= j < |tr|
    ensures tr[i].wins[n] <= tr[j].wins[n]
    ensures tr[j].wins[n] > tr[i].wins[n] ==> exists k :: i <= k < j && Succeeds(tr[k], acts[k], n)
    decreases j - i
  {
    if i < j {
      WinsGrow(tr, acts, i, j - 1, n);
      Reachable(tr, acts, j - 1);
      assert tr[j] == Do(tr[j - 1], acts[j - 1]);
      WinsCount(tr[j - 1], acts[j - 1], n);
    }
  }

  lemma WinsBound(tr: seq<State>, acts: seq<Action>, i: nat, n: Node)
    requires IsRun(tr, acts) && i < |tr|
    ensures tr[i].wins[n] <= 1
  {
    Reachable(tr, acts, i);
    assert Claimed(tr[i], n);
  }

  lemma FirstWin(tr: seq<State>, acts: seq<Action>, a: nat, n: Node)
    requires IsRun(tr, acts) && a < |acts| && Succeeds(tr[a], acts[a], n)
    ensures tr[a + 1].wins[n] >= 1
  {
    Reachable(tr, acts, a);
    assert tr[a + 1] == Do(tr[a], acts[a]);
    WinsCount(tr[a], acts[a], n);
  }

  lemma NoSecondWin(tr: seq<State>, acts: seq<Action>, a: nat, b: nat, n: Node)
    requires IsRun(tr, acts) && a < b < |acts| && tr[a + 1].wins[n] >= 1
    ensures !Succeeds(tr[b], acts[b], n)
  {
    Reachable(tr, acts, b);
    WinsGrow(tr, acts, a + 1, b, n);
    WinsBound(tr, acts, b + 1, n);
    assert tr[b + 1] == Do(tr[b], acts[b]);
    WinsCount(tr[b], acts[b], n);
  }

  /** Among all concurrent del and replace calls on a node at most one succeeds. */
  lemma AtMostOneRemoval(tr: seq<State>, acts: seq<Action>, i: nat, j: nat, n: Node)
    requires IsRun(tr, acts) && i < |acts| && j < |acts|
    requires Succeeds(tr[i], acts[i], n) && Succeeds(tr[j], acts[j], n)
    ensures i == j
  {
    var a := if i < j then i else j;
    FirstWin(tr, acts, a, n);
    if i < j { NoSecondWin(tr, acts, i, j, n); } else if j < i { NoSecondWin(tr, acts, j, i, n); }
  }

  /** And exactly one has, as soon as the node is removed and no del of it is still
      between setting REMOVED and its final exchange. */
  lemma SomeRemoval(tr: seq<State>, acts: seq<Action>, i: nat, n: Node)
    requires IsRun(tr, acts) && i < |tr| && n.User? && n in tr[i].l.next && tr[i].l.next[n].removed
    requires forall t | t in tr[i].th :: !DelBusy(tr[i].th[t].op, n)
    ensures exists k :: 0 <= k < i && Succeeds(tr[k], acts[k], n)
  {
    Reachable(tr, acts, i);
    assert Claimed(tr[i], n);
    WinsGrow(tr, acts, 0, i, n);
  }

  // --- lookups ------------------------------------------------------------------------

  /** Thread `t` is inside one lookup of the key in the states from `i` up to `j`. */
  ghost predicate Looking(tr: seq<State>, i: nat, j: nat, t: Tid, rh: nat, key: Key)
    requires i <= j < |tr|
  {
    && (forall k | i <= k < j :: t in tr[k].th
          && (tr[k].th[t].op == LookStart(rh, key)
              || (tr[k].th[t].op.LookAt? && tr[k].th[t].op.rh == rh && tr[k].th[t].op.key == key)))
    && t in tr[j].th
  }

  lemma LookAction(s: State, a: Action, t: Tid)
    requires Inv(s) && Enabled(s, a) && t in s.th && (s.th[t].op.LookStart? || s.th[t].op.LookAt?)
    ensures t in Do(s, a).th
    ensures !(a.Run? && a.t == t) ==> Do(s, a).th[t] == s.th[t]
    ensures !a.Run? ==> Do(s, a).l == s.l
  {
  }

  lemma LookKept(s: State, a: Action, t: Tid, rh: nat, key: Key)
    requires Inv(s) && Enabled(s, a) && t in s.th && !(a.Run? && a.t == t)
    requires s.th[t].op.LookAt? && s.th[t].op.rh == rh && s.th[t].op.key == key
    requires AllAhead(s.l, s.th[t].op.cur, rh, key) && Present(s.l, rh, key)
    requires (rh, key) in s.r.uniq || (rh, key) in s.r.dup
    ensures AllAhead(Do(s, a).l, s.th[t].op.cur, rh, key)
  {
    LookAction(s, a, t);
    if a.Run? {
      var x := s.th[a.t];
      assert ThreadOk(s, a.t);
      MoveOf(s, a.t, a.v);
      OtherLook(s.l, x.off, s.r, x.start, x.op, a.v, s.th[t].op.cur, rh, key);
    }
  }

  lemma LookWrites(s: State, t: Tid, v: real)
    requires t in s.th && Enabled(s, Run(t, v)) && (s.th[t].op.LookStart? || s.th[t].op.LookAt?)
    ensures Do(s, Run(t, v)).l == s.l
    ensures Do(s, Run(t, v)).th[t].op == Next(s.l, s.th[t].start, s.th[t].op, v).op
  {
  }

  /** Where a lookup of a key that stays present may be. */
  ghost predicate LookOk(s: State, t: Tid, rh: nat, key: Key) {
    && t in s.th
    && var op := s.th[t].op;
      || op == LookStart(rh, key)
      || (op.LookAt? && op.rh == rh && op.key == key && AllAhead(s.l, op.cur, rh, key))
      || (op.Returned? && op.r.Found? && Matches(op.r.node, rh, key))
  }

  lemma LookOwn(s: State, t: Tid, v: real, rh: nat, key: Key)
    requires Inv(s) && Enabled(s, Run(t, v)) && LookOk(s, t, rh, key) && !Resting(s.th[t].op) && Present(s.l, rh, key)
    requires (rh, key) in s.r.uniq || (rh, key) in s.r.dup
    ensures LookOk(Do(s, Run(t, v)), t, rh, key)
  {
    assert ThreadOk(s, t);
    OwnLook(s.l, s.th[t].off, s.r, s.th[t].start, s.th[t].op, v);
    LookWrites(s, t, v);
  }

  lemma LookStays(s: State, a: Action, t: Tid, rh: nat, key: Key)
    requires Inv(s) && Enabled(s, a) && LookOk(s, t, rh, key) && !Resting(s.th[t].op) && Present(s.l, rh, key)
    requires (rh, key) in s.r.uniq || (rh, key) in s.r.dup
    ensures LookOk(Do(s, a), t, rh, key)
  {
    if a.Run? && a.t == t {
      LookOwn(s, t, a.v, rh, key);
    } else {
      LookAction(s, a, t);
      if s.th[t].op.LookAt? { LookKept(s, a, t, rh, key); }
    }
  }

  /** While the key stays present, every live node with it stays ahead of the lookup. */
  lemma {:induction false} LookAhead(tr: seq<State>, acts: seq<Action>, i: nat, j: nat, t: Tid, rh: nat, key: Key)
    requires IsRun(tr, acts) && i <= j < |tr| && Looking(tr, i, j, t, rh, key)
    requires tr[i].th[t].op == LookStart(rh, key)
    requires (rh, key) in tr[0].r.uniq || (rh, key) in tr[0].r.dup
    requires forall k {:trigger tr[k].l} | i <= k < j :: Present(tr[k].l, rh, key)
    ensures LookOk(tr[j], t, rh, key)
    decreases j
  {
    if i < j {
      LookAhead(tr, acts, i, j - 1, t, rh, key);
      Reachable(tr, acts, j - 1);
      SameRules(tr, acts, j - 1);
      assert Present(tr[j - 1].l, rh, key);
      assert Enabled(tr[j - 1], acts[j - 1]) && tr[j] == Do(tr[j - 1], acts[j - 1]);
      LookStays(tr[j - 1], acts[j - 1], t, rh, key);
    }
  }

  lemma {:induction false} SameRules(tr: seq<State>, acts: seq<Action>, i: nat)
    requires IsRun(tr, acts) && i < |tr|
    ensures tr[i].r == tr[0].r
  {
    if i > 0 { SameRules(tr, acts, i - 1); assert tr[i] == Do(tr[i - 1], acts[i - 1]); }
  }

  /** A lookup that finds nothing saw the table at a moment when the key was absent,
      whatever was added, replaced, deleted, grown or shrunk meanwhile. */
  lemma NotFoundMeansAbsent(tr: seq<State>, acts: seq<Action>, i: nat, j: nat, t: Tid, rh: nat, key: Key)
    requires IsRun(tr, acts) && i < j < |tr| && Looking(tr, i, j, t, rh, key)
    requires tr[i].th[t].op == LookStart(rh, key) && tr[j].th[t].op == Returned(NotFound)
    requires (rh, key) in tr[0].r.uniq || (rh, key) in tr[0].r.dup
    ensures exists k :: i <= k < j && !Present(tr[k].l, rh, key)
  {
    if forall k {:trigger tr[k].l} | i <= k < j :: Present(tr[k].l, rh, key) {
      LookAhead(tr, acts, i, j, t, rh, key);
    }
  }

  /** A lookup that finds a node read its word while the node was live. */
  lemma FoundMeansPresent(s: State, a: Action, t: Tid, rh: nat, key: Key, n: Node, nx: Link)
    requires Inv(s) && Enabled(s, a) && t in s.th && s.th[t].op.LookAt?
    requires s.th[t].op.rh == rh && s.th[t].op.key == key
    requires t in Do(s, a).th && Do(s, a).th[t].op == Returned(Found(n, nx))
    ensures Live(s.l, n) && Matches(n, rh, key) && nx == s.l.next[n]
  {
    LookAction(s, a, t);
    assert ThreadOk(s, t);
    if a.Run? && a.t == t { LookWrites(s, t, a.v); }
  }

  lemma OwnAhead(s: State, t: Tid, v: real, m: Node)
    requires Inv(s) && Enabled(s, Run(t, v)) && (s.th[t].op.LookStart? || s.th[t].op.LookAt?)
    requires Live(s.l, m) && Matches(m, s.th[t].op.rh, s.th[t].op.key)
    requires s.th[t].op.LookAt? ==> OneAhead(s.l, s.th[t].op.cur, m)
    ensures var o := Next(s.l, s.th[t].start, s.th[t].op, v).op;
      || (o.LookAt? && o.rh == m.rh && o.key == m.key && OneAhead(s.l, o.cur, m))
      || (o.Returned? && o.r.Found?)
  {
    assert ThreadOk(s, t) && NodeOk(s.l, m);
    if s.th[t].op.LookStart? {
      BucketLeads(s.l, s.th[t].start, m);
    } else {
      LookStep(s.l, s.th[t].op.cur, m);
      assert NodeOk(s.l, s.th[t].op.cur.node);
    }
  }

  lemma OtherAhead(s: State, a: Action, cur: Ptr, m: Node)
    requires Inv(s) && Enabled(s, a) && Live(s.l, m) && OneAhead(s.l, cur, m) && (cur.To? ==> cur.node in s.l.next)
    ensures OneAhead(Do(s, a).l, cur, m)
  {
    StepEvolves(s, a);
    assert Kept(s.l, Do(s, a).l, m);
    if cur.To? { assert Kept(s.l, Do(s, a).l, cur.node); }
  }

  lemma StaysAhead(s: State, a: Action, t: Tid, m: Node)
    requires Inv(s) && Enabled(s, a) && t in s.th && (s.th[t].op.LookStart? || s.th[t].op.LookAt?)
    requires Live(s.l, m) && Matches(m, s.th[t].op.rh, s.th[t].op.key)
    requires s.th[t].op.LookAt? ==> OneAhead(s.l, s.th[t].op.cur, m)
    ensures t in Do(s, a).th
    ensures var op := Do(s, a).th[t].op;
      op == s.th[t].op || (op.LookAt? && op.rh == m.rh && op.key == m.key) || (op.Returned? && op.r.Found?)
    ensures Do(s, a).th[t].op.LookAt? ==> OneAhead(Do(s, a).l, Do(s, a).th[t].op.cur, m)
  {
    LookAction(s, a, t);
    if a.Run? && a.t == t {
      OwnAhead(s, t, a.v, m);
      LookWrites(s, t, a.v);
    } else if s.th[t].op.LookAt? {
      assert ThreadOk(s, t);
      OtherAhead(s, a, s.th[t].op.cur, m);
    }
  }

  /** A node that stays in the table for a whole lookup of its key is not missed, for
      any key and any way of adding it. */
  lemma {:induction false} StayerIsFound(tr: seq<State>, acts: seq<Action>, i: nat, j: nat, t: Tid, m: Node)
    requires IsRun(tr, acts) && i < j < |tr| && m.User? && Looking(tr, i, j, t, m.rh, m.key)
    requires tr[i].th[t].op == LookStart(m.rh, m.key)
    requires forall k {:trigger tr[k].l} | i <= k < j :: Live(tr[k].l, m)
    ensures tr[j].th[t].op != Returned(NotFound)
    ensures tr[j].th[t].op.LookAt? ==> OneAhead(tr[j].l, tr[j].th[t].op.cur, m)
    decreases j
  {
    Reachable(tr, acts, j - 1);
    assert Enabled(tr[j - 1], acts[j - 1]) && tr[j] == Do(tr[j - 1], acts[j - 1]);
    assert Live(tr[j - 1].l, m);
    if i < j - 1 { StayerIsFound(tr, acts, i, j - 1, t, m); }
    StaysAhead(tr[j - 1], acts[j - 1], t, m);
  }

  // --- resizing -------------------------------------------------------------------------

  /** Every index below the published size has a live linked bucket with the reversed
      index as its hash; an operation's start bucket is one of them, or was when its
      size was loaded, and is live as long as the operation runs. */
  lemma IndexAgrees(tr: seq<State>, acts: seq<Action>, i: nat, j: nat)
    requires IsRun(tr, acts) && i < |tr| && j < Pow2(tr[i].order)
    ensures j in tr[i].slot && Live(tr[i].l, tr[i].slot[j]) && tr[i].slot[j] in tr[i].l.on
    ensures tr[i].slot[j].Bucket? && tr[i].slot[j].rh == RevHash(j)
  {
    Reachable(tr, acts, i);
    assert Published(tr[i], j);
    assert NodeOk(tr[i].l, tr[i].slot[j]);
  }

  lemma StartIsLive(tr: seq<State>, acts: seq<Action>, i: nat, t: Tid)
    requires IsRun(tr, acts) && i < |tr| && t in tr[i].th && !Resting(tr[i].th[t].op)
    ensures Live(tr[i].l, tr[i].th[t].start) && tr[i].th[t].start.Bucket? && tr[i].th[t].start !in tr[i].freed
  {
    Reachable(tr, acts, i);
    assert ThreadOk(tr[i], t);
    assert NodeOk(tr[i].l, tr[i].th[t].start);
  }

  /** A bucket is marked removed only when no operation that loaded a size covering it
      is still running. */
  lemma RetireAfterGracePeriod(tr: seq<State>, acts: seq<Action>, i: nat, t: Tid, u: Tid)
    requires IsRun(tr, acts) && i < |tr| && t in tr[i].th && u in tr[i].th && tr[i].th[t].op.BktOr?
    requires !Resting(tr[i].th[u].op)
    ensures Pow2(tr[i].th[u].order) <= RevHash(tr[i].th[t].op.d.rh)
  {
    Reachable(tr, acts, i);
    assert ThreadOk(tr[i], t) && ThreadOk(tr[i], u);
    Pow2Grows(tr[i].th[u].order, tr[i].order);
  }

  /** Operations of the resizer. */
  predicate BucketWork(op: Op) {
    match op
    case AddStart(n, _) => n.Bucket?
    case AddAt(n, _, _, _) => n.Bucket?
    case AddCas(n, _, _, _) => n.Bucket?
    case AddGc(n, _, _, _, _) => n.Bucket?
    case GcStart(d, _) => d.Bucket?
    case GcAt(d, _, _, _) => d.Bucket?
    case GcCas(d, _, _, _, _) => d.Bucket?
    case BktOr(_) => true
    case _ => false
  }

  /** Writes of the resizer: of buckets, or dropping a removed node. */
  predicate BucketWrite(w: Write) { w.Nop? || w.WUnlink? || ((w.WInsert? || w.WMark?) && w.n.Bucket?) }

  lemma BucketWrites(l: List, off: set<Node>, r: Rules, start: Node, op: Op, v: real)
    requires OpOk(l, off, r, start, op) && BucketWork(op)
    ensures BucketWrite(Next(l, start, op, v).w)
  {
  }

  lemma UsersKept(l: List, w: Write, n: Node)
    requires ListInv(l) && WriteOk(l, w) && BucketWrite(w) && n.User?
    ensures Live(Apply(l, w), n) <==> Live(l, n)
  {
  }

  lemma BucketWorkKeeps(s: State, t: Tid, v: real, n: Node)
    requires Inv(s) && Enabled(s, Run(t, v)) && n.User? && BucketWork(s.th[t].op)
    ensures Live(Do(s, Run(t, v)).l, n) <==> Live(s.l, n)
  {
    var x := s.th[t];
    assert ThreadOk(s, t);
    MoveOf(s, t, v);
    BucketWrites(s.l, x.off, s.r, x.start, x.op, v);
    UsersKept(s.l, Next(s.l, x.start, x.op, v).w, n);
  }

  /** Growing and shrinking keep the user nodes and their sequence. */
  lemma ResizeKeepsUsers(s: State, a: Action, n: Node)
    requires Inv(s) && Enabled(s, a) && n.User?
    requires a.Run? ==> BucketWork(s.th[a.t].op)
    ensures Live(Do(s, a).l, n) <==> Live(s.l, n)
    ensures n in s.l.next ==> n in s.l.pos && n in Do(s, a).l.pos && Do(s, a).l.pos[n] == s.l.pos[n]
  {
    StepEvolves(s, a);
    if a.Run? { BucketWorkKeeps(s, a.t, a.v, n); }
    if n in s.l.next { assert NodeOk(s.l, n); assert Kept(s.l, Do(s, a).l, n); }
  }
}
