/** Reachability through memory alone: the walk that follows `next` words, and how
    it relates to the history variables. */
module HashWalk {
  import opened HashList

  ghost function After(l: List, n: Node): set<Node>
    requires n in l.pos
  {
    set m | m in l.pos && l.pos[m] > l.pos[n]
  }

  /** The nodes met by following successor pointers from `p`. */
  ghost function Walk(l: List, p: Ptr): seq<Node>
    requires ListInv(l) && Known(l, p)
    decreases if p.End? then 0 else 1 + |After(l, p.node)|
  {
    if p.End? then []
    else
      assert NodeOk(l, p.node);
      var q := l.next[p.node].to;
      if q.To? then
        Shorter(l, p.node, q.node);
        [p.node] + Walk(l, q)
      else [p.node]
  }

  lemma Shorter(l: List, n: Node, m: Node)
    requires n in l.pos && m in l.pos && l.pos[n] < l.pos[m]
    ensures |After(l, m)| < |After(l, n)|
  {
    assert m in After(l, n) && m !in After(l, m);
    assert After(l, m) < After(l, n);
    Subset(After(l, m), After(l, n));
  }

  lemma {:induction false} Subset(a: set<Node>, b: set<Node>)
    requires a < b
    ensures |a| < |b|
  {
    var x :| x in b && x !in a;
    assert a <= b - {x};
    SubsetEq(a, b - {x});
  }

  lemma {:induction false} SubsetEq(a: set<Node>, b: set<Node>)
    requires a <= b
    ensures |a| <= |b|
  {
    if a != {} {
      var x :| x in a;
      SubsetEq(a - {x}, b - {x});
    }
  }

  /** A walk moves forward on the line. */
  lemma {:induction false} WalkForward(l: List, p: Ptr, m: Node)
    requires ListInv(l) && Known(l, p) && m in Walk(l, p)
    ensures p.To? && m in l.pos && l.pos[p.node] <= l.pos[m]
    decreases if p.End? then 0 else 1 + |After(l, p.node)|
  {
    assert NodeOk(l, p.node);
    var q := l.next[p.node].to;
    if m != p.node {
      Shorter(l, p.node, q.node);
      WalkForward(l, q, m);
    }
  }

  /** From any node, removed ones included, a walk meets every live node after it. */
  lemma {:induction false} WalkMeets(l: List, p: Ptr, m: Node)
    requires ListInv(l) && Known(l, p) && Live(l, m) && m in l.pos && NotPast(l, p, m)
    ensures m in Walk(l, p)
    decreases if p.End? then 0 else 1 + |After(l, p.node)|
  {
    assert NodeOk(l, p.node) && PairOk(l, p.node, m);
    var q := l.next[p.node].to;
    if m != p.node {
      Shorter(l, p.node, q.node);
      WalkMeets(l, q, m);
    }
  }

  /** Reachability is decided by the order alone: a live node is met by a walk from
      `n` exactly if it is not before `n`. */
  lemma Reach(l: List, n: Node, m: Node)
    requires ListInv(l) && n in l.next && Live(l, m)
    ensures n in l.pos && m in l.pos && (m in Walk(l, To(n)) <==> l.pos[n] <= l.pos[m])
  {
    assert NodeOk(l, n) && NodeOk(l, m);
    if m in Walk(l, To(n)) { WalkForward(l, To(n), m); }
    if l.pos[n] <= l.pos[m] { WalkMeets(l, To(n), m); }
  }

  lemma {:induction false} LinkedMeets(l: List, n: Node, m: Node)
    requires ListInv(l) && n in l.on && m in l.on && n in l.pos && m in l.pos && l.pos[n] <= l.pos[m]
    ensures m in Walk(l, To(n))
    decreases |After(l, n)|
  {
    assert NodeOk(l, n) && PairOk(l, n, m);
    var q := l.next[n].to;
    if m != n {
      Shorter(l, n, q.node);
      LinkedMeets(l, q.node, m);
    }
  }

  lemma {:induction false} WalkLinked(l: List, n: Node, m: Node)
    requires ListInv(l) && n in l.on && n in l.pos && m in Walk(l, To(n))
    ensures m in l.on
    decreases |After(l, n)|
  {
    assert NodeOk(l, n);
    var q := l.next[n].to;
    if m != n {
      Shorter(l, n, q.node);
      WalkLinked(l, q.node, m);
    }
  }

  /** `on` is what it is meant to be: the nodes that memory links from the first bucket. */
  lemma LinkedIsReachable(l: List, n: Node)
    requires ListInv(l)
    ensures NodeOk(l, HEAD) && (n in l.on <==> n in Walk(l, To(HEAD)))
  {
    assert NodeOk(l, HEAD);
    if n in l.on { assert NodeOk(l, n); LinkedMeets(l, HEAD, n); }
    if n in Walk(l, To(HEAD)) { WalkLinked(l, HEAD, n); }
  }

  /** A write keeps every unremoved node reachable from every node that reached it. */
  lemma ReachKept(l: List, w: Write, n: Node, m: Node)
    requires ListInv(l) && WriteOk(l, w) && n in l.next && Live(l, m) && NodeOk(l, n)
    requires m in Walk(l, To(n)) && Live(Apply(l, w), m)
    ensures ListInv(Apply(l, w)) && NodeOk(Apply(l, w), n) && m in Walk(Apply(l, w), To(n))
  {
    var k := Apply(l, w);
    ApplyKeeps(l, w);
    ApplyEvolves(l, w);
    assert Kept(l, k, n) && Kept(l, k, m);
    assert NodeOk(k, n);
    Reach(l, n, m);
    Reach(k, n, m);
  }

  /** And a replacement is reachable from wherever the replaced node was. */
  lemma ReplacementReached(l: List, k: Node, n: Node, v: real, x: Node)
    requires ListInv(l) && WriteOk(l, WReplace(k, n, v)) && x in l.next && NodeOk(l, x) && k in Walk(l, To(x))
    ensures ListInv(Apply(l, WReplace(k, n, v))) && NodeOk(Apply(l, WReplace(k, n, v)), x)
    ensures n in Walk(Apply(l, WReplace(k, n, v)), To(x))
  {
    var w := WReplace(k, n, v);
    ApplyKeeps(l, w);
    ApplyEvolves(l, w);
    assert Kept(l, Apply(l, w), x);
    assert NodeOk(Apply(l, w), x);
    Reach(l, x, k);
    Reach(Apply(l, w), x, n);
  }

  /** The walk from any live bucket at or below a hash meets the same live user nodes
      of that hash as a walk from the first bucket. */
  lemma BucketScanIsFullScan(l: List, b: Node, m: Node)
    requires ListInv(l) && Live(l, b) && b.Bucket? && Live(l, m) && m.User? && b.rh <= m.rh
    ensures NodeOk(l, b) && NodeOk(l, HEAD)
    ensures m in Walk(l, To(b)) && m in Walk(l, To(HEAD))
  {
    assert NodeOk(l, b) && NodeOk(l, m) && PairOk(l, m, b) && PairOk(l, b, m);
    Reach(l, b, m);
    Reach(l, HEAD, m);
  }

  /** The linked list is sorted by reversed hash. */
  lemma {:induction false} WalkSorted(l: List, n: Node, i: nat, j: nat)
    requires ListInv(l) && n in l.on && n in l.pos && i <= j < |Walk(l, To(n))|
    ensures Walk(l, To(n))[i].rh <= Walk(l, To(n))[j].rh
    decreases |After(l, n)|
  {
    assert NodeOk(l, n);
    var w, q := Walk(l, To(n)), l.next[n].to;
    if i == 0 {
      var m := w[j];
      assert m in w;
      WalkLinked(l, n, m);
      WalkForward(l, To(n), m);
      assert PairOk(l, n, m);
    } else {
      Shorter(l, n, q.node);
      WalkSorted(l, q.node, i - 1, j - 1);
    }
  }
}
