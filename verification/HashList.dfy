/** The linked list under the hash table: the words that compare-and-swap,
    fetch-or and exchange operate on, and the effect of each such write.

    A node value is one incarnation of a node, so its reversed hash, its key and
    whether it is a bucket never change.  Two history variables accompany the
    memory.  `pos` places every node that was ever linked, removed ones included,
    on a line; `on` is the set of nodes that a walk from the first bucket meets. */
module HashList {

  type Key = nat

  datatype Node =
    | Bucket(gen: nat, rh: nat)
    | User(id: nat, rh: nat, key: Key)

  datatype Ptr = End | To(node: Node)

  /** A `next` word: successor, REMOVED, BUCKET and REMOVAL_OWNER flags. */
  datatype Link = Link(to: Ptr, removed: bool, bucket: bool, owner: bool)

  datatype List = List(next: map<Node, Link>, pos: map<Node, real>, on: set<Node>)

  const HEAD: Node := Bucket(0, 0)

  predicate Live(l: List, n: Node) {
    n in l.next && !l.next[n].removed
  }

  predicate Known(l: List, p: Ptr)
  {
    p.To? ==> p.node in l.next && p.node in l.pos
  }

  /** Reading `n.next`.  No step reads a node that was never linked. */
  function Load(l: List, n: Node): Link {
    if n in l.next then l.next[n] else Link(End, true, false, false)
  }

  /** `n` is strictly before `p` on the line; the end is after everything. */
  predicate Before(l: List, n: Node, p: Ptr)
    requires n in l.pos && (p.To? ==> p.node in l.pos)
  {
    p.To? ==> l.pos[n] < l.pos[p.node]
  }

  /** Following `p` does not jump over `m`. */
  predicate NotPast(l: List, p: Ptr, m: Node)
    requires m in l.pos && (p.To? ==> p.node in l.pos)
  {
    p.To? && l.pos[p.node] <= l.pos[m]
  }

  /** What every node that was ever linked satisfies. */
  ghost predicate NodeOk(l: List, n: Node) {
    && n in l.next && n in l.pos && HEAD in l.pos
    && Known(l, l.next[n].to)
    && Before(l, n, l.next[n].to)
    && l.pos[HEAD] <= l.pos[n]
    && l.next[n].bucket == n.Bucket?
    && (l.next[n].owner ==> l.next[n].removed && n.User?)
    && (Live(l, n) ==> n in l.on)
    && (n in l.on && l.next[n].to.To? ==> l.next[n].to.node in l.on)
  }

  /** What any two of them satisfy, `n` being before `m` on the line:
      a link jumps over removed nodes only; the walk from the first bucket meets
      every member of `on`; everything before a linked node has a reversed hash no
      larger; and a user node never precedes a live bucket of its reversed hash. */
  ghost predicate PairOk(l: List, n: Node, m: Node)
  {
    && NodeOk(l, n) && NodeOk(l, m)
    && (n != m ==> l.pos[n] != l.pos[m])
    && (l.pos[n] < l.pos[m] ==>
      && (Live(l, m) ==> NotPast(l, l.next[n].to, m))
      && (n in l.on && m in l.on ==> NotPast(l, l.next[n].to, m))
      && (m in l.on ==> n.rh <= m.rh)
      && (Live(l, m) && m.Bucket? && n.User? ==> n.rh != m.rh))
  }

  ghost predicate ListInv(l: List) {
    && l.on <= l.next.Keys
    && Live(l, HEAD)
    && (forall n {:trigger NodeOk(l, n)} :: n in l.pos || n in l.next ==> NodeOk(l, n))
    && (forall n, m {:trigger PairOk(l, n, m)} | n in l.next && m in l.next :: PairOk(l, n, m))
  }

  // --- the writes ---------------------------------------------------------

  /** `v` is a free place right after `p`. */
  predicate FreePlace(l: List, p: Node, v: real)
    requires p in l.pos
  {
    l.pos[p] < v && forall m | m in l.pos :: l.pos[m] <= l.pos[p] || v < l.pos[m]
  }

  /** Successful insertion compare-and-swap on `p.next`, which held `was`. */
  function Insert(l: List, p: Node, n: Node, was: Link, v: real): List {
    List(
      l.next[n := Link(was.to, false, n.Bucket?, false)][p := Link(To(n), false, was.bucket, false)],
      l.pos[n := v],
      l.on + {n})
  }

  /** Successful unlink compare-and-swap on `p.next`: drop the removed node `x`. */
  function Unlink(l: List, p: Node, x: Node, was: Link, to: Ptr): List {
    List(l.next[p := Link(to, false, was.bucket, false)], l.pos, l.on - {x})
  }

  /** Fetch-or of the REMOVED flag. */
  function Mark(l: List, n: Node): List {
    l.(next := l.next[n := Load(l, n).(removed := true)])
  }

  /** Exchange that stores `w` with the REMOVAL_OWNER flag. */
  function Own(l: List, n: Node, w: Link): List {
    l.(next := l.next[n := w.(owner := true)])
  }

  /** Successful replacement compare-and-swap on `k.next`, which held `was`. */
  function Replace(l: List, k: Node, n: Node, was: Link, v: real): List {
    List(
      l.next[n := Link(was.to, false, false, false)][k := Link(To(n), true, false, true)],
      l.pos[n := v],
      l.on + {n})
  }

  // --- each write keeps the invariant ---------------------------------------

  /** Where an insertion may happen: at a live `p`, in hash order, buckets ahead
      of the user nodes of their hash. */
  ghost predicate InsertOk(l: List, p: Node, n: Node)
    requires p in l.next
  {
    var to := l.next[p].to;
    && Live(l, p) && n !in l.next && p.rh <= n.rh
    && (to.To? ==> n.rh <= to.node.rh)
    && (n.Bucket? ==> p.rh < n.rh)
    && (n.User? && to.To? && to.node.rh == n.rh ==> to.node.User?)
  }

  lemma InsertKeeps(l: List, p: Node, n: Node, v: real)
    requires ListInv(l) && p in l.next && InsertOk(l, p, n)
    requires p in l.pos && FreePlace(l, p, v)
    ensures ListInv(Insert(l, p, n, l.next[p], v))
  {
    var k := Insert(l, p, n, l.next[p], v);
    assert NodeOk(l, p);
    assert NodeOk(l, HEAD);
    forall x | x in k.next || x in k.pos ensures NodeOk(k, x) {
      if x != n { assert NodeOk(l, x); }
    }
    forall x, y | x in k.next && y in k.next ensures PairOk(k, x, y) {
      InsertPair(l, p, n, v, x, y);
    }
  }

  lemma InsertPair(l: List, p: Node, n: Node, v: real, x: Node, y: Node)
    requires ListInv(l) && p in l.next && InsertOk(l, p, n)
    requires p in l.pos && FreePlace(l, p, v)
    requires x in Insert(l, p, n, l.next[p], v).next && y in Insert(l, p, n, l.next[p], v).next
    requires NodeOk(Insert(l, p, n, l.next[p], v), x) && NodeOk(Insert(l, p, n, l.next[p], v), y)
    ensures PairOk(Insert(l, p, n, l.next[p], v), x, y)
  {
    assert NodeOk(l, p);
    var to := l.next[p].to;
    if x != n && y != n {
      assert PairOk(l, x, y);
    } else if x == n && y != n {
      assert PairOk(l, p, y);
      if to.To? && to.node != y { assert PairOk(l, to.node, y); }
    } else if x != n {
      assert PairOk(l, x, p);
      if to.To? && x != p { assert PairOk(l, to.node, x); assert PairOk(l, p, x); }
    }
  }

  lemma UnlinkKeeps(l: List, p: Node, x: Node)
    requires ListInv(l) && Live(l, p) && l.next[p].to == To(x) && x in l.next && l.next[x].removed
    ensures ListInv(Unlink(l, p, x, l.next[p], l.next[x].to))
  {
    var k := Unlink(l, p, x, l.next[p], l.next[x].to);
    assert NodeOk(l, p) && NodeOk(l, x);
    forall a | a in k.next || a in k.pos ensures NodeOk(k, a) {
      assert NodeOk(l, a);
      assert PairOk(l, a, p) && PairOk(l, p, a);
    }
    forall a, b | a in k.next && b in k.next ensures PairOk(k, a, b) {
      assert PairOk(l, a, b) && PairOk(l, x, b);
    }
  }

  lemma MarkKeeps(l: List, n: Node)
    requires ListInv(l) && n in l.next && n != HEAD
    ensures ListInv(Mark(l, n))
  {
    var k := Mark(l, n);
    forall a | a in k.next || a in k.pos ensures NodeOk(k, a) {
      assert NodeOk(l, a);
    }
    forall a, b | a in k.next && b in k.next ensures PairOk(k, a, b) {
      assert PairOk(l, a, b);
    }
  }

  lemma OwnKeeps(l: List, n: Node, w: Link)
    requires ListInv(l) && n in l.next && n.User? && l.next[n].removed
    requires w.to == l.next[n].to && w.removed && w.bucket == l.next[n].bucket
    ensures ListInv(Own(l, n, w))
  {
    var k := Own(l, n, w);
    forall a | a in k.next || a in k.pos ensures NodeOk(k, a) {
      assert NodeOk(l, a);
    }
    forall a, b | a in k.next && b in k.next ensures PairOk(k, a, b) {
      assert PairOk(l, a, b);
    }
  }

  lemma ReplaceKeeps(l: List, o: Node, n: Node, v: real)
    requires ListInv(l) && Live(l, o) && o.User? && n.User? && n.rh == o.rh
    requires n !in l.next && o in l.pos && FreePlace(l, o, v)
    ensures ListInv(Replace(l, o, n, l.next[o], v))
  {
    var k := Replace(l, o, n, l.next[o], v);
    assert NodeOk(l, o);
    forall x | x in k.next || x in k.pos ensures NodeOk(k, x) {
      if x != n { assert NodeOk(l, x); }
    }
    forall x, y | x in k.next && y in k.next ensures PairOk(k, x, y) {
      if x != n && y != n {
        assert PairOk(l, x, y);
      } else if x == n && y != n {
        assert PairOk(l, o, y);
      } else if x != n {
        assert PairOk(l, x, o);
      }
    }
  }

  // --- one write of any kind --------------------------------------------------

  datatype Write =
    | Nop
    | WInsert(p: Node, n: Node, v: real)
    | WUnlink(p: Node, x: Node, to: Ptr)
    | WMark(n: Node)
    | WOwn(n: Node, w: Link)
    | WReplace(k: Node, n: Node, v: real)

  function Apply(l: List, w: Write): List {
    match w
    case Nop => l
    case WInsert(p, n, v) => Insert(l, p, n, Load(l, p), v)
    case WUnlink(p, x, to) => Unlink(l, p, x, Load(l, p), to)
    case WMark(n) => Mark(l, n)
    case WOwn(n, word) => Own(l, n, word)
    case WReplace(k, n, v) => Replace(l, k, n, Load(l, k), v)
  }

  ghost predicate WriteOk(l: List, w: Write) {
    match w
    case Nop => true
    case WInsert(p, n, v) => p in l.next && p in l.pos && InsertOk(l, p, n) && FreePlace(l, p, v)
    case WUnlink(p, x, to) =>
      Live(l, p) && l.next[p].to == To(x) && x in l.next && l.next[x].removed && to == l.next[x].to
    case WMark(n) => n in l.next && n != HEAD
    case WOwn(n, word) =>
      && n in l.next && n.User? && l.next[n].removed
      && word.to == l.next[n].to && word.removed && word.bucket == l.next[n].bucket
    case WReplace(k, n, v) =>
      && Live(l, k) && k.User? && n.User? && n.rh == k.rh && n.key == k.key
      && n !in l.next && k in l.pos && FreePlace(l, k, v)
  }

  lemma ApplyKeeps(l: List, w: Write)
    requires ListInv(l) && WriteOk(l, w)
    ensures ListInv(Apply(l, w))
  {
    match w
    case Nop =>
    case WInsert(p, n, v) => InsertKeeps(l, p, n, v);
    case WUnlink(p, x, to) => UnlinkKeeps(l, p, x);
    case WMark(n) => MarkKeeps(l, n);
    case WOwn(n, word) => OwnKeeps(l, n, word);
    case WReplace(k, n, v) => ReplaceKeeps(l, k, n, v);
  }

  /** What no write undoes: a node keeps its place; REMOVED and REMOVAL_OWNER stay
      set and freeze the successor; an unlinked node is never linked again. */
  ghost predicate Kept(l: List, k: List, n: Node) {
    && n in l.next && n in k.next && n in l.pos && n in k.pos
    && k.pos[n] == l.pos[n]
    && (l.next[n].removed ==> k.next[n].removed && k.next[n].to == l.next[n].to)
    && (l.next[n].owner ==> k.next[n].owner)
    && k.next[n].bucket == l.next[n].bucket
    && (n !in l.on ==> n !in k.on)
  }

  ghost predicate Evolves(l: List, k: List) {
    forall n {:trigger Kept(l, k, n)} | n in l.next :: Kept(l, k, n)
  }

  lemma ApplyEvolves(l: List, w: Write)
    requires ListInv(l) && WriteOk(l, w)
    ensures Evolves(l, Apply(l, w))
  {
    forall n | n in l.next ensures Kept(l, Apply(l, w), n) {
      assert NodeOk(l, n);
    }
  }

  /** `off` was unlinked, and no other node leads into it. */
  ghost predicate Closed(l: List, off: set<Node>) {
    && off <= l.next.Keys
    && off !! l.on
    && forall n {:trigger l.next[n]} | n in l.next && n !in off && l.next[n].to.To? :: l.next[n].to.node !in off
  }

  lemma ApplyCloses(l: List, w: Write, off: set<Node>)
    requires ListInv(l) && WriteOk(l, w) && Closed(l, off)
    ensures Closed(Apply(l, w), off)
  {
    match w
    case WInsert(p, n, v) => assert NodeOk(l, p);
    case WUnlink(p, x, to) => assert NodeOk(l, p); assert NodeOk(l, x);
    case WReplace(k, n, v) => assert NodeOk(l, k);
    case _ =>
  }

  /** The nodes unlinked so far are closed in this sense. */
  lemma UnlinkedClosed(l: List)
    requires ListInv(l)
    ensures Closed(l, l.next.Keys - l.on)
  {
    forall n | n in l.next && n in l.on && l.next[n].to.To? ensures l.next[n].to.node in l.on {
      assert NodeOk(l, n);
    }
  }

  /** There is always a free place: the history variable restricts no step. */
  lemma FreePlaceExists(l: List, p: Node) returns (v: real)
    requires p in l.pos
    ensures FreePlace(l, p, v)
  {
    var above := set m | m in l.pos && l.pos[m] > l.pos[p];
    if above == {} {
      v := l.pos[p] + 1.0;
    } else {
      var c := Nearest(l, above);
      v := (l.pos[p] + l.pos[c]) / 2.0;
    }
    forall m | m in l.pos ensures l.pos[m] <= l.pos[p] || v < l.pos[m] {
      if l.pos[m] > l.pos[p] { assert m in above; }
    }
  }

  lemma {:induction false} Nearest(l: List, s: set<Node>) returns (c: Node)
    requires s != {} && s <= l.pos.Keys
    ensures c in s && forall m | m in s :: l.pos[c] <= l.pos[m]
  {
    c :| c in s;
    if s != {c} {
      var d := Nearest(l, s - {c});
      if l.pos[d] < l.pos[c] { c := d; }
    }
  }
}
