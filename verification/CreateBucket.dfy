/** The first table: every bucket linked straight after its parent, which leaves the
    list in the order of the reversed hashes.  Buckets are named by their index; the
    backends put each in a cell of its own (module BucketTables). */
module CreateBucket {
  import opened SplitOrder
  import opened BitScan

  /** The end of the list. */
  const END: int := -1

  /** The bucket that comes `r`-th in a list of the buckets of `order`. */
  function Nth(order: nat, r: nat): int { if r < Pow2(order) then Rev(r, order) else END }

  /** Bucket `i` of a list of the buckets of `order` points to the next one in the order
      of the reversed indices. */
  predicate LinkOk(next: seq<int>, order: nat, i: nat) { i < |next| ==> next[i] == Nth(order, Rev(i, order) + 1) }

  ghost predicate Listed(next: seq<int>, order: nat) {
    Pow2(order) <= |next| && forall i: nat {:trigger LinkOk(next, order, i)} | i < Pow2(order) :: LinkOk(next, order, i)
  }

  /** One more order: bucket `i` doubles its place, and the new bucket `len + i` comes
      right after it. */
  lemma PlaceDoubles(i: nat, order: nat)
    requires i < Pow2(order)
    ensures Rev(i, order + 1) == 2 * Rev(i, order)
    ensures Rev(Pow2(order) + i, order + 1) == 2 * Rev(i, order) + 1
  {
    RevSplit(i, order, 1);
    RevSplit(Pow2(order) + i, order, 1);
    ShrOf(1, i, order);
    ShrOf(0, i, order);
    ShlZero(order);
    LowId(i, order);
    RevLow(Pow2(order) + i, order);
    RevOne(0);
    RevOne(1);
  }

  lemma NthDoubles(r: nat, order: nat)
    ensures Nth(order + 1, 2 * r) == Nth(order, r)
    ensures r < Pow2(order) ==> Nth(order + 1, 2 * r + 1) == Pow2(order) + Rev(r, order)
  {
    if r < Pow2(order) {
      RevBound(r, order);
      RevRev(r, order);
      var i := Rev(r, order);
      PlaceDoubles(i, order);
      Pow2Positive(order);
      RevRev(i, order + 1);
      RevRev(Pow2(order) + i, order + 1);
    }
  }

  /** Bucket `len + j` has been put between `j` and what followed it. */
  predicate Inserted(w: seq<int>, v: seq<int>, len: nat, j: nat) {
    j < |w| && j < |v| && len + j < |v| && v[j] == len + j && v[len + j] == w[j]
  }

  lemma LowerHalf(w: seq<int>, v: seq<int>, order: nat, i: nat)
    requires i < Pow2(order) && Inserted(w, v, Pow2(order), i)
    ensures LinkOk(v, order + 1, i)
  {
    PlaceDoubles(i, order);
    RevBound(i, order);
    NthDoubles(Rev(i, order), order);
    RevRev(i, order);
  }

  lemma UpperHalf(w: seq<int>, v: seq<int>, order: nat, j: nat)
    requires j < Pow2(order) && LinkOk(w, order, j) && Inserted(w, v, Pow2(order), j)
    ensures LinkOk(v, order + 1, Pow2(order) + j)
  {
    PlaceDoubles(j, order);
    NthDoubles(Rev(j, order) + 1, order);
  }

  /** Inserting the upper half of the next order, each bucket after its parent. */
  lemma Doubled(w: seq<int>, v: seq<int>, order: nat)
    requires Listed(w, order) && |v| == |w| && 2 * Pow2(order) <= |w|
    requires forall j: nat {:trigger Inserted(w, v, Pow2(order), j)} | j < Pow2(order) :: Inserted(w, v, Pow2(order), j)
    ensures Listed(v, order + 1)
  {
    var len := Pow2(order);
    forall i: nat {:trigger LinkOk(v, order + 1, i)} | i < 2 * len ensures LinkOk(v, order + 1, i) {
      if i < len {
        assert Inserted(w, v, len, i);
        LowerHalf(w, v, order, i);
      } else {
        assert LinkOk(w, order, i - len) && Inserted(w, v, len, i - len);
        UpperHalf(w, v, order, i - len);
      }
    }
    assert Pow2(order + 1) == 2 * len;
  }

  /** `cds_lfht_create_bucket`, for a size of `Pow2(n)`. */
  method Create(next: array<int>, rev: array<nat>, ghost n: nat)
    requires n < 64 && next.Length == rev.Length == Pow2(n) && next != rev as object
    modifies next, rev
    ensures Listed(next[..], n)
    ensures Reversed(rev[..], rev.Length)
  {
    Pow2Positive(n);
    First(next, rev);
    var last := SizeOrder(next.Length, n);
    var order: nat := 1;
    while order < last + 1
      invariant 1 <= order <= n + 1
      invariant Listed(next[..], order - 1) && Reversed(rev[..], Pow2(order - 1))
    {
      Pow2Grows(order, n);
      Link(next, rev, order);
      order := order + 1;
    }
  }

  /** Bucket 0. */
  method First(next: array<int>, rev: array<nat>)
    requires next.Length == rev.Length >= 1 && next != rev as object
    modifies next, rev
    ensures Listed(next[..], 0) && Reversed(rev[..], 1)
  {
    next[0] := END;
    rev[0] := 0;
    FirstListed(next[..]);
    RevZero(BITS);
  }

  /** The first `k` reversed hashes are set. */
  ghost predicate Reversed(w: seq<nat>, k: nat) {
    k <= |w| && forall i: nat {:trigger w[i]} | i < k :: w[i] == RevHash(i)
  }

  lemma FirstListed(w: seq<int>)
    requires |w| >= 1 && w[0] == END
    ensures Listed(w, 0)
  {
    assert LinkOk(w, 0, 0);
  }

  /** One order of the loop. */
  method Link(next: array<int>, rev: array<nat>, order: nat)
    requires order >= 1 && Pow2(order) <= next.Length == rev.Length && next != rev as object
    requires Listed(next[..], order - 1)
    requires Reversed(rev[..], Pow2(order - 1))
    modifies next, rev
    ensures Listed(next[..], order)
    ensures Reversed(rev[..], Pow2(order))
  {
    var len := Pow2(order - 1);
    ghost var was := next[..];
    for i := 0 to len
      invariant forall j: nat {:trigger was[j]} | j < i :: next[j] == len + j && next[len + j] == was[j]
      invariant forall j: nat {:trigger was[j]} | i <= j < len :: next[j] == was[j]
      invariant Reversed(rev[..], len + i)
    {
      rev[len + i] := RevHash(len + i);
      assert next[i] == was[i];
      next[len + i] := next[i];
      next[i] := len + i;
    }
    forall j: nat {:trigger Inserted(was, next[..], len, j)} | j < len ensures Inserted(was, next[..], len, j) {
      assert was[j] == was[j];
    }
    Doubled(was, next[..], order - 1);
  }

  // --- what the list is -----------------------------------------------------------------

  /** Walking the list from bucket 0. */
  function After(next: seq<int>, steps: nat): int {
    if steps == 0 then 0
    else
      var i := After(next, steps - 1);
      if 0 <= i < |next| then next[i] else END
  }

  /** The list visits the buckets in the order of their reversed indices, all of them,
      and ends. */
  lemma {:induction false} WalkIsSorted(next: seq<int>, order: nat, k: nat)
    requires Listed(next, order) && k <= Pow2(order)
    ensures After(next, k) == Nth(order, k)
  {
    Pow2Positive(order);
    if k == 0 {
      RevZero(order);
    } else {
      WalkIsSorted(next, order, k - 1);
      RevBound(k - 1, order);
      RevRev(k - 1, order);
      assert LinkOk(next, order, Rev(k - 1, order));
    }
  }

  /** Every bucket below the size is on the list, once. */
  lemma EveryBucketOnce(next: seq<int>, order: nat, i: nat)
    requires Listed(next, order) && i < Pow2(order)
    ensures Rev(i, order) < Pow2(order) && After(next, Rev(i, order)) == i
    ensures forall k: nat {:trigger After(next, k)} | k < Pow2(order) && After(next, k) == i :: k == Rev(i, order)
  {
    RevBound(i, order);
    RevRev(i, order);
    WalkIsSorted(next, order, Rev(i, order));
    forall k: nat {:trigger After(next, k)} | k < Pow2(order) && After(next, k) == i ensures k == Rev(i, order) {
      WalkIsSorted(next, order, k);
      RevRev(k, order);
    }
  }

  /** Along the list the reversed hashes grow strictly. */
  lemma ReversedHashesGrow(next: seq<int>, order: nat, i: nat)
    requires Listed(next, order) && i < Pow2(order) && order <= BITS && next[i] != END
    ensures 0 <= next[i] < Pow2(order) && RevHash(i) < RevHash(next[i])
  {
    assert LinkOk(next, order, i);
    RevBound(Rev(i, order) + 1, order);
    RevRev(Rev(i, order) + 1, order);
    RevShort(i, order);
    RevShort(next[i], order);
    ShlStrict(Rev(i, order), Rev(next[i], order), BITS - order);
  }

  lemma RevShort(i: nat, order: nat)
    requires i < Pow2(order) && order <= BITS
    ensures RevHash(i) == Shl(Rev(i, order), BITS - order)
  {
    RevSplit(i, order, BITS - order);
    ShrOf(0, i, order);
    ShlZero(order);
    RevZero(BITS - order);
  }
}
