/** The two table backends that allocate with `calloc`: one array for each order, and
    equal chunks.  A row set to null here is one that is not allocated; the freed
    pointer that the program leaves behind is never looked at again. */
module BucketTables {
  import opened SplitOrder
  import opened BitScan

  const MAX_TABLE_ORDER: nat := 64

  /** A bucket node as `calloc` leaves it, and as the table fills it in. */
  datatype Bucket = Bucket(next: nat, reverseHash: nat)

  const ZERO: Bucket := Bucket(0, 0)

  // --- where an index goes --------------------------------------------------------------

  /** The backend by orders: the row and column of index `i`. */
  function OrderRow(min: nat, i: nat): nat { if i < Pow2(min) then 0 else Fls(i) }

  function OrderCol(min: nat, i: nat): nat { if i < Pow2(min) || i == 0 then i else Low(i, Fls(i) - 1) }

  function OrderLength(min: nat, row: nat): nat { if row == 0 then Pow2(min) else Pow2(row - 1) }

  /** The backend by chunks. */
  function ChunkRow(min: nat, i: nat): nat { Shr(i, min) }

  function ChunkCol(min: nat, i: nat): nat { Low(i, min) }

  lemma OrderPlace(min: nat, i: nat)
    ensures i < Pow2(min) ==> OrderRow(min, i) == 0
    ensures i >= Pow2(min) ==> OrderRow(min, i) > min && i == Pow2(OrderRow(min, i) - 1) + OrderCol(min, i)
    ensures OrderCol(min, i) < OrderLength(min, OrderRow(min, i))
  {
    Pow2Positive(min);
    if i >= Pow2(min) {
      FlsExact(i);
      if Fls(i) <= min { Pow2Grows(Fls(i), min); }
      NextBit(i, Fls(i) - 1, 0);
    }
  }

  /** Two indices never share a cell. */
  lemma OrderInjective(min: nat, i: nat, j: nat)
    requires OrderRow(min, i) == OrderRow(min, j) && OrderCol(min, i) == OrderCol(min, j)
    ensures i == j
  {
    OrderPlace(min, i);
    OrderPlace(min, j);
  }

  /** A row above the minimum holds exactly the upper half of its order's indices. */
  lemma OrderCovers(min: nat, order: nat, i: nat)
    requires order > min
    ensures OrderRow(min, i) == order <==> Pow2(order - 1) <= i < Pow2(order)
  {
    Pow2Grows(min, order - 1);
    Pow2Positive(min);
    if i >= Pow2(min) {
      FlsExact(i);
      if Pow2(order - 1) <= i < Pow2(order) { FlsUnique(i, order); }
    }
  }

  lemma ChunkPlace(min: nat, i: nat)
    ensures i == Shl(ChunkRow(min, i), min) + ChunkCol(min, i) && ChunkCol(min, i) < Pow2(min)
  {
    Halves(i, min);
  }

  lemma ChunkInjective(min: nat, i: nat, j: nat)
    requires ChunkRow(min, i) == ChunkRow(min, j) && ChunkCol(min, i) == ChunkCol(min, j)
    ensures i == j
  {
    ChunkPlace(min, i);
    ChunkPlace(min, j);
  }

  /** The rows that one order allocates hold exactly the upper half of its indices. */
  lemma ChunkCovers(min: nat, order: nat, i: nat)
    requires order > min
    ensures Pow2(order - 1 - min) <= ChunkRow(min, i) < 2 * Pow2(order - 1 - min) <==>
            Pow2(order - 1) <= i < Pow2(order)
  {
    var len, r := Pow2(order - 1 - min), ChunkRow(min, i);
    ChunkPlace(min, i);
    ShlShl(1, order - 1 - min, min);
    ShlShl(1, order - min, min);
    if len <= r { ShlMonotone(len, r, min); } else { ShlAdd(r, 1, min); ShlMonotone(r + 1, len, min); }
    if r < 2 * len { ShlAdd(r, 1, min); ShlMonotone(r + 1, 2 * len, min); } else { ShlMonotone(2 * len, r, min); }
  }

  /** What `calloc` returns. */
  ghost predicate Zeroed(a: array<Bucket>)
    reads a
  {
    forall c {:trigger a[c]} | 0 <= c < a.Length :: a[c] == ZERO
  }

  // --- one array for each order ---------------------------------------------------------

  class OrderTable {
    const min: nat
    const tbl: array<array?<Bucket>>

    /** Which rows are allocated: 0 for all of the lowest orders, then one each. */
    ghost predicate Valid()
      reads this, tbl
    {
      && min < MAX_TABLE_ORDER && tbl.Length == MAX_TABLE_ORDER
      && (forall r {:trigger tbl[r]} | 0 <= r < tbl.Length && tbl[r] != null :: tbl[r].Length == OrderLength(min, r))
      && (forall r, s {:trigger tbl[r], tbl[s]} | 0 <= r < s < tbl.Length && tbl[r] != null :: tbl[r] != tbl[s])
    }

    /** Orders 0 to `k` are allocated. */
    ghost predicate Allocated(k: nat)
      reads this, tbl
      requires tbl.Length == MAX_TABLE_ORDER
    {
      k < MAX_TABLE_ORDER && forall r {:trigger tbl[r]} | 0 <= r <= k && (r == 0 || min < r) :: tbl[r] != null
    }

    constructor (min: nat)
      requires min < MAX_TABLE_ORDER
      ensures Valid() && this.min == min && fresh(tbl)
      ensures forall r {:trigger tbl[r]} | 0 <= r < tbl.Length :: tbl[r] == null
    {
      this.min := min;
      tbl := new array?<Bucket>[MAX_TABLE_ORDER](_ => null);
    }

    /** `cds_lfht_alloc_bucket_table`: fresh zeroed cells for exactly the indices of the
        order, and nothing else. */
    method AllocBucketTable(order: nat)
      requires Valid() && order < MAX_TABLE_ORDER
      modifies tbl
      ensures Valid()
      ensures order == 0 || order > min ==>
        tbl[order] != null && fresh(tbl[order]) && Zeroed(tbl[order])
      ensures forall r {:trigger tbl[r]} | 0 <= r < tbl.Length && !(r == order && (order == 0 || order > min)) ::
                tbl[r] == old(tbl[r])
      ensures (order > 0 ==> old(Allocated(order - 1))) ==> Allocated(order)
    {
      Pow2Positive(min);
      if order == 0 {
        tbl[0] := new Bucket[Pow2(min)](_ => ZERO);
      } else if order > min {
        Pow2Positive(order - 1);
        tbl[order] := new Bucket[Pow2(order - 1)](_ => ZERO);
      }
    }

    /** `cds_lfht_free_bucket_table`. */
    method FreeBucketTable(order: nat)
      requires Valid() && order < MAX_TABLE_ORDER
      modifies tbl
      ensures Valid()
      ensures order == 0 || order > min ==> tbl[order] == null
      ensures forall r {:trigger tbl[r]} | 0 <= r < tbl.Length && !(r == order && (order == 0 || order > min)) ::
                tbl[r] == old(tbl[r])
      ensures order > 0 && old(Allocated(order)) ==> Allocated(order - 1)
    {
      if order == 0 || order > min { tbl[order] := null; }
    }

    /** `bucket_at`: in bounds for every index below the size of the allocated orders. */
    method BucketAt(i: nat, ghost k: nat) returns (a: array<Bucket>, c: nat)
      requires Valid() && Allocated(k) && i < Pow2(k) && i < 0x1_0000_0000_0000_0000
      ensures OrderRow(min, i) < tbl.Length && a == tbl[OrderRow(min, i)] && c < a.Length && c == OrderCol(min, i)
    {
      RowAllocated(i, k);
      OrderPlace(min, i);
      if i < Pow2(min) { return tbl[0], i; }
      var order := FlsU64(i);
      return tbl[order], Low(i, order - 1);
    }

    lemma RowAllocated(i: nat, k: nat)
      requires Valid() && Allocated(k) && i < Pow2(k)
      ensures OrderRow(min, i) <= k && tbl[OrderRow(min, i)] != null
    {
      OrderPlace(min, i);
      if OrderRow(min, i) > k {
        Pow2Positive(min);
        FlsExact(i);
        Pow2Grows(k, Fls(i) - 1);
      }
    }

    /** Different indices are different cells. */
    lemma CellsDistinct(i: nat, j: nat, k: nat)
      requires Valid() && Allocated(k) && i < Pow2(k) && j < Pow2(k) && i != j
      ensures OrderRow(min, i) < tbl.Length && OrderRow(min, j) < tbl.Length
      ensures tbl[OrderRow(min, i)] != tbl[OrderRow(min, j)] || OrderCol(min, i) != OrderCol(min, j)
    {
      RowAllocated(i, k);
      RowAllocated(j, k);
      if OrderRow(min, i) == OrderRow(min, j) && OrderCol(min, i) == OrderCol(min, j) { OrderInjective(min, i, j); }
    }
  }

  // --- chunks of equal size -------------------------------------------------------------

  class ChunkTable {
    const min: nat
    const tbl: array<array?<Bucket>>

    ghost predicate Valid()
      reads this, tbl
    {
      && (forall r {:trigger tbl[r]} | 0 <= r < tbl.Length && tbl[r] != null :: tbl[r].Length == Pow2(min))
      && (forall r, s {:trigger tbl[r], tbl[s]} | 0 <= r < s < tbl.Length && tbl[r] != null :: tbl[r] != tbl[s])
    }

    /** The chunks of the indices below `Pow2(k)` are allocated. */
    ghost predicate Allocated(k: nat)
      reads this, tbl
    {
      forall i: nat {:trigger ChunkRow(min, i)} | i < Pow2(k) ::
        ChunkRow(min, i) < tbl.Length && tbl[ChunkRow(min, i)] != null
    }

    constructor (min: nat, chunks: nat)
      ensures Valid() && this.min == min && fresh(tbl) && tbl.Length == chunks
      ensures forall r {:trigger tbl[r]} | 0 <= r < tbl.Length :: tbl[r] == null
    {
      this.min := min;
      tbl := new array?<Bucket>[chunks](_ => null);
    }

    /** The rows that `order` allocates and frees. */
    predicate RowOf(order: nat, r: nat) {
      if order == 0 then r == 0 else order > min && Pow2(order - 1 - min) <= r < 2 * Pow2(order - 1 - min)
    }

    /** `cds_lfht_alloc_bucket_table`. */
    method AllocBucketTable(order: nat)
      requires Valid() && forall r: nat {:trigger RowOf(order, r)} | RowOf(order, r) :: r < tbl.Length
      modifies tbl
      ensures Valid()
      ensures forall r: nat {:trigger tbl[r]} | r < tbl.Length && RowOf(order, r) ::
                tbl[r] != null && fresh(tbl[r]) && Zeroed(tbl[r])
      ensures forall r: nat {:trigger tbl[r]} | r < tbl.Length && !RowOf(order, r) :: tbl[r] == old(tbl[r])
      ensures order == 0 || old(Allocated(order - 1)) ==> Allocated(if order == 0 then min else order)
    {
      FillRows(order);
      if order == 0 || old(Allocated(order - 1)) {
        var k := if order == 0 then min else order;
        forall i: nat {:trigger ChunkRow(min, i)} | i < Pow2(k)
          ensures ChunkRow(min, i) < tbl.Length && tbl[ChunkRow(min, i)] != null
        {
          RowsOfOrder(order, i);
          LowRow(order, i);
        }
      }
    }

    /** An index of an order that is allocated with the lowest is in row 0. */
    lemma LowRow(order: nat, i: nat)
      ensures i < Pow2(order) && order <= min ==> ChunkRow(min, i) == 0 == ChunkRow(min, 0)
      ensures order > 0 ==> 0 < Pow2(order - 1)
    {
      ChunkPlace(min, i);
      ChunkPlace(min, 0);
      Pow2Positive(min);
      if order > 0 { Pow2Positive(order - 1); }
      if order <= min { Pow2Grows(order, min); }
      if ChunkRow(min, i) > 0 { ShlMonotone(1, ChunkRow(min, i), min); }
      if ChunkRow(min, 0) > 0 { ShlMonotone(1, ChunkRow(min, 0), min); }
    }

    method FillRows(order: nat)
      requires Valid() && forall r: nat {:trigger RowOf(order, r)} | RowOf(order, r) :: r < tbl.Length
      modifies tbl
      ensures Valid()
      ensures forall r: nat {:trigger tbl[r]} | r < tbl.Length && RowOf(order, r) ::
                tbl[r] != null && fresh(tbl[r]) && Zeroed(tbl[r])
      ensures forall r: nat {:trigger tbl[r]} | r < tbl.Length && !RowOf(order, r) :: tbl[r] == old(tbl[r])
    {
      Pow2Positive(min);
      if order == 0 {
        assert RowOf(order, 0);
        tbl[0] := new Bucket[Pow2(min)](_ => ZERO);
      } else if order > min {
        var len := Pow2(order - 1 - min);
        Pow2Positive(order - 1 - min);
        assert RowOf(order, 2 * len - 1);
        for i := len to 2 * len
          invariant Valid()
          invariant forall r: nat {:trigger tbl[r]} | len <= r < i :: tbl[r] != null && fresh(tbl[r]) && Zeroed(tbl[r])
          invariant forall r: nat {:trigger tbl[r]} | r < tbl.Length && !(len <= r < i) :: tbl[r] == old(tbl[r])
        {
          tbl[i] := new Bucket[Pow2(min)](_ => ZERO);
        }
      }
    }

    /** `cds_lfht_free_bucket_table`. */
    method FreeBucketTable(order: nat)
      requires Valid() && forall r: nat {:trigger RowOf(order, r)} | RowOf(order, r) :: r < tbl.Length
      modifies tbl
      ensures Valid()
      ensures forall r: nat {:trigger tbl[r]} | r < tbl.Length && RowOf(order, r) :: tbl[r] == null
      ensures forall r: nat {:trigger tbl[r]} | r < tbl.Length && !RowOf(order, r) :: tbl[r] == old(tbl[r])
      ensures order > 0 && old(Allocated(order)) ==> Allocated(order - 1)
    {
      ClearRows(order);
      if order > 0 && old(Allocated(order)) {
        Pow2Grows(order - 1, order);
        forall i: nat {:trigger ChunkRow(min, i)} | i < Pow2(order - 1)
          ensures ChunkRow(min, i) < tbl.Length && tbl[ChunkRow(min, i)] != null
        {
          RowsOfOrder(order, i);
        }
      }
    }

    method ClearRows(order: nat)
      requires Valid() && forall r: nat {:trigger RowOf(order, r)} | RowOf(order, r) :: r < tbl.Length
      modifies tbl
      ensures Valid()
      ensures forall r: nat {:trigger tbl[r]} | r < tbl.Length && RowOf(order, r) :: tbl[r] == null
      ensures forall r: nat {:trigger tbl[r]} | r < tbl.Length && !RowOf(order, r) :: tbl[r] == old(tbl[r])
    {
      if order == 0 {
        assert RowOf(order, 0);
        tbl[0] := null;
      } else if order > min {
        var len := Pow2(order - 1 - min);
        Pow2Positive(order - 1 - min);
        assert RowOf(order, 2 * len - 1);
        for i := len to 2 * len
          invariant Valid()
          invariant forall r: nat {:trigger tbl[r]} | len <= r < i :: tbl[r] == null
          invariant forall r: nat {:trigger tbl[r]} | r < tbl.Length && !(len <= r < i) :: tbl[r] == old(tbl[r])
        {
          tbl[i] := null;
        }
      }
    }

    /** Allocating or freeing an order touches the cells of exactly the indices in its
        upper half (of all indices, where it is order 0). */
    lemma RowsOfOrder(order: nat, i: nat)
      ensures order > min ==> (RowOf(order, ChunkRow(min, i)) <==> Pow2(order - 1) <= i < Pow2(order))
      ensures 0 < order <= min ==> !RowOf(order, ChunkRow(min, i))
      ensures order == 0 ==> (RowOf(order, ChunkRow(min, i)) <==> i < Pow2(min))
    {
      if order > min { ChunkCovers(min, order, i); }
      if order == 0 {
        ChunkPlace(min, i);
        ShlZero(min);
        if ChunkRow(min, i) > 0 { ShlMonotone(1, ChunkRow(min, i), min); }
      }
    }

    /** `bucket_at`. */
    method BucketAt(i: nat, ghost k: nat) returns (a: array<Bucket>, c: nat)
      requires Valid() && Allocated(k) && i < Pow2(k)
      ensures ChunkRow(min, i) < tbl.Length && a == tbl[ChunkRow(min, i)] && c < a.Length && c == ChunkCol(min, i)
    {
      ChunkPlace(min, i);
      return tbl[Shr(i, min)], Low(i, min);
    }

    /** Different indices are different cells. */
    lemma CellsDistinct(i: nat, j: nat, k: nat)
      requires Valid() && Allocated(k) && i < Pow2(k) && j < Pow2(k) && i != j
      ensures ChunkRow(min, i) < tbl.Length && ChunkRow(min, j) < tbl.Length
      ensures tbl[ChunkRow(min, i)] != tbl[ChunkRow(min, j)] || ChunkCol(min, i) != ChunkCol(min, j)
    {
      if ChunkRow(min, i) == ChunkRow(min, j) && ChunkCol(min, i) == ChunkCol(min, j) { ChunkInjective(min, i, j); }
    }
  }
}
