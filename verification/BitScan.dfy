/** Find-last-set by halving, and the order of a size. */
module BitScan {
  import opened SplitOrder

  /** The position of the highest set bit, from 1; 0 for 0. */
  function Fls(x: nat): nat { if x == 0 then 0 else 1 + Fls(x / 2) }

  lemma {:induction false} FlsExact(x: nat)
    requires x > 0
    ensures Fls(x) >= 1 && Pow2(Fls(x) - 1) <= x < Pow2(Fls(x))
  {
    if x == 1 {
      assert Fls(x / 2) == 0;
    } else {
      FlsExact(x / 2);
      assert Pow2(Fls(x / 2)) == 2 * Pow2(Fls(x / 2) - 1);
    }
  }

  lemma BetweenPowers(x: nat, f: nat, r: nat)
    requires f >= 1 && r >= 1 && Pow2(f - 1) <= x < Pow2(f) && Pow2(r - 1) <= x < Pow2(r)
    ensures f == r
  {
    if f < r { Pow2Grows(f, r - 1); } else if r < f { Pow2Grows(r, f - 1); }
  }

  /** Only one position is exact. */
  lemma FlsUnique(x: nat, r: nat)
    requires x > 0 && r >= 1 && Pow2(r - 1) <= x < Pow2(r)
    ensures Fls(x) == r
  {
    FlsExact(x);
    BetweenPowers(x, Fls(x), r);
  }

  lemma TimesStep(a: nat, p: nat, q: nat, c: nat, d: nat)
    requires q == 2 * p && d == 2 * c && a * p == c
    ensures a * q == d
  {
    assert a * (2 * p) == (a * p) * 2;
  }

  lemma {:induction false} ShlTimes(x: nat, s: nat, w: nat)
    ensures Shl(x, s) * Pow2(w) == Shl(x, s + w)
  {
    if w == 0 {
      assert Pow2(w) == 1;
    } else {
      ShlTimes(x, s, w - 1);
      TimesStep(Shl(x, s), Pow2(w - 1), Pow2(w), Shl(x, s + w - 1), Shl(x, s + w));
    }
  }

  /** A word shifted left until its top bit is set, and by how much. */
  lemma TopBit(x: nat, s: nat, bits: nat)
    requires s < bits && Pow2(bits - 1) <= Shl(x, s) < Pow2(bits)
    ensures Fls(x) == bits - s
  {
    var r := bits - s;
    ShlShl(1, r, s);
    ShlShl(1, r - 1, s);
    if x >= Pow2(r) { ShlMonotone(Pow2(r), x, s); }
    if x < Pow2(r - 1) { ShlStrict(x, Pow2(r - 1), s); }
    FlsUnique(x, r);
  }

  lemma {:induction false} ShlStrict(a: nat, b: nat, n: nat)
    requires a < b
    ensures Shl(a, n) < Shl(b, n)
  {
    if n > 0 { ShlStrict(a, b, n - 1); }
  }

  lemma PowSum(m: nat, n: nat)
    ensures Pow2(m) * Pow2(n) == Pow2(m + n)
  {
    ShlTimes(1, m, n);
  }

  /** The widths of the halving steps, and their powers. */
  lemma Widths() returns (w1: nat, w2: nat, w4: nat, w8: nat, w16: nat, w32: nat)
    ensures w1 == 1 && w2 == 2 && w4 == 4 && w8 == 8 && w16 == 16 && w32 == 32
    ensures Pow2(w1) == 2 && Pow2(w2) == 4 && Pow2(w4) == 0x10 && Pow2(w8) == 0x100 && Pow2(w16) == 0x1_0000
    ensures Pow2(w32) == 0x1_0000_0000
  {
    w1, w2, w4, w8, w16, w32 := 1, 2, 4, 8, 16, 32;
    PowSum(w8, w8);
    PowSum(w16, w16);
  }

  /** `y` is `x` shifted left by `bits - r`, and its top `clear` bits are not all clear. */
  predicate Shifted(x: nat, y: nat, r: nat, bits: nat, lo: nat, hi: nat) {
    r <= bits && y == Shl(x, bits - r) && lo <= y < hi
  }

  lemma MulMonotone(a: nat, b: nat, f: nat)
    ensures a <= b ==> a * f <= b * f
    ensures a < b && f > 0 ==> a * f < b * f
  {
  }

  /** One halving step: where the top `w` bits are clear, the word moves up by `w`. */
  method Step(ghost x: nat, y: nat, r: nat, ghost bits: nat, w: nat, f: nat, ghost lo: nat, mid: nat, ghost hi: nat)
    returns (y': nat, r': nat)
    requires Shifted(x, y, r, bits, lo, hi) && w <= r && f == Pow2(w) && lo * f == mid && mid * f == hi
    ensures Shifted(x, y', r', bits, mid, hi) && r' >= r - w
  {
    y', r' := y, r;
    if y < mid {
      Pow2Positive(w);
      ShlTimes(x, bits - r, w);
      MulMonotone(lo, y, f);
      MulMonotone(y, mid, f);
      y', r' := y * f, r - w;
    }
  }

  /** `fls_u64`: a mask of the top bits is clear exactly when the word is below the
      lowest bit of the mask. */
  method FlsU64(x: nat) returns (r: nat)
    requires x < 0x1_0000_0000_0000_0000
    ensures r == Fls(x)
  {
    if x == 0 { return 0; }
    ghost var w1, w2, w4, w8, w16, w32 := Widths();
    ghost var bits, top := w32 + w32, 0x1_0000_0000_0000_0000;
    PowSum(w32, w32);
    var y := x;
    r := 64;
    y, r := Step(x, y, r, bits, 32, 0x1_0000_0000, 1, 0x1_0000_0000, top);
    y, r := Step(x, y, r, bits, 16, 0x1_0000, 0x1_0000_0000, 0x1_0000_0000_0000, top);
    y, r := Step(x, y, r, bits, 8, 0x100, 0x1_0000_0000_0000, 0x100_0000_0000_0000, top);
    y, r := Step(x, y, r, bits, 4, 0x10, 0x100_0000_0000_0000, 0x1000_0000_0000_0000, top);
    y, r := Step(x, y, r, bits, 2, 4, 0x1000_0000_0000_0000, 0x4000_0000_0000_0000, top);
    y, r := Step(x, y, r, bits, 1, 2, 0x4000_0000_0000_0000, 0x8000_0000_0000_0000, top);
    TopBit(x, bits - r, bits);
  }

  /** `fls_u32`. */
  method FlsU32(x: nat) returns (r: nat)
    requires x < 0x1_0000_0000
    ensures r == Fls(x)
  {
    if x == 0 { return 0; }
    ghost var w1, w2, w4, w8, w16, w32 := Widths();
    ghost var bits, top := w32, 0x1_0000_0000;
    var y := x;
    r := 32;
    y, r := Step(x, y, r, bits, 16, 0x1_0000, 1, 0x1_0000, top);
    y, r := Step(x, y, r, bits, 8, 0x100, 0x1_0000, 0x100_0000, top);
    y, r := Step(x, y, r, bits, 4, 0x10, 0x100_0000, 0x1000_0000, top);
    y, r := Step(x, y, r, bits, 2, 4, 0x1000_0000, 0x4000_0000, top);
    y, r := Step(x, y, r, bits, 1, 2, 0x4000_0000, 0x8000_0000, top);
    TopBit(x, bits - r, bits);
  }

  /** `cds_lfht_get_count_order_ulong`: the smallest order whose power of two is at
      least `x`. */
  method CountOrder(x: nat) returns (r: int)
    requires x < 0x1_0000_0000_0000_0000
    ensures x == 0 ==> r == -1
    ensures x > 0 ==> r >= 0 && x <= Pow2(r) && forall n: nat {:trigger Pow2(n)} :: x <= Pow2(n) ==> r <= n
  {
    if x == 0 { return -1; }
    r := FlsU64(x - 1);
    OrderIsLeast(x);
  }

  lemma OrderIsLeast(x: nat)
    requires x > 0
    ensures x <= Pow2(Fls(x - 1)) && forall n: nat {:trigger Pow2(n)} :: x <= Pow2(n) ==> Fls(x - 1) <= n
  {
    if x > 1 { FlsExact(x - 1); }
    forall n: nat {:trigger Pow2(n)} | x <= Pow2(n) ensures Fls(x - 1) <= n {
      if n < Fls(x - 1) { Pow2Grows(n, Fls(x - 1) - 1); }
    }
  }

  /** The order of a power of two is its exponent. */
  lemma OrderOfPow2(n: nat)
    ensures Pow2(n) >= 1 && Fls(Pow2(n) - 1) == n
  {
    Pow2Positive(n);
    OrderIsLeast(Pow2(n));
    if Fls(Pow2(n) - 1) < n { Pow2Grows(Fls(Pow2(n) - 1), n); }
  }

  lemma OrderFits(n: nat)
    requires n < 64
    ensures Pow2(n) < 0x1_0000_0000_0000_0000
  {
    var w1, w2, w4, w8, w16, w32 := Widths();
    PowSum(w32, w32);
    Pow2Grows(n, w32 + w32);
  }

  /** The order of a table's size. */
  method SizeOrder(size: nat, ghost n: nat) returns (r: nat)
    requires size == Pow2(n) && n < 64
    ensures r == n
  {
    OrderOfPow2(n);
    OrderFits(n);
    r := CountOrder(size);
    OrderIsLeast(size);
    assert r <= n;
    if r < n { Pow2Grows(r, n); }
  }
}
