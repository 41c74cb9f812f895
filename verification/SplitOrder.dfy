/** Machine-word arithmetic on naturals, bit reversal, and the split-order facts
    that the bucket index rests on.  Shifts and masks are defined one bit at a
    time, so every proof stays within linear arithmetic. */
module SplitOrder {

  const BITS: nat := 64

  /** `x << n`, for results that fit the word. */
  function Shl(x: nat, n: nat): nat { if n == 0 then x else 2 * Shl(x, n - 1) }

  /** `x >> n`. */
  function Shr(x: nat, n: nat): nat { if n == 0 then x else Shr(x / 2, n - 1) }

  /** `x & ((1 << n) - 1)`. */
  function Low(x: nat, n: nat): nat { if n == 0 then 0 else x % 2 + 2 * Low(x / 2, n - 1) }

  /** `1 << n`. */
  function Pow2(n: nat): nat { Shl(1, n) }

  /** Bit `i` of `x`. */
  function Bit(x: nat, i: nat): nat { Shr(x, i) % 2 }

  /** The low `n` bits of `x` in the opposite order. */
  function Rev(x: nat, n: nat): nat {
    if n == 0 then 0 else Shl(x % 2, n - 1) + Rev(x / 2, n - 1)
  }

  // --- shifts and masks ---------------------------------------------------------

  lemma Pow2Positive(n: nat)
    ensures Pow2(n) >= 1
  {
    if n > 0 { Pow2Positive(n - 1); }
  }

  lemma {:induction false} Pow2Grows(m: nat, n: nat)
    requires m <= n
    ensures Pow2(m) <= Pow2(n) && (m < n ==> Pow2(m) < Pow2(n))
  {
    Pow2Positive(n);
    if m < n {
      Pow2Positive(n - 1);
      Pow2Grows(m, n - 1);
    }
  }

  lemma ShlAdd(a: nat, b: nat, n: nat)
    ensures Shl(a + b, n) == Shl(a, n) + Shl(b, n)
  {
    if n > 0 { ShlAdd(a, b, n - 1); }
  }

  lemma ShlMonotone(a: nat, b: nat, n: nat)
    requires a <= b
    ensures Shl(a, n) <= Shl(b, n)
  {
  }

  lemma ShlShl(a: nat, m: nat, n: nat)
    ensures Shl(Shl(a, m), n) == Shl(a, m + n)
  {
  }

  lemma ShlZero(n: nat)
    ensures Shl(0, n) == 0
  {
  }

  lemma {:induction false} ShrShr(x: nat, m: nat, n: nat)
    ensures Shr(Shr(x, m), n) == Shr(x, m + n)
  {
    if m > 0 { ShrShr(x / 2, m - 1, n); }
  }

  lemma {:induction false} Halves(x: nat, n: nat)
    ensures x == Shl(Shr(x, n), n) + Low(x, n) && Low(x, n) < Pow2(n)
  {
    if n > 0 { Halves(x / 2, n - 1); }
  }

  lemma {:induction false} ShrOf(a: nat, b: nat, n: nat)
    requires b < Pow2(n)
    ensures Shr(Shl(a, n) + b, n) == a && Low(Shl(a, n) + b, n) == b
  {
    if n > 0 {
      var w := Shl(a, n) + b;
      assert w == 2 * (Shl(a, n - 1) + b / 2) + b % 2;
      ShrOf(a, b / 2, n - 1);
    }
  }

  lemma {:induction false} LowId(x: nat, n: nat)
    requires x < Pow2(n)
    ensures Low(x, n) == x && Shr(x, n) == 0
  {
    if n > 0 { LowId(x / 2, n - 1); }
  }

  lemma LowTwo(x: nat, n: nat)
    requires n >= 2
    ensures Low(x, n) == x % 4 + 4 * Low(x / 4, n - 2)
  {
    assert Low(x, n) == x % 2 + 2 * Low(x / 2, n - 1);
    assert Low(x / 2, n - 1) == x / 2 % 2 + 2 * Low(x / 4, n - 2);
  }

  lemma Mod256(q: nat, r: nat)
    requires r < 256
    ensures (256 * q + r) % 256 == r
  {
  }

  lemma LowByte(x: nat, n: nat)
    requires n == 8
    ensures Low(x, n) == x % 256
  {
    var x1, d0 := x / 4, x % 4;
    var x2, d1 := x1 / 4, x1 % 4;
    var x3, d2 := x2 / 4, x2 % 4;
    var x4, d3 := x3 / 4, x3 % 4;
    LowTwo(x, n); LowTwo(x1, n - 2); LowTwo(x2, n - 4); LowTwo(x3, n - 6);
    Mod256(x4, d0 + 4 * d1 + 16 * d2 + 64 * d3);
  }

  // --- bit reversal -------------------------------------------------------------

  lemma {:induction false} RevBound(x: nat, n: nat)
    ensures Rev(x, n) < Pow2(n)
  {
    if n > 0 {
      RevBound(x / 2, n - 1);
      ShlMonotone(x % 2, 1, n - 1);
    }
  }

  /** Bit `i` of the reversal is bit `n - 1 - i` of the word. */
  lemma {:induction false} RevBit(x: nat, n: nat, i: nat)
    requires i < n
    ensures Bit(Rev(x, n), i) == Bit(x, n - 1 - i)
  {
    RevBound(x / 2, n - 1);
    if i == n - 1 {
      ShrOf(x % 2, Rev(x / 2, n - 1), n - 1);
    } else {
      RevBit(x / 2, n - 1, i);
      BitBelow(x % 2, Rev(x / 2, n - 1), n - 1, i);
    }
  }

  lemma {:induction false} BitBelow(a: nat, b: nat, n: nat, i: nat)
    requires i < n
    ensures Bit(Shl(a, n) + b, i) == Bit(b, i)
  {
    var w := Shl(a, n) + b;
    assert w == 2 * Shl(a, n - 1) + b;
    if i > 0 {
      assert w / 2 == Shl(a, n - 1) + b / 2;
      BitBelow(a, b / 2, n - 1, i - 1);
    }
  }

  /** Reversing a word reverses its two parts and swaps them. */
  lemma {:induction false} RevSplit(x: nat, m: nat, n: nat)
    ensures Rev(x, m + n) == Shl(Rev(x, m), n) + Rev(Shr(x, m), n)
  {
    if m == 0 {
      ShlZero(n);
    } else {
      RevSplit(x / 2, m - 1, n);
      ShlShl(x % 2, m - 1, n);
      ShlAdd(Shl(x % 2, m - 1), Rev(x / 2, m - 1), n);
    }
  }

  /** Only the low bits matter. */
  lemma {:induction false} RevLow(x: nat, m: nat)
    ensures Rev(Low(x, m), m) == Rev(x, m)
  {
    if m > 0 {
      RevLow(x / 2, m - 1);
      assert Low(x, m) % 2 == x % 2 && Low(x, m) / 2 == Low(x / 2, m - 1);
    }
  }

  lemma RevZero(n: nat)
    ensures Rev(0, n) == 0
  {
    if n > 0 { ShlZero(n - 1); RevZero(n - 1); }
  }

  lemma RevTop(b: nat, y: nat, m: nat, n: nat)
    requires b < 2 && y < Pow2(m) && n == 1
    ensures Rev(Shl(b, m) + y, m + n) == 2 * Rev(y, m) + b
  {
    var w := Shl(b, m) + y;
    RevSplit(w, m, n);
    ShrOf(b, y, m);
    RevLow(w, m);
    RevOne(b);
    assert Shl(Rev(y, m), n) == 2 * Rev(y, m);
  }

  /** Reversal is its own inverse on `n`-bit words. */
  lemma {:induction false} RevRev(x: nat, n: nat)
    requires x < Pow2(n)
    ensures Rev(Rev(x, n), n) == x
  {
    if n > 0 {
      RevRev(x / 2, n - 1);
      RevBound(x / 2, n - 1);
      RevTop(x % 2, Rev(x / 2, n - 1), n - 1, n - (n - 1));
    }
  }

  lemma RevOne(b: nat)
    requires b < 2
    ensures Rev(b, 1) == b
  {
    RevZero(0);
  }

  // --- the table-driven reversal ------------------------------------------------

  /** The order in which each table macro expands its four parts. */
  function Quarter(d: nat): nat
    requires d < 4
  {
    if d == 1 then 2 else if d == 2 then 1 else d
  }

  /** Entry `k` of what the macros R2, R4 and R6 expand to for `n`. */
  function R2(n: nat, k: nat): nat
    requires k < 4
  {
    n + Quarter(k) * 64
  }

  function R4(n: nat, k: nat): nat
    requires k < 16
  {
    R2(n + Quarter(k / 4) * 16, k % 4)
  }

  function R6(n: nat, k: nat): nat
    requires k < 64
  {
    R4(n + Quarter(k / 16) * 4, k % 16)
  }

  /** Entry `v` of the byte table. */
  function ReverseU8(v: nat): nat
    requires v < 256
  {
    R6(Quarter(v / 64), v % 64)
  }

  /** Byte `i` of a word, as the conversion to `uint8_t` takes it. */
  function Byte(v: nat, i: nat): (r: nat)
    ensures r < 256
  {
    Shr(v, 8 * i) % 256
  }

  /** Byte `i` reversed and moved to the mirrored lane. */
  function Lane(v: nat, i: nat): nat
    requires i < 8
  {
    Shl(ReverseU8(Byte(v, i)), 56 - 8 * i)
  }

  /** The eight byte lanes do not overlap, so or-ing them is adding them. */
  function ReverseU64(v: nat): nat {
    Lane(v, 0) + Lane(v, 1) + Lane(v, 2) + Lane(v, 3) + Lane(v, 4) + Lane(v, 5) + Lane(v, 6) + Lane(v, 7)
  }

  lemma {:induction false} ShlPairs(x: nat, n: nat)
    ensures n == 0 ==> Shl(x, n) == x
    ensures n == 2 ==> Shl(x, n) == 4 * x
    ensures n == 4 ==> Shl(x, n) == 16 * x
    ensures n == 6 ==> Shl(x, n) == 64 * x
  {
    if n > 1 { assert Shl(x, n) == 4 * Shl(x, n - 2); }
    if n > 3 { assert Shl(x, n - 2) == 4 * Shl(x, n - 4); }
    if n > 5 { assert Shl(x, n - 4) == 4 * Shl(x, n - 6); }
  }

  /** Two bits at a time. */
  lemma {:induction false} RevTwo(q: nat, d: nat, n: nat)
    requires d < 4
    ensures Rev(4 * q + d, n + 2) == Shl(Quarter(d), n) + Rev(q, n)
  {
    var x := 4 * q + d;
    assert x / 2 == 2 * q + d / 2 && x / 2 / 2 == q;
    assert Rev(x, n + 2) == Shl(d % 2, n + 1) + Rev(x / 2, n + 1);
    assert Rev(x / 2, n + 1) == Shl(d / 2, n) + Rev(q, n);
    ShlShl(d % 2, 1, n);
    assert Shl(d % 2, 1) == 2 * (d % 2);
    ShlAdd(2 * (d % 2), d / 2, n);
  }

  lemma TableDigits(v: nat, a: nat, b: nat, c: nat, d: nat)
    requires a < 4 && b < 4 && c < 4 && d < 4 && v == 4 * (4 * (4 * a + b) + c) + d
    ensures ReverseU8(v) == Quarter(a) + 4 * Quarter(b) + 16 * Quarter(c) + 64 * Quarter(d)
  {
    assert v / 64 == a && v % 64 == 16 * b + 4 * c + d;
    assert (16 * b + (4 * c + d)) / 16 == b && (16 * b + (4 * c + d)) % 16 == 4 * c + d;
    assert (4 * c + d) / 4 == c && (4 * c + d) % 4 == d;
  }

  lemma {:induction false} RevFour(q: nat, c: nat, d: nat, n: nat)
    requires c < 4 && d < 4
    ensures Rev(4 * (4 * q + c) + d, n + 4) == Shl(4 * Quarter(d) + Quarter(c), n) + Rev(q, n)
  {
    RevTwo(4 * q + c, d, n + 2);
    RevTwo(q, c, n);
    ShlShl(Quarter(d), 2, n);
    ShlPairs(Quarter(d), 2);
    ShlAdd(4 * Quarter(d), Quarter(c), n);
  }

  lemma {:induction false} RevDigits(v: nat, a: nat, b: nat, c: nat, d: nat, n: nat)
    requires a < 4 && b < 4 && c < 4 && d < 4 && v == 4 * (4 * (4 * a + b) + c) + d
    ensures Rev(v, n + 8) == Shl(64 * Quarter(d) + 16 * Quarter(c) + 4 * Quarter(b) + Quarter(a), n)
  {
    var hi, lo := 4 * Quarter(b) + Quarter(a), 4 * Quarter(d) + Quarter(c);
    RevFour(4 * a + b, c, d, n + 4);
    RevFour(0, a, b, n);
    RevZero(n);
    ShlShl(lo, 4, n);
    ShlPairs(lo, 4);
    ShlAdd(16 * lo, hi, n);
  }

  lemma {:induction false} DigitsReverse(v: nat, a: nat, b: nat, c: nat, d: nat, n: nat)
    requires a < 4 && b < 4 && c < 4 && d < 4 && v == 4 * (4 * (4 * a + b) + c) + d && n == 8
    ensures v < 256 && ReverseU8(v) == Rev(v, n)
  {
    TableDigits(v, a, b, c, d);
    var m := n - 8;
    RevDigits(v, a, b, c, d, m);
    assert Shl(64 * Quarter(d) + 16 * Quarter(c) + 4 * Quarter(b) + Quarter(a), m)
        == 64 * Quarter(d) + 16 * Quarter(c) + 4 * Quarter(b) + Quarter(a);
  }

  /** The byte table holds the reversal of every byte. */
  lemma ByteReverses(v: nat, n: nat)
    requires v < 256 && n == 8
    ensures ReverseU8(v) == Rev(v, n)
  {
    var v1 := v / 4;
    var v2 := v1 / 4;
    DigitsReverse(v, v2 / 4, v2 % 4, v1 % 4, v % 4, n);
  }

  /** One byte lane. */
  lemma RevLane(v: nat, i: nat)
    requires i < 8
    ensures Rev(Shr(v, 8 * i), 64 - 8 * i) == Lane(v, i) + Rev(Shr(v, 8 * i + 8), 56 - 8 * i)
  {
    var x, n, b := Shr(v, 8 * i), 56 - 8 * i, 64 - 56;
    RevSplit(x, b, n);
    RevLow(x, b);
    LowByte(x, b);
    ByteReverses(x % 256, b);
    ShrShr(v, 8 * i, b);
  }

  /** The lanes from the `i`-th on. */
  function Lanes(v: nat, i: nat): nat
    requires i <= 8
    decreases 8 - i
  {
    if i == 8 then 0 else Lane(v, i) + Lanes(v, i + 1)
  }

  lemma {:induction false} RevLanes(v: nat, i: nat)
    requires i <= 8
    ensures Rev(Shr(v, 8 * i), 64 - 8 * i) == Lanes(v, i)
    decreases 8 - i
  {
    if i < 8 { RevLane(v, i); RevLanes(v, i + 1); }
  }

  lemma LanesSum(v: nat)
    ensures Lanes(v, 0) == ReverseU64(v)
  {
  }

  /** The eight-lookup reversal of a 64-bit word is its bit reversal. */
  lemma ReverseU64Reverses(v: nat)
    ensures ReverseU64(v) == RevHash(v)
  {
    RevLanes(v, 0);
    LanesSum(v);
  }

  // --- buckets ------------------------------------------------------------------

  /** Reversed hash: what the eight table lookups compute. */
  function RevHash(hash: nat): nat { Rev(hash, BITS) }

  /** `hash & (size - 1)` in a table of `1 << order` buckets. */
  function BucketIndex(hash: nat, order: nat): nat { Low(hash, order) }

  lemma ClearLow(hash: nat, order: nat, n: nat)
    ensures Rev(Low(hash, order), order + n) + Low(Rev(hash, order + n), n) == Rev(hash, order + n)
    ensures Low(Rev(hash, order + n), n) < Pow2(n)
  {
    RevSplit(hash, order, n);
    RevSplit(Low(hash, order), order, n);
    RevLow(hash, order);
    Halves(hash, order);
    LowId(Low(hash, order), order);
    RevZero(n);
    RevBound(Shr(hash, order), n);
    ShrOf(Rev(hash, order), Rev(Shr(hash, order), n), n);
  }

  lemma NextBit(j: nat, m: nat, n: nat)
    requires Pow2(m) <= j < Pow2(m + 1)
    ensures Low(j, m) == j - Pow2(m)
    ensures Rev(j - Pow2(m), m + 1 + n) + Pow2(n) == Rev(j, m + 1 + n)
  {
    var p := Pow2(m);
    assert j < 2 * p;
    ShrOf(1, j - p, m);
    LowId(j - p, m);
    RevSplit(j, m, 1 + n);
    RevSplit(j - p, m, 1 + n);
    RevLow(j, m);
    RevZero(1 + n);
    RevZero(n);
  }

  /** The reversed bucket index is the reversed hash with its low bits cleared. */
  lemma BucketInterval(hash: nat, order: nat)
    requires order <= BITS
    ensures RevHash(BucketIndex(hash, order)) == RevHash(hash) - Low(RevHash(hash), BITS - order)
    ensures RevHash(BucketIndex(hash, order)) <= RevHash(hash)
          < RevHash(BucketIndex(hash, order)) + Pow2(BITS - order)
  {
    ClearLow(hash, order, BITS - order);
  }

  /** The reversed indices below `1 << order` are `1 << n` apart. */
  lemma RevSlot(b: nat, order: nat, n: nat)
    requires b < Pow2(order)
    ensures Rev(b, order + n) == Shl(Rev(b, order), n)
  {
    RevSplit(b, order, n);
    LowId(b, order);
    RevZero(n);
  }

  lemma NextSlot(x: nat, y: nat, n: nat, h: nat)
    requires x < y && h < Shl(x, n) + Pow2(n)
    ensures h < Shl(y, n)
  {
    ShlAdd(x, 1, n);
    ShlMonotone(x + 1, y, n);
  }

  lemma SameSlot(x: nat, y: nat, n: nat, h: nat)
    requires Shl(x, n) <= h < Shl(x, n) + Pow2(n) && Shl(y, n) <= h < Shl(y, n) + Pow2(n)
    ensures x == y
  {
    if x < y { NextSlot(x, y, n, h); } else if y < x { NextSlot(y, x, n, h); }
  }

  lemma OneOwner(b: nat, c: nat, order: nat, n: nat, bits: nat, h: nat)
    requires b < Pow2(order) && c < Pow2(order) && bits == order + n
    requires Rev(b, bits) <= h < Rev(b, bits) + Pow2(n) && Rev(c, bits) <= h < Rev(c, bits) + Pow2(n)
    ensures b == c
  {
    RevSlot(b, order, n);
    RevSlot(c, order, n);
    SameSlot(Rev(b, order), Rev(c, order), n, h);
    RevRev(b, order);
    RevRev(c, order);
  }

  /** Each bucket owns one contiguous interval of reversed hashes, and these intervals
      are exactly the hashes that the bucket index maps to it. */
  lemma IntervalIff(hash: nat, order: nat, b: nat)
    requires order <= BITS && b < Pow2(order)
    ensures RevHash(b) <= RevHash(hash) < RevHash(b) + Pow2(BITS - order) <==> BucketIndex(hash, order) == b
  {
    BucketInterval(hash, order);
    Halves(hash, order);
    if RevHash(b) <= RevHash(hash) < RevHash(b) + Pow2(BITS - order) {
      OneOwner(b, BucketIndex(hash, order), order, BITS - order, BITS, RevHash(hash));
    }
  }

  /** A bucket created at order `order` hangs strictly after its parent, and the
      parent is what the half-size table uses for the bucket's own index. */
  lemma ParentBefore(j: nat, order: nat)
    requires 0 < order <= BITS && Pow2(order - 1) <= j < Pow2(order)
    ensures BucketIndex(j, order - 1) == j - Pow2(order - 1)
    ensures RevHash(j - Pow2(order - 1)) + Pow2(BITS - order) == RevHash(j)
  {
    ParentAt(j, order, BITS - order, BITS);
  }

  lemma ParentAt(j: nat, order: nat, n: nat, bits: nat)
    requires 0 < order && order + n == bits && Pow2(order - 1) <= j < Pow2(order)
    ensures Low(j, order - 1) == j - Pow2(order - 1)
    ensures Rev(j - Pow2(order - 1), bits) + Pow2(n) == Rev(j, bits)
  {
    NextBit(j, order - 1, n);
  }

  /** Distinct hashes have distinct reversed hashes, and hashes are recovered by
      reversing again. */
  lemma RevHashInverse(h: nat)
    requires h < Pow2(BITS)
    ensures RevHash(RevHash(h)) == h && RevHash(h) < Pow2(BITS)
  {
    RevRev(h, BITS);
    RevBound(h, BITS);
  }
}
