/**
Size classes and the addresses of blocks: how many blocks of a class a slab has, where each lies, and
how a block is found again from an address inside it.
*/
module Sizes {
  import opened Options

  const SIZE_CACHE_LINE := 64

  /** A set of classes that share one slab size: per class, the block size and the number of blocks. */
  datatype Bracket = Bracket(slab: nat, rows: nat, sizes: seq<nat>, counts: seq<nat>)

  /** Blocks fit in the slab and their bits fit in the bitset; only the class of empty requests has none. */
  ghost predicate Fits(br: Bracket) {
    && br.slab > 0 && |br.sizes| == |br.counts|
    && forall c :: 0 <= c < |br.sizes| ==>
         && br.sizes[c] * br.counts[c] <= br.slab
         && br.counts[c] <= 64 * br.rows
         && (br.counts[c] == 0 <==> br.sizes[c] == 0)
  }

  // Small classes: multiples of eight bytes

  const SMALL_SLAB := SIZE_CACHE_LINE * 8 * 8 * 8
  const SMALL_MAX := 1016
  const SMALL_CLASSES := 128
  /** The cache lines of a slab descriptor, minus its 16 bytes of counters and 8 bytes of header, in 64-bit words. */
  const SMALL_ROWS := (SIZE_CACHE_LINE * 8 - 16 - 8) / 8

  function SmallNew(size: nat): (c: Option<nat>) {
    if size <= SMALL_MAX then Some((size + 7) / 8) else None
  }

  function SmallSize(c: nat): nat { c * 8 }

  function SmallCount(c: nat): nat {
    if c == 0 then 0 else if c == 1 then SMALL_ROWS * 64 else SMALL_SLAB / (c * 8)
  }

  function Small(): Bracket {
    Bracket(SMALL_SLAB, SMALL_ROWS, seq(SMALL_CLASSES, c requires c >= 0 => SmallSize(c)),
        seq(SMALL_CLASSES, c requires c >= 0 => SmallCount(c)))
  }

  /** The table of counts is filled class by class, with as many blocks as the slab and the bitset have room for. */
  method SmallCounts() returns (counts: array<nat>)
    ensures fresh(counts) && counts[..] == Small().counts
    ensures Fits(Small()) && forall c :: 1 <= c < SMALL_CLASSES ==> Tight(Small(), c)
  {
    SmallFits();
    SmallMaximal();
    counts := new nat[SMALL_CLASSES];
    counts[0] := 0;
    counts[1] := SMALL_ROWS * 8 * 8;
    var i := 2;
    while i < counts.Length
      invariant 2 <= i <= counts.Length
      invariant forall c :: 0 <= c < i ==> counts[c] == SmallCount(c)
    {
      counts[i] := SMALL_SLAB / (i * 8);
      i := i + 1;
    }
  }

  lemma SmallFits()
    ensures Fits(Small())
  {
    forall c: nat | c < SMALL_CLASSES
      ensures SmallSize(c) * SmallCount(c) <= SMALL_SLAB && SmallCount(c) <= 64 * SMALL_ROWS
      ensures SmallCount(c) == 0 <==> SmallSize(c) == 0
    {
      if c >= 2 { QuotientFits(SMALL_SLAB, c * 8); }
    }
  }

  /** One more block of class `c` would not fit in the slab, or would have no bit. */
  ghost predicate Tight(br: Bracket, c: nat)
    requires c < |br.sizes| == |br.counts|
  {
    br.slab < br.sizes[c] * (br.counts[c] + 1) || 64 * br.rows < br.counts[c] + 1
  }

  /**
  The counts cannot be larger: the slab has no room for another block of any class but the smallest, whose bits are
  used up. The largest class is the largest small size.
  */
  lemma SmallMaximal()
    ensures |Small().sizes| == |Small().counts| == SMALL_CLASSES && Small().sizes[SMALL_CLASSES - 1] == SMALL_MAX
    ensures forall c :: 1 <= c < SMALL_CLASSES ==> Tight(Small(), c)
    ensures forall c :: 2 <= c < SMALL_CLASSES ==> Small().slab < Small().sizes[c] * (Small().counts[c] + 1)
    ensures Small().counts[0] == 0 && Small().counts[1] == 64 * Small().rows
  {
    forall c: nat | 2 <= c < SMALL_CLASSES ensures SMALL_SLAB < SmallSize(c) * (SmallCount(c) + 1) {
      QuotientMaximal(SMALL_SLAB, SmallSize(c));
    }
  }

  lemma QuotientMaximal(n: nat, d: nat)
    requires d > 0
    ensures n < d * (n / d + 1)
  {
    assert n == d * (n / d) + n % d;
    assert d * (n / d + 1) == d * (n / d) + d;
  }

  lemma QuotientFits(n: nat, d: nat)
    requires d > 0
    ensures d * (n / d) <= n
    ensures d >= 16 ==> n / d <= n / 16
    ensures d <= n ==> n / d >= 1
  {
    var q := n / d;
    assert n == d * q + n % d;
    if d >= 16 {
      assert 16 * q <= d * q <= n;
    }
  }

  /** Binning rounds up to the least class that is large enough. */
  lemma SmallNewTight(size: nat)
    ensures SmallNew(size).Some? <==> size <= SMALL_MAX
    ensures SmallNew(size).Some? ==>
              var c := SmallNew(size).value;
              c < SMALL_CLASSES && size <= SmallSize(c) && (c > 0 ==> SmallSize(c - 1) < size)
  {
  }

  // Large classes: powers of two from a kilobyte

  const LARGE_MIN := 1024
  const LARGE_SLAB := SIZE_CACHE_LINE * 8 * LARGE_MIN
  const LARGE_CLASSES := 10
  const LARGE_MAX := 524288
  const LARGE_ROWS := (SIZE_CACHE_LINE * 2 - 16 - 8) / 8

  function Pow2(n: nat): (p: nat)
    ensures p >= 1
  {
    if n == 0 then 1 else 2 * Pow2(n - 1)
  }

  lemma PowStep(m: nat, n: nat)
    ensures m * Pow2(n + 1) == (2 * m) * Pow2(n)
  {
  }

  /** The least `n` for which `m * Pow2(n)` is `size` or more. */
  function Log2Up(m: nat, size: nat): (n: nat)
    requires m > 0
    ensures size <= m * Pow2(n) && (n > 0 ==> m * Pow2(n - 1) < size)
    decreases if size <= m then 0 else size - m
  {
    if size <= m then 0 else
    var n := Log2Up(2 * m, size);
    PowStep(m, n);
    if n == 0 then 1 else (PowStep(m, n - 1); n + 1)
  }

  datatype Binned = Panic | TooLarge | Class(c: nat)

  /**
  The next power of two, in kilobytes, has as many trailing zeros as the class number; below one
  kilobyte the shift leaves zero, which has sixty-four, and no class has that number.
  */
  function LargeNew(size: nat): Binned {
    if size > LARGE_MAX then TooLarge else
    var n := Log2Up(1, size);
    if n < 10 then Panic else Class(n - 10)
  }

  function LargeSize(c: nat): nat { LARGE_MIN * Pow2(c) }

  /** The slab size shifted right by ten and by the class. */
  function LargeCount(c: nat): nat { Halved(LARGE_SLAB / LARGE_MIN, c) }

  function Halved(n: nat, times: nat): nat
    decreases times
  {
    if times == 0 then n else Halved(n / 2, times - 1)
  }

  function Large(): Bracket {
    Bracket(LARGE_SLAB, LARGE_ROWS, seq(LARGE_CLASSES, c requires c >= 0 => LargeSize(c)),
        seq(LARGE_CLASSES, c requires c >= 0 => LargeCount(c)))
  }

  /** The powers of two the classes use. */
  lemma Powers()
    ensures Pow2(1) == 2 && Pow2(2) == 4 && Pow2(3) == 8 && Pow2(4) == 16 && Pow2(5) == 32
    ensures Pow2(6) == 64 && Pow2(7) == 128 && Pow2(8) == 256 && Pow2(9) == 512
    ensures Pow2(10) == 1024 && Pow2(19) == 524288
  {
    assert Pow2(3) == 8 && Pow2(5) == 32 && Pow2(7) == 128 && Pow2(9) == 512;
    assert Pow2(11) == 2048 && Pow2(13) == 8192 && Pow2(15) == 32768 && Pow2(17) == 131072;
  }

  lemma {:induction false} PowAdd(a: nat, b: nat)
    ensures Pow2(a) * Pow2(b) == Pow2(a + b)
    decreases b
  {
    if b > 0 {
      PowAdd(a, b - 1);
      assert Pow2(a) * Pow2(b) == 2 * (Pow2(a) * Pow2(b - 1));
    }
  }

  lemma {:induction false} HalvedPow(n: nat, c: nat)
    requires c <= n
    ensures Halved(Pow2(n), c) == Pow2(n - c)
    decreases c
  {
    if c > 0 { HalvedPow(n - 1, c - 1); }
  }

  /** A class of twice the block size has half as many blocks. */
  lemma LargeTable(c: nat)
    requires c < LARGE_CLASSES
    ensures LargeCount(c) == Pow2(9 - c) && LargeSize(c) * LargeCount(c) == LARGE_SLAB && LargeCount(c) <= 512
  {
    Powers();
    HalvedPow(9, c);
    PowAdd(c, 9 - c);
    PowGrows(9 - c, 9);
    var x, y := Pow2(c), Pow2(9 - c);
    assert (LARGE_MIN * x) * y == LARGE_MIN * (x * y);
  }

  /** Large blocks fill their slab exactly. */
  lemma LargeFits()
    ensures Fits(Large())
    ensures forall c :: 0 <= c < LARGE_CLASSES ==> Large().sizes[c] * Large().counts[c] == LARGE_SLAB
  {
    forall c: nat | c < LARGE_CLASSES
      ensures LargeSize(c) * LargeCount(c) == LARGE_SLAB && 1 <= LargeCount(c) <= 512 && LargeSize(c) > 0
    {
      LargeTable(c);
    }
  }

  /** Above half a kilobyte, binning rounds up to the least class that is large enough; below, it panics. */
  lemma LargeNewTight(size: nat)
    ensures LargeNew(size).TooLarge? <==> size > LARGE_MAX
    ensures LargeNew(size).Panic? <==> size <= 512
    ensures LargeNew(size).Class? ==>
              var c := LargeNew(size).c;
              c < LARGE_CLASSES && size <= LargeSize(c) && (c > 0 ==> LargeSize(c - 1) < size)
  {
    if size <= LARGE_MAX {
      var n := Log2Up(1, size);
      Powers();
      if n >= 20 { PowGrows(19, n - 1); }
      if n < 10 { PowGrows(n, 9); } else { PowGrows(9, n - 1); PowSplit(n - 10); }
      if n > 10 { PowSplit(n - 11); }
    }
  }

  lemma {:induction false} PowSplit(n: nat)
    ensures Pow2(n + 10) == 1024 * Pow2(n)
  {
    if n == 0 { Powers(); } else { PowSplit(n - 1); }
  }

  lemma {:induction false} PowGrows(a: nat, b: nat)
    requires a <= b
    ensures Pow2(a) <= Pow2(b)
    decreases b - a
  {
    if a < b { PowGrows(a, b - 1); }
  }

  // Addresses

  /** The offset of block `b` of slab `s` (counted from zero; the first slab lies one slab size up). */
  function FromBlock(br: Bracket, c: nat, s: nat, b: nat): nat
    requires c < |br.sizes|
  {
    (s + 1) * br.slab + b * br.sizes[c]
  }

  function IntoIndex(br: Bracket, offset: nat): nat
    requires br.slab > 0 && offset >= br.slab
  {
    offset / br.slab - 1
  }

  function IntoBlock(br: Bracket, c: nat, offset: nat): nat
    requires br.slab > 0 && c < |br.sizes| && br.sizes[c] > 0
  {
    offset % br.slab / br.sizes[c]
  }

  lemma MulMono(a: nat, b: nat, d: nat)
    requires a <= b
    ensures a * d <= b * d
  {
  }

  lemma QuotientAtMost(n: nat, d: nat, x: nat, y: nat, q: nat, r: nat)
    requires n == x * d + y && n == q * d + r && r < d
    ensures x <= q
  {
    if x > q {
      assert (q + 1) * d == q * d + d;
      MulMono(q + 1, x, d);
    }
  }

  lemma DivUnique(n: nat, d: nat, q: nat, r: nat)
    requires d > 0 && n == q * d + r && r < d
    ensures n / d == q && n % d == r
  {
    var x, y := n / d, n % d;
    assert n == x * d + y;
    QuotientAtMost(n, d, x, y, q, r);
    QuotientAtMost(n, d, q, r, x, y);
  }

  /** Any address inside a block leads back to the slab and to the block. */
  lemma BlockRoundTrip(br: Bracket, c: nat, s: nat, b: nat, byte: nat)
    requires Fits(br) && c < |br.sizes| && b < br.counts[c] && byte < br.sizes[c]
    ensures var o := FromBlock(br, c, s, b) + byte;
            o >= br.slab && IntoIndex(br, o) == s && IntoBlock(br, c, o) == b
  {
    var size := br.sizes[c];
    BlockInSlab(br, c, b);
    DivUnique(FromBlock(br, c, s, b) + byte, br.slab, s + 1, b * size + byte);
    DivUnique(b * size + byte, size, b, byte);
  }

  lemma BlockInSlab(br: Bracket, c: nat, b: nat)
    requires Fits(br) && c < |br.sizes| && b < br.counts[c]
    ensures (b + 1) * br.sizes[c] == b * br.sizes[c] + br.sizes[c] <= br.slab
  {
    assert (b + 1) * br.sizes[c] <= br.counts[c] * br.sizes[c];
  }

  /** Blocks of different slabs, whatever their classes, and different blocks of one slab lie apart. */
  lemma BlocksApart(br: Bracket, c: nat, s: nat, b: nat, c': nat, s': nat, b': nat)
    requires Fits(br) && c < |br.sizes| && c' < |br.sizes| && b < br.counts[c] && b' < br.counts[c']
    requires s < s' || (s == s' && c == c' && b < b')
    ensures FromBlock(br, c, s, b) + br.sizes[c] <= FromBlock(br, c', s', b')
  {
    BlockInSlab(br, c, b);
    if s < s' {
      MulMono(s + 2, s' + 1, br.slab);
      assert (s + 2) * br.slab == (s + 1) * br.slab + br.slab;
      assert b' * br.sizes[c'] >= 0;
    } else {
      MulMono(b + 1, b', br.sizes[c]);
    }
  }
}
