/**
The extent arena over a DAX device: a fixed table of extents, and a first-fit search that hops over the extents in its
way. Addresses are 64 bits wide. All operations run under one mutex, so each is one step.
*/
module DaxArena {
  import opened Options

  const LIMIT := 0x1_0000_0000_0000_0000

  datatype Error = InvalidAlignment | InvalidPointer | OutOfMemory | Overflow

  datatype Result<T> = Ok(value: T) | Err(error: Error)

  datatype Extent = Extent(offset: nat, len: nat, requested: nat, active: bool)

  const EMPTY := Extent(0, 0, 0, false)

  predicate PowerOfTwo(a: nat) {
    a == 1 || (a > 1 && a % 2 == 0 && PowerOfTwo(a / 2))
  }

  predicate Aligned(x: nat, a: nat)
    requires a > 0
  {
    x == 0 || (x >= a && Aligned(x - a, a))
  }

  /** The address at offset `o` is a multiple of `a`. */
  predicate On(base: nat, o: nat, a: nat)
    requires a > 0
  {
    Aligned(base + o, a)
  }

  function CheckedAdd(x: nat, y: nat): Option<nat> {
    if x + y < LIMIT then Some(x + y) else None
  }

  function AlignUp(value: nat, a: nat): Option<nat>
    requires a > 0
  {
    var r := CheckedAdd(value, a - 1);
    if r.None? then None else Some(Down(r.value, a))
  }

  /**
  The greatest multiple of `a` up to `x`, which is what masking with `!(a - 1)` leaves when `a` is a power of two.
  */
  function Down(x: nat, a: nat): (r: nat)
    requires a > 0
    ensures r <= x < r + a && Aligned(r, a)
  {
    if x < a then 0 else Down(x - a, a) + a
  }

  function WrappingAdd(x: nat, y: nat): nat {
    if x + y < LIMIT then x + y else x + y - LIMIT
  }

  function AlignedOffset(base: nat, offset: nat, a: nat): Option<nat>
    requires a > 0
  {
    var absolute := CheckedAdd(base, offset);
    if absolute.None? then None else
    var up := AlignUp(absolute.value, a);
    if up.None? || up.value < base then None else Some(up.value - base)
  }

  function Max(x: nat, y: nat): nat { if x < y then y else x }

  /** The active extent of the first `n` with the least offset from `c` on. */
  function Next(es: seq<Extent>, n: nat, c: nat): (r: Option<Extent>)
    requires n <= |es|
    ensures r.Some? ==> r.value in es[..n] && r.value.active && r.value.offset >= c
    ensures forall i :: 0 <= i < n && es[i].active && es[i].offset >= c ==> r.Some? && r.value.offset <= es[i].offset
  {
    if n == 0 then None else
    var best := Next(es, n - 1, c);
    var e := es[n - 1];
    if e.active && e.offset >= c && (best.None? || e.offset < best.value.offset) then Some(e) else best
  }

  /** `e` is the active extent with the least offset from `c` on. */
  ghost predicate IsNext(es: seq<Extent>, c: nat, e: Extent) {
    && e.active && e.offset >= c && (exists k :: 0 <= k < |es| && es[k] == e)
    && forall i :: 0 <= i < |es| && es[i].active && es[i].offset >= c ==> e.offset <= es[i].offset
  }

  lemma NextIs(es: seq<Extent>, c: nat)
    ensures var r := Next(es, |es|, c);
            && (r.Some? ==> IsNext(es, c, r.value))
            && (r.None? ==> forall i :: 0 <= i < |es| && es[i].active ==> es[i].offset < c)
  {
  }

  /** How many active extents start at `c` or above. */
  function Ahead(es: seq<Extent>, c: nat): nat {
    if es == [] then 0 else Ahead(es[1..], c) + if es[0].active && es[0].offset >= c then 1 else 0
  }

  lemma {:induction false} AheadShrinks(es: seq<Extent>, c: nat, d: nat)
    requires c <= d
    ensures Ahead(es, d) <= Ahead(es, c)
    ensures (exists i :: 0 <= i < |es| && es[i].active && c <= es[i].offset < d) ==> Ahead(es, d) < Ahead(es, c)
    decreases |es|
  {
    if es != [] {
      AheadShrinks(es[1..], c, d);
      if i :| 0 <= i < |es| && es[i].active && c <= es[i].offset < d {
        if i > 0 {
          assert es[1..][i - 1] == es[i];
        }
      }
    }
  }

  /** One round of the search: take the candidate, go on behind an extent, or overflow. */
  datatype Move = Take(o: nat) | Jump(c: nat) | Fail

  function Round(es: seq<Extent>, base: nat, a: nat, len: nat, c: nat): Move
    requires a > 0
  {
    var up := AlignedOffset(base, c, a);
    if up.None? then Fail else After(Next(es, |es|, up.value), up.value, len)
  }

  /** What to do about the next extent; the sum in the test wraps around. */
  function After(next: Option<Extent>, c: nat, len: nat): Move {
    if next.None? || WrappingAdd(c, len) <= next.value.offset then Take(c)
    else
      var end := CheckedAdd(next.value.offset, next.value.len);
      if end.None? then Fail else Jump(end.value)
  }

  /** The search of `allocate` from candidate `c` on. */
  function Search(es: seq<Extent>, base: nat, a: nat, len: nat, c: nat): Option<nat>
    requires a > 0 && Lengths(es)
    decreases Ahead(es, c)
  {
    match Round(es, base, a, len, c)
    case Take(o) => Some(o)
    case Fail => None
    case Jump(d) => JumpShrinks(es, base, a, len, c); Search(es, base, a, len, d)
  }

  lemma JumpShrinks(es: seq<Extent>, base: nat, a: nat, len: nat, c: nat)
    requires a > 0 && Lengths(es) && Round(es, base, a, len, c).Jump?
    ensures Ahead(es, Round(es, base, a, len, c).c) < Ahead(es, c)
  {
    AlignedOffsetIs(base, c, a);
    AheadShrinks(es, c, Round(es, base, a, len, c).c);
  }

  /** The range of `len` bytes at `o` does not meet the extent. */
  predicate Beside(e: Extent, o: nat, len: nat) {
    o + len <= e.offset || e.offset + e.len <= o
  }

  /** The range meets no active extent. */
  ghost predicate Gap(es: seq<Extent>, o: nat, len: nat) {
    forall i {:trigger Beside(es[i], o, len)} :: 0 <= i < |es| && es[i].active ==> Beside(es[i], o, len)
  }

  ghost predicate ExtentOK(e: Extent, a: nat, size: nat)
    requires a > 0
  {
    Aligned(e.offset, a) && Aligned(e.len, a) && e.len > 0 && e.offset + e.len <= size && 0 < e.requested <= e.len
  }

  /** Active extents are aligned, in bounds and apart. */
  ghost predicate Sound(es: seq<Extent>, a: nat, size: nat)
    requires a > 0
  {
    && (forall i {:trigger ExtentOK(es[i], a, size)} :: 0 <= i < |es| && es[i].active ==> ExtentOK(es[i], a, size))
    && (forall i, j {:trigger Beside(es[i], es[j].offset, es[j].len)} ::
          0 <= i < |es| && 0 <= j < |es| && i != j && es[i].active && es[j].active ==>
            Beside(es[i], es[j].offset, es[j].len))
  }

  /** All that the search needs of the extents. */
  ghost predicate Lengths(es: seq<Extent>) {
    forall i :: 0 <= i < |es| && es[i].active ==> es[i].len > 0
  }

  lemma SoundLengths(es: seq<Extent>, a: nat, size: nat)
    requires a > 0 && Sound(es, a, size)
    ensures Lengths(es)
  {
    forall i | 0 <= i < |es| && es[i].active ensures es[i].len > 0 {
      assert ExtentOK(es[i], a, size);
    }
  }

  // Alignment

  lemma {:induction false} AlignedIsMod(x: nat, a: nat)
    requires a > 0
    ensures Aligned(x, a) <==> x % a == 0
  {
    if x >= a {
      AlignedIsMod(x - a, a);
      ModStep(x, a);
    }
  }

  lemma ModStep(x: nat, a: nat)
    requires 0 < a <= x
    ensures x % a == (x - a) % a
  {
    var q, m, p := x / a, x % a, (x - a) / a;
    var d := p - (q - 1);
    assert a * d == m - (x - a) % a;
    if d > 0 {
      MulBig(a, d);
    }
  }

  lemma {:induction false} MulBig(a: nat, d: nat)
    requires d > 0
    ensures a * d >= a
  {
    if d > 1 {
      MulBig(a, d - 1);
      assert a * d == a * (d - 1) + a;
    }
  }

  lemma {:induction false} AlignedSum(x: nat, y: nat, a: nat)
    requires a > 0 && Aligned(x, a) && Aligned(y, a)
    ensures Aligned(x + y, a)
  {
    if x > 0 {
      AlignedSum(x - a, y, a);
    }
  }

  lemma {:induction false} AlignedDiff(x: nat, y: nat, a: nat)
    requires a > 0 && y <= x && Aligned(x, a) && Aligned(y, a)
    ensures Aligned(x - y, a)
  {
    if y > 0 {
      AlignedDiff(x - a, y - a, a);
    }
  }

  lemma AlignUpIs(value: nat, a: nat)
    requires a > 0 && AlignUp(value, a).Some?
    ensures value <= AlignUp(value, a).value < value + a && Aligned(AlignUp(value, a).value, a)
    ensures Aligned(value, a) ==> AlignUp(value, a).value == value
  {
    if Aligned(value, a) {
      AlignedDiff(AlignUp(value, a).value, value, a);
    }
  }

  /** From an aligned base, an aligned candidate stays where it is. */
  lemma AlignedOffsetIs(base: nat, c: nat, a: nat)
    requires a > 0 && AlignedOffset(base, c, a).Some?
    ensures var o := AlignedOffset(base, c, a).value;
            && On(base, o, a) && c <= o < c + a
            && (Aligned(base, a) && Aligned(c, a) ==> o == c)
            && (Aligned(base, a) ==> Aligned(o, a))
  {
    AlignUpIs(base + c, a);
    var o := AlignedOffset(base, c, a).value;
    if Aligned(base, a) {
      AlignedDiff(base + o, base, a);
      if Aligned(c, a) {
        AlignedSum(base, c, a);
      }
    }
  }

  lemma {:induction false} AlignedTrans(x: nat, b: nat, a: nat)
    requires a > 0 && b > 0 && Aligned(x, b) && Aligned(b, a)
    ensures Aligned(x, a)
  {
    if x > 0 {
      AlignedTrans(x - b, b, a);
      AlignedSum(x - b, b, a);
    }
  }

  /** Rounding up skips nothing aligned. */
  lemma AlignUpLeast(value: nat, a: nat, y: nat)
    requires a > 0 && AlignUp(value, a).Some? && value <= y < AlignUp(value, a).value
    ensures !Aligned(y, a)
  {
    AlignUpIs(value, a);
    if Aligned(y, a) {
      AlignedDiff(AlignUp(value, a).value, y, a);
    }
  }

  // Powers of two

  lemma {:induction false} AlignedTwice(y: nat, x: nat)
    requires x > 0 && Aligned(y, x)
    ensures Aligned(2 * y, 2 * x)
  {
    if y > 0 {
      AlignedTwice(y - x, x);
    }
  }

  lemma {:induction false} PowersDivide(a: nat, b: nat)
    requires PowerOfTwo(a) && PowerOfTwo(b) && a <= b
    ensures Aligned(b, a)
    decreases a
  {
    if a > 1 {
      var x, y := a / 2, b / 2;
      PowersDivide(x, y);
      AlignedTwice(y, x);
      assert a == 2 * x && b == 2 * y;
    } else {
      EverythingAligned(b);
    }
  }

  lemma {:induction false} EverythingAligned(b: nat)
    ensures Aligned(b, 1)
  {
    if b > 0 {
      EverythingAligned(b - 1);
    }
  }

  lemma {:induction false} PowersMultiply(a: nat, b: nat)
    requires PowerOfTwo(a) && PowerOfTwo(b)
    ensures PowerOfTwo(a * b)
    decreases a
  {
    if a > 1 {
      var x := a / 2;
      PowersMultiply(x, b);
      assert a == 2 * x;
      assert a * b == 2 * (x * b);
      assert x * b > 0;
    }
  }

  lemma LimitIsPower()
    ensures PowerOfTwo(LIMIT)
  {
    assert PowerOfTwo(2) && PowerOfTwo(4) && PowerOfTwo(8) && PowerOfTwo(16);
    PowersMultiply(16, 16);
    PowersMultiply(256, 256);
    PowersMultiply(65536, 65536);
    PowersMultiply(0x1_0000_0000, 0x1_0000_0000);
  }

  /** Rounding down by a mask: `x & !(a - 1)` in words with values below `w`. */
  function And(x: nat, y: nat): nat {
    if x == 0 || y == 0 then 0 else 2 * And(x / 2, y / 2) + if x % 2 == 1 && y % 2 == 1 then 1 else 0
  }

  lemma {:induction false} AndOnes(x: nat, w: nat)
    requires PowerOfTwo(w) && x < w
    ensures And(x, w - 1) == x
    decreases w
  {
    if x > 0 {
      AndOnes(x / 2, w / 2);
      assert (w - 1) / 2 == w / 2 - 1;
    }
  }

  lemma {:induction false} DownHalves(x: nat, b: nat)
    requires b > 0
    ensures Down(x, 2 * b) == 2 * Down(x / 2, b)
  {
    if x >= 2 * b {
      DownHalves(x - 2 * b, b);
      assert (x - 2 * b) / 2 == x / 2 - b;
    }
  }

  lemma {:induction false} MaskIsDown(x: nat, a: nat, w: nat)
    requires PowerOfTwo(a) && PowerOfTwo(w) && a <= w && x < w
    ensures And(x, w - 1 - (a - 1)) == Down(x, a)
    decreases a
  {
    if a == 1 {
      AndOnes(x, w);
      DownOne(x);
    } else {
      var b, v := a / 2, w / 2;
      assert a == 2 * b && w == 2 * v;
      MaskIsDown(x / 2, b, v);
      DownHalves(x, b);
      assert (w - a) / 2 == v - b && (w - a) % 2 == 0;
      if x == 0 || w - a == 0 {
        assert And(x / 2, v - b) == 0;
      }
    }
  }

  lemma {:induction false} DownOne(x: nat)
    ensures Down(x, 1) == x
  {
    if x > 0 {
      DownOne(x - 1);
    }
  }

  // The search passes over no aligned gap

  /** The extents and the requests an arena of alignment `own` deals with. */
  ghost predicate Arranged(es: seq<Extent>, base: nat, own: nat, size: nat, len: nat) {
    own > 0 && len > 0 && base + size <= LIMIT && size < LIMIT && Sound(es, own, size) && Lengths(es)
  }

  /** Nothing aligned below `c` is a gap. */
  ghost predicate NothingBelow(es: seq<Extent>, base: nat, a: nat, len: nat, c: nat)
    requires a > 0
  {
    forall o: nat {:trigger Gap(es, o, len)} :: o < c && On(base, o, a) ==> !Gap(es, o, len)
  }

  /** No aligned gap in bounds is long enough. */
  ghost predicate NoRoom(es: seq<Extent>, base: nat, a: nat, size: nat, len: nat)
    requires a > 0
  {
    forall o: nat {:trigger Gap(es, o, len)} :: On(base, o, a) && o + len <= size ==> !Gap(es, o, len)
  }

  lemma InBounds(es: seq<Extent>, a: nat, size: nat, e: Extent)
    requires a > 0 && Sound(es, a, size) && e in es && e.active
    ensures e.len > 0 && e.offset + e.len <= size
  {
    var k :| 0 <= k < |es| && es[k] == e;
    assert ExtentOK(es[k], a, size);
  }

  lemma HopPasses(es: seq<Extent>, base: nat, a: nat, len: nat, c: nat, e: Extent)
    requires a > 0 && NothingBelow(es, base, a, len, c) && IsNext(es, c, e) && c + len > e.offset
    ensures NothingBelow(es, base, a, len, e.offset + e.len)
  {
    var k :| 0 <= k < |es| && es[k] == e;
    forall o: nat | o < e.offset + e.len && On(base, o, a) ensures !Gap(es, o, len) {
      if o >= c {
        assert !Beside(es[k], o, len);
      }
    }
  }

  lemma AlignPasses(es: seq<Extent>, base: nat, a: nat, len: nat, c: nat)
    requires a > 0 && NothingBelow(es, base, a, len, c) && AlignedOffset(base, c, a).Some?
    ensures NothingBelow(es, base, a, len, AlignedOffset(base, c, a).value)
  {
    var up := AlignedOffset(base, c, a).value;
    forall o: nat | o < up && On(base, o, a) ensures !Gap(es, o, len) {
      if o >= c {
        AlignUpLeast(base + c, a, base + o);
      }
    }
  }

  lemma RoundPasses(es: seq<Extent>, base: nat, own: nat, a: nat, size: nat, len: nat, c: nat)
    requires Arranged(es, base, own, size, len) && a > 0 && NothingBelow(es, base, a, len, c)
    ensures var m := Round(es, base, a, len, c);
            && (m.Take? ==> On(base, m.o, a) && c <= m.o && NothingBelow(es, base, a, len, m.o))
            && (m.Jump? ==> NothingBelow(es, base, a, len, m.c))
            && (m.Fail? ==> AlignedOffset(base, c, a).None?)
  {
    if AlignedOffset(base, c, a).Some? {
      var up := AlignedOffset(base, c, a).value;
      AlignedOffsetIs(base, c, a);
      AlignPasses(es, base, a, len, c);
      var next := Next(es, |es|, up);
      NextIs(es, up);
      if next.Some? {
        InBounds(es, own, size, next.value);
        if !After(next, up, len).Take? {
          HopPasses(es, base, a, len, up, next.value);
        }
      }
    }
  }

  /** Rounding up overflows only where nothing aligned is left below the end of the address space. */
  lemma OverflowMeans(base: nat, c: nat, a: nat, size: nat, len: nat, o: nat)
    requires a > 0 && Aligned(LIMIT, a) && base + size <= LIMIT && len > 0 && AlignedOffset(base, c, a).None?
    requires o >= c && On(base, o, a)
    ensures o + len > size
  {
    if base + o < LIMIT {
      AlignedDiff(LIMIT, base + o, a);
    }
  }

  /**
  For any alignment: the answer is aligned and no aligned gap lies below it, and there is no answer only when no aligned
  gap is in bounds.
  */
  lemma {:induction false} SearchLowest(es: seq<Extent>, base: nat, own: nat, a: nat, size: nat, len: nat, c: nat)
    requires Arranged(es, base, own, size, len) && a > 0 && Aligned(LIMIT, a) && NothingBelow(es, base, a, len, c)
    ensures var r := Search(es, base, a, len, c);
            && (r.Some? ==> On(base, r.value, a) && c <= r.value && NothingBelow(es, base, a, len, r.value))
            && (r.None? ==> NoRoom(es, base, a, size, len))
    decreases Ahead(es, c)
  {
    RoundPasses(es, base, own, a, size, len, c);
    match Round(es, base, a, len, c)
    case Take(o) =>
    case Jump(d) =>
      JumpShrinks(es, base, a, len, c);
      JumpAhead(es, base, a, len, c);
      SearchLowest(es, base, own, a, size, len, d);
    case Fail =>
      forall o: nat | On(base, o, a) && o + len <= size ensures !Gap(es, o, len) {
        if o >= c {
          OverflowMeans(base, c, a, size, len, o);
        }
      }
  }

  lemma JumpAhead(es: seq<Extent>, base: nat, a: nat, len: nat, c: nat)
    requires a > 0 && Lengths(es) && Round(es, base, a, len, c).Jump?
    ensures c < Round(es, base, a, len, c).c
  {
    AlignedOffsetIs(base, c, a);
  }

  // For the arena's own alignment the answer is a gap

  lemma TakeFits(es: seq<Extent>, size: nat, len: nat, c: nat)
    requires size < LIMIT && Gap(es, c, 0) && After(Next(es, |es|, c), c, len).Take? && c + len <= size
    ensures Gap(es, c, len)
  {
    NextIs(es, c);
    forall i | 0 <= i < |es| && es[i].active ensures Beside(es[i], c, len) {
      assert Beside(es[i], c, 0);
    }
  }

  lemma HopClear(es: seq<Extent>, own: nat, size: nat, c: nat, e: Extent)
    requires own > 0 && Sound(es, own, size) && Gap(es, c, 0) && IsNext(es, c, e)
    ensures Gap(es, e.offset + e.len, 0) && Aligned(e.offset + e.len, own)
  {
    var k :| 0 <= k < |es| && es[k] == e;
    assert ExtentOK(es[k], own, size);
    AlignedSum(e.offset, e.len, own);
    forall i | 0 <= i < |es| && es[i].active ensures Beside(es[i], e.offset + e.len, 0) {
      assert Beside(es[i], c, 0) && ExtentOK(es[i], own, size);
      assert i != k ==> Beside(es[i], es[k].offset, es[k].len);
    }
  }

  /** Candidates are ends of extents, so that no extent is astride one. */
  lemma {:induction false} SearchFits(es: seq<Extent>, base: nat, own: nat, size: nat, len: nat, c: nat)
    requires Arranged(es, base, own, size, len) && Aligned(base, own) && Aligned(c, own) && Gap(es, c, 0)
    ensures var r := Search(es, base, own, len, c);
            r.Some? && r.value + len <= size ==> Gap(es, r.value, len)
    decreases Ahead(es, c)
  {
    OwnRound(es, base, own, size, len, c);
    var m := Round(es, base, own, len, c);
    if m.Jump? {
      JumpShrinks(es, base, own, len, c);
      SearchFits(es, base, own, size, len, m.c);
    }
  }

  lemma OwnRound(es: seq<Extent>, base: nat, own: nat, size: nat, len: nat, c: nat)
    requires Arranged(es, base, own, size, len) && Aligned(base, own) && Aligned(c, own) && Gap(es, c, 0)
    ensures var m := Round(es, base, own, len, c);
            && (m.Take? && m.o + len <= size ==> Gap(es, m.o, len))
            && (m.Jump? ==> Aligned(m.c, own) && Gap(es, m.c, 0))
  {
    if AlignedOffset(base, c, own).Some? {
      AlignedOffsetIs(base, c, own);
      NextIs(es, c);
      var m := After(Next(es, |es|, c), c, len);
      if m.Take? && c + len <= size {
        TakeFits(es, size, len, c);
      } else if m.Jump? {
        HopClear(es, own, size, c, Next(es, |es|, c).value);
      }
    }
  }

  /** What a first-fit search has to establish at `o`. */
  ghost predicate FirstFit(es: seq<Extent>, base: nat, a: nat, size: nat, len: nat, o: nat)
    requires a > 0
  {
    On(base, o, a) && NothingBelow(es, base, a, len, o) && (o + len <= size ==> Gap(es, o, len))
  }

  /** The whole search, for any alignment from the arena's own on. */
  lemma SearchAnswers(es: seq<Extent>, base: nat, own: nat, a: nat, size: nat, len: nat)
    requires Arranged(es, base, own, size, len) && PowerOfTwo(a) && a < LIMIT && Aligned(base, own)
    ensures var r := Search(es, base, a, len, 0);
            && (r.Some? ==> On(base, r.value, a) && NothingBelow(es, base, a, len, r.value))
            && (r.None? ==> NoRoom(es, base, a, size, len))
            && (a == own && r.Some? ==> FirstFit(es, base, a, size, len, r.value))
  {
    LimitIsPower();
    PowersDivide(a, LIMIT);
    SearchLowest(es, base, own, a, size, len, 0);
    if a == own {
      SearchFits(es, base, own, size, len, 0);
    }
  }

  // Larger alignments

  /**
  Whatever fits the bounds fits between the extents, for requests of alignment `a` in an arena of alignment `own`.
  */
  ghost predicate KeepsApart(base: nat, size: nat, own: nat, a: nat)
    requires own > 0
  {
    forall es: seq<Extent>, len: nat :: Sound(es, own, size) && len > 0 && Aligned(len, own) ==>
      FitsApart(es, base, size, own, a, len)
  }

  ghost predicate FitsApart(es: seq<Extent>, base: nat, size: nat, own: nat, a: nat, len: nat)
    requires own > 0 && Sound(es, own, size)
  {
    SoundLengths(es, own, size);
    var r := Search(es, base, Max(a, own), len, 0);
    r.Some? && r.value + len <= size ==> Gap(es, r.value, len)
  }

  /** The least offset above zero whose address is aligned, unless it is beyond the address space. */
  function FirstAbove(base: nat, a: nat): Option<nat>
    requires a > 0
  {
    AlignedOffset(base, 1, a)
  }

  lemma FirstAboveIs(base: nat, a: nat, o1: nat)
    requires a > 0 && FirstAbove(base, a) == Some(o1)
    ensures 0 < o1 <= a && On(base, o1, a)
    ensures forall o {:trigger On(base, o, a)} :: 0 < o < o1 ==> !On(base, o, a)
  {
    AlignedOffsetIs(base, 1, a);
    forall o | 0 < o < o1 ensures !On(base, o, a) {
      NoneBetween(base, a, o1, o);
    }
  }

  lemma NoneBetween(base: nat, a: nat, o1: nat, o: nat)
    requires a > 0 && FirstAbove(base, a) == Some(o1) && 0 < o < o1
    ensures !On(base, o, a)
  {
    AlignUpLeast(base + 1, a, base + o);
  }

  lemma FirstAboveAligned(base: nat, a: nat, o1: nat)
    requires a > 0 && Aligned(base, a) && 0 < o1 <= a && On(base, o1, a)
    ensures o1 == a
  {
    AlignedDiff(base + o1, base, a);
  }

  lemma FirstAboveOwn(base: nat, own: nat, a: nat, o1: nat)
    requires PowerOfTwo(own) && PowerOfTwo(a) && own < a && Aligned(base, own) && 0 < o1 && On(base, o1, a)
    ensures Aligned(o1, own) && own <= o1
  {
    PowersDivide(own, a);
    AlignedTrans(base + o1, a, own);
    AlignedDiff(base + o1, base, own);
  }

  /** An extent astride offset `o1`, and one in front of it that fills the space below. */
  ghost function Trap(o1: nat, own: nat): set<Extent>
    requires own <= o1
  {
    {Extent(o1 - own, 2 * own, 2 * own, true)} + if own < o1 then {Extent(0, o1 - own, o1 - own, true)} else {}
  }

  lemma RoomAbove(base: nat, a: nat)
    requires a > 0 && Aligned(LIMIT, a) && Aligned(base, a) && base + a < LIMIT
    ensures base + a <= LIMIT - a
  {
    AlignedDiff(LIMIT, base, a);
  }

  lemma OffsetExists(base: nat, c: nat, a: nat)
    requires a > 0 && base + c + a <= LIMIT
    ensures AlignedOffset(base, c, a).Some?
  {
  }

  lemma ZeroStays(base: nat, a: nat)
    requires a > 0 && Aligned(base, a) && base + a <= LIMIT
    ensures AlignedOffset(base, 0, a) == Some(0)
  {
    OffsetExists(base, 0, a);
    AlignedOffsetIs(base, 0, a);
  }

  /** From an aligned base, candidates between zero and `a` are rounded up to `a`. */
  lemma RoundsUp(base: nat, c: nat, a: nat)
    requires 0 < c < a && Aligned(base, a) && base + 2 * a <= LIMIT
    ensures AlignedOffset(base, c, a) == Some(a)
  {
    OffsetExists(base, c, a);
    AlignedOffsetIs(base, c, a);
    AlignedBetween(AlignedOffset(base, c, a).value, a);
  }

  lemma AlignedBetween(o: nat, a: nat)
    requires a > 0 && Aligned(o, a) && 0 < o < 2 * a
    ensures o == a
  {
    assert Aligned(o - a, a);
  }

  /** Where candidates are rounded up to: from zero, and, if zero is aligned, from the end of the first extent. */
  lemma TrapAligns(base: nat, own: nat, a: nat, o1: nat)
    requires 0 < own < a && FirstAbove(base, a) == Some(o1) && Aligned(LIMIT, a)
    ensures AlignedOffset(base, 0, a) == Some(if Aligned(base, a) then 0 else o1)
    ensures Aligned(base, a) ==> o1 == a && AlignedOffset(base, a - own, a) == Some(a)
  {
    FirstAboveIs(base, a, o1);
    if Aligned(base, a) {
      FirstAboveAligned(base, a, o1);
      RoomAbove(base, a);
      ZeroStays(base, a);
      RoundsUp(base, a - own, a);
    } else {
      assert !On(base, 0, a);
      RoundsTo(base, a, 0, o1);
    }
  }

  /** From zero the search goes to the end of the first extent and rounds up, past the start of the second. */
  lemma TrapRounds(es: seq<Extent>, base: nat, own: nat, a: nat, o1: nat)
    requires 0 < own < a < LIMIT && own <= o1 && Active(es) == Trap(o1, own)
    requires FirstAbove(base, a) == Some(o1) && Aligned(LIMIT, a)
    ensures Round(es, base, a, own, 0) == if Aligned(base, a) then Jump(a - own) else Take(o1)
    ensures Aligned(base, a) ==> o1 == a && Round(es, base, a, own, a - own) == Take(o1)
  {
    TrapAligns(base, own, a, o1);
    TrapNext(es, o1, own);
  }

  lemma RoundsTo(base: nat, a: nat, c: nat, o: nat)
    requires a > 0 && AlignedOffset(base, c, a).Some? && c <= o && On(base, o, a)
    requires forall x {:trigger On(base, x, a)} :: c <= x < o ==> !On(base, x, a)
    ensures AlignedOffset(base, c, a) == Some(o)
  {
    AlignedOffsetIs(base, c, a);
    var up := AlignedOffset(base, c, a).value;
    if o < up {
      AlignUpLeast(base + c, a, base + o);
    }
  }

  lemma TrapNext(es: seq<Extent>, o1: nat, own: nat)
    requires 0 < own <= o1 && Active(es) == Trap(o1, own)
    ensures Next(es, |es|, o1).None?
    ensures own < o1 ==> Next(es, |es|, 0) == Some(Extent(0, o1 - own, o1 - own, true))
  {
    forall i | 0 <= i < |es| && es[i].active ensures es[i].offset < o1 {
      assert es[i] in Active(es);
    }
    NextIs(es, o1);
    if own < o1 {
      var e := Extent(0, o1 - own, o1 - own, true);
      assert e in Active(es);
      NextFirst(es, e, Extent(o1 - own, 2 * own, 2 * own, true));
    }
  }

  lemma NextFirst(es: seq<Extent>, e: Extent, f: Extent)
    requires Active(es) == {e, f} && e.offset < f.offset
    ensures Next(es, |es|, 0) == Some(e)
  {
    assert e in Active(es);
    var i :| 0 <= i < |es| && es[i] == e;
    var m := Next(es, |es|, 0);
    assert m.Some? && m.value.offset <= es[i].offset && m.value in Active(es);
  }

  /** Asked for `own` bytes at alignment `a`, the search answers `o1`, in the middle of the second extent. */
  lemma TrapCatches(es: seq<Extent>, base: nat, own: nat, a: nat, o1: nat)
    requires PowerOfTwo(own) && PowerOfTwo(a) && own < a < LIMIT && Aligned(base, own)
    requires FirstAbove(base, a) == Some(o1)
    requires Lengths(es) && own <= o1 && Active(es) == Trap(o1, own)
    ensures Search(es, base, a, own, 0) == Some(o1) && !Gap(es, o1, own)
  {
    LimitIsPower();
    PowersDivide(a, LIMIT);
    TrapRounds(es, base, own, a, o1);
    var e := Extent(o1 - own, 2 * own, 2 * own, true);
    assert e in Active(es);
    var i :| 0 <= i < |es| && es[i] == e;
    assert !Beside(es[i], o1, own);
  }

  function TrapTable(o1: nat, own: nat): seq<Extent>
    requires own <= o1
  {
    [Extent(o1 - own, 2 * own, 2 * own, true)] + if own < o1 then [Extent(0, o1 - own, o1 - own, true)] else []
  }

  lemma TrapSound(o1: nat, own: nat, size: nat)
    requires 0 < own <= o1 && Aligned(o1, own) && o1 + own <= size
    ensures Sound(TrapTable(o1, own), own, size) && Active(TrapTable(o1, own)) == Trap(o1, own)
  {
    assert Aligned(own, own) && Aligned(2 * own, own) && Aligned(o1 - own, own);
    var es := TrapTable(o1, own);
    assert es[0] in es && (own < o1 ==> es[1] in es);
  }

  /** If nothing aligned but offset zero is in bounds, the answer can only be zero, with every extent ahead of it. */
  lemma OnlyZero(es: seq<Extent>, base: nat, own: nat, a: nat, size: nat, len: nat)
    requires Arranged(es, base, own, size, len) && PowerOfTwo(a) && a < LIMIT && Aligned(base, own)
    requires forall o {:trigger On(base, o, a)} :: o > 0 && On(base, o, a) ==> o + len > size
    ensures var r := Search(es, base, a, len, 0);
            r.Some? && r.value + len <= size ==> Gap(es, r.value, len)
  {
    SearchAnswers(es, base, own, a, size, len);
    var r := Search(es, base, a, len, 0);
    if r.Some? && r.value + len <= size {
      assert On(base, r.value, a);
      match Round(es, base, a, len, 0)
      case Take(o) => TakeFits(es, size, len, 0);
      case Jump(d) =>
        LimitIsPower();
        PowersDivide(a, LIMIT);
        JumpShrinks(es, base, a, len, 0);
        JumpAhead(es, base, a, len, 0);
        RoundPasses(es, base, own, a, size, len, 0);
        SearchLowest(es, base, own, a, size, len, d);
      case Fail =>
    }
  }

  /**
  The search keeps allocations apart exactly when the requested alignment is no larger than the arena's, or the arena is
  too small for an extent around the first aligned address above its base.
  */
  lemma ApartIff(base: nat, size: nat, own: nat, a: nat)
    requires PowerOfTwo(own) && PowerOfTwo(a) && own < LIMIT && a < LIMIT && Aligned(base, own)
    requires base + size <= LIMIT && size < LIMIT
    ensures KeepsApart(base, size, own, a) <==>
            a <= own || FirstAbove(base, a).None? || size < FirstAbove(base, a).value + own
  {
    var o1 := FirstAbove(base, a);
    if a > own && o1.Some? && o1.value + own <= size {
      FirstAboveIs(base, a, o1.value);
      FirstAboveOwn(base, own, a, o1.value);
      var es := TrapTable(o1.value, own);
      TrapSound(o1.value, own, size);
      SoundLengths(es, own, size);
      TrapCatches(es, base, own, a, o1.value);
      assert Aligned(own, own);
      assert !FitsApart(es, base, size, own, a, own);
    } else {
      forall es: seq<Extent>, len: nat | Sound(es, own, size) && len > 0 && Aligned(len, own)
        ensures FitsApart(es, base, size, own, a, len)
      {
        SoundLengths(es, own, size);
        if a <= own {
          SearchFits(es, base, own, size, len, 0);
        } else {
          NothingElse(base, own, a, size, len);
          OnlyZero(es, base, own, a, size, len);
        }
      }
    }
  }

  lemma NothingElse(base: nat, own: nat, a: nat, size: nat, len: nat)
    requires PowerOfTwo(own) && PowerOfTwo(a) && own < a < LIMIT && Aligned(base, own) && base + size <= LIMIT
    requires FirstAbove(base, a).None? || size < FirstAbove(base, a).value + own
    requires len > 0 && Aligned(len, own)
    ensures forall o {:trigger On(base, o, a)} :: o > 0 && On(base, o, a) ==> o + len > size
  {
    LimitIsPower();
    PowersDivide(a, LIMIT);
    forall o | o > 0 && On(base, o, a) ensures o + len > size {
      if FirstAbove(base, a).None? {
        OverflowMeans(base, 1, a, size, len, o);
      } else {
        FirstAboveIs(base, a, FirstAbove(base, a).value);
      }
    }
  }

  // The arena

  ghost function Active(es: seq<Extent>): set<Extent> {
    set e | e in es && e.active
  }

  /** No entry of the table is left. */
  predicate TableFull(es: seq<Extent>) {
    forall i :: 0 <= i < |es| ==> es[i].active
  }

  lemma AddActive(es: seq<Extent>, slot: nat, e: Extent)
    requires slot < |es| && !es[slot].active && e.active
    ensures Active(es[slot := e]) == Active(es) + {e}
  {
    forall f | f in Active(es) ensures f in es[slot := e] {
      var i :| 0 <= i < |es| && es[i] == f;
      assert es[slot := e][i] == f;
    }
    assert es[slot := e][slot] == e;
  }

  lemma AddSound(es: seq<Extent>, slot: nat, e: Extent, a: nat, size: nat)
    requires a > 0 && Sound(es, a, size) && slot < |es| && !es[slot].active
    requires ExtentOK(e, a, size) && Gap(es, e.offset, e.len)
    ensures Sound(es[slot := e], a, size)
  {
    var es' := es[slot := e];
    forall i | 0 <= i < |es'| && es'[i].active ensures ExtentOK(es'[i], a, size) {
      assert i != slot ==> ExtentOK(es[i], a, size);
    }
    forall i, j | 0 <= i < |es'| && 0 <= j < |es'| && i != j && es'[i].active && es'[j].active
      ensures Beside(es'[i], es'[j].offset, es'[j].len)
    {
      if i == slot {
        assert Beside(es[j], e.offset, e.len);
      } else if j == slot {
        assert Beside(es[i], e.offset, e.len);
      } else {
        assert Beside(es[i], es[j].offset, es[j].len);
      }
    }
  }

  lemma DropSound(es: seq<Extent>, slot: nat, a: nat, size: nat)
    requires a > 0 && Sound(es, a, size) && slot < |es|
    ensures Sound(es[slot := EMPTY], a, size)
  {
    var es' := es[slot := EMPTY];
    forall i | 0 <= i < |es'| && es'[i].active ensures ExtentOK(es'[i], a, size) {
      assert ExtentOK(es[i], a, size);
    }
    forall i, j | 0 <= i < |es'| && 0 <= j < |es'| && i != j && es'[i].active && es'[j].active
      ensures Beside(es'[i], es'[j].offset, es'[j].len)
    {
      assert Beside(es[i], es[j].offset, es[j].len);
    }
  }

  lemma DropActive(es: seq<Extent>, slot: nat, a: nat, size: nat)
    requires a > 0 && Sound(es, a, size) && slot < |es| && es[slot].active
    ensures Active(es[slot := EMPTY]) == Active(es) - {es[slot]}
  {
    var es' := es[slot := EMPTY];
    forall i | 0 <= i < |es| && i != slot && es[i].active ensures es[i] != es[slot] && es'[i] == es[i] {
      assert Beside(es[i], es[slot].offset, es[slot].len) && ExtentOK(es[i], a, size);
    }
    forall f | f in Active(es) - {es[slot]} ensures f in es' {
      var i :| 0 <= i < |es| && es[i] == f;
      assert es'[i] == f;
    }
  }

  class Arena {
    const base: nat
    const size: nat
    const alignment: nat
    const extents: array<Extent>

    ghost predicate Valid()
      reads extents
    {
      && PowerOfTwo(alignment) && alignment < LIMIT && Aligned(base, alignment) && base + size <= LIMIT && size < LIMIT
      && Sound(extents[..], alignment, size)
    }

    constructor (base: nat, size: nat, alignment: nat, slots: nat)
      requires PowerOfTwo(alignment) && alignment < LIMIT && Aligned(base, alignment) && base + size <= LIMIT
      requires size < LIMIT
      ensures Valid() && Active(extents[..]) == {} && fresh(extents)
      ensures this.base == base && this.size == size && this.alignment == alignment && extents.Length == slots
    {
      this.base := base;
      this.size := size;
      this.alignment := alignment;
      extents := new Extent[slots](_ => EMPTY);
    }

    /** Position of the first entry not in use. */
    method FreeSlot() returns (slot: nat)
      ensures slot <= extents.Length && (slot < extents.Length ==> !extents[slot].active)
      ensures slot == extents.Length <==> TableFull(extents[..])
    {
      slot := 0;
      while slot < extents.Length && extents[slot].active
        invariant slot <= extents.Length && forall i :: 0 <= i < slot ==> extents[i].active
      {
        slot := slot + 1;
      }
      assert slot < extents.Length ==> !extents[..][slot].active;
    }

    /** The active extent with the least offset from `c` on. */
    method FindNext(c: nat) returns (best: Option<Extent>)
      ensures best == Next(extents[..], extents.Length, c)
    {
      best := None;
      var n := 0;
      while n < extents.Length
        invariant n <= extents.Length && best == Next(extents[..], n, c)
      {
        var e := extents[n];
        if e.active && e.offset >= c && (best.None? || e.offset < best.value.offset) {
          best := Some(e);
        }
        n := n + 1;
      }
    }

    /** The loop of `allocate`; `None` is an overflow. */
    method Scan(a: nat, len: nat) returns (r: Option<nat>)
      requires a > 0 && Lengths(extents[..])
      ensures r == Search(extents[..], base, a, len, 0)
    {
      var candidate := 0;
      while true
        invariant Search(extents[..], base, a, len, candidate) == Search(extents[..], base, a, len, 0)
        decreases Ahead(extents[..], candidate)
      {
        var up := AlignedOffset(base, candidate, a);
        if up.None? {
          return None;
        }
        var next := FindNext(up.value);
        if next.None? || WrappingAdd(up.value, len) <= next.value.offset {
          return up;
        }
        var end := CheckedAdd(next.value.offset, next.value.len);
        if end.None? {
          return None;
        }
        assert Round(extents[..], base, a, len, candidate) == Jump(end.value);
        JumpShrinks(extents[..], base, a, len, candidate);
        candidate := end.value;
      }
      assert false;
      r := None;
    }

    /**
    Finds and takes a slot and a range for a rounded length; the answer is an offset, and no aligned gap lies below it.
    It fails only when the table is full or no aligned gap is in bounds; for the arena's own alignment, exactly then.
    */
    method Reserve(requested: nat, len: nat, a: nat) returns (r: Result<nat>)
      requires Valid() && PowerOfTwo(a) && alignment <= a < LIMIT && 0 < requested <= len && Aligned(len, alignment)
      modifies extents
      ensures r.Err? ==> extents[..] == old(extents[..]) && r.error in {Overflow, OutOfMemory}
      ensures r.Err? ==> TableFull(old(extents[..])) || NoRoom(old(extents[..]), base, a, size, len)
      ensures r.Ok? ==> && On(base, r.value, a) && r.value + len <= size && !TableFull(old(extents[..]))
                        && NothingBelow(old(extents[..]), base, a, len, r.value)
      ensures r.Ok? ==> Active(extents[..]) == old(Active(extents[..])) + {Extent(r.value, len, requested, true)}
      ensures Found(old(extents[..]), len, a, r)
      ensures a == alignment ==>
                && Valid()
                && (r.Ok? ==> Gap(old(extents[..]), r.value, len))
                && (r.Err? <==> TableFull(old(extents[..])) || NoRoom(old(extents[..]), base, a, size, len))
    {
      ghost var es := extents[..];
      SoundLengths(es, alignment, size);
      var slot := FreeSlot();
      if slot == extents.Length {
        return Err(OutOfMemory);
      }
      var found := Scan(a, len);
      SearchAnswers(es, base, alignment, a, size, len);
      if found.None? {
        return Err(Overflow);
      }
      if found.value + len > size {
        return Err(OutOfMemory);
      }
      var e := Extent(found.value, len, requested, true);
      AddActive(es, slot, e);
      extents[slot] := e;
      assert extents[..] == es[slot := e];
      if a == alignment {
        AddAligned(base, alignment, e.offset);
        AddSound(es, slot, e, alignment, size);
      }
      r := Ok(found.value);
    }

    /**
    The answer is aligned, in bounds and below every aligned gap above it, and failing means that the length cannot be
    rounded, that the table is full or that there is no room. For alignments the arena has anyway the lowest gap is
    taken, the extents stay sound, and the request is granted whenever it can be.
    */
    method Allocate(bytes: nat, a: nat) returns (r: Result<nat>)
      requires Valid() && a < LIMIT
      modifies extents
      ensures r == Err(InvalidAlignment) <==> !PowerOfTwo(a)
      ensures r.Err? ==> extents[..] == old(extents[..]) && r.error != InvalidPointer
      ensures PowerOfTwo(a) ==>
                Answers(old(extents[..]), AlignUp(Max(bytes, 1), alignment), Max(a, alignment), r)
      ensures PowerOfTwo(a) && a <= alignment ==>
                Valid() && Granted(old(extents[..]), AlignUp(Max(bytes, 1), alignment), r)
      ensures PowerOfTwo(a) && r.Ok? ==>
                var len := AlignUp(Max(bytes, 1), alignment);
                Active(extents[..]) ==
                old(Active(extents[..])) + {Extent(r.value - base, len.value, Max(bytes, 1), true)}
      ensures PowerOfTwo(a) && AlignUp(Max(bytes, 1), alignment).Some? ==>
                && (r.Ok? ==> r.value >= base)
                && Found(old(extents[..]), AlignUp(Max(bytes, 1), alignment).value, Max(a, alignment),
                         if r.Ok? then Ok(r.value - base) else r)
    {
      if !PowerOfTwo(a) {
        return Err(InvalidAlignment);
      }
      var requested := Max(bytes, 1);
      var rounded := AlignUp(requested, alignment);
      if rounded.None? {
        return Err(Overflow);
      }
      AlignUpIs(requested, alignment);
      var o := Reserve(requested, rounded.value, Max(a, alignment));
      r := if o.Ok? then Ok(base + o.value) else Err(o.error);
    }

    /** The answer is the one of the search, if it is in bounds and there is an entry to record it. */
    ghost predicate Found(es: seq<Extent>, len: nat, a: nat, r: Result<nat>)
      requires a > 0
    {
      && Lengths(es)
      && var found := Search(es, base, a, len, 0);
         && (r.Ok? <==> !TableFull(es) && found.Some? && found.value + len <= size)
         && (r.Ok? ==> found == Some(r.value))
    }

    /** What an answer to a request for `len` bytes after rounding tells. */
    ghost predicate Answers(es: seq<Extent>, len: Option<nat>, a: nat, r: Result<nat>)
      requires a > 0
    {
      match r
      case Ok(p) =>
        && len.Some? && base <= p < base + size && p - base + len.value <= size && Aligned(p, a)
        && !TableFull(es) && NothingBelow(es, base, a, len.value, p - base)
      case Err(e) =>
        if len.None? then e == Overflow
        else e in {Overflow, OutOfMemory} && (TableFull(es) || NoRoom(es, base, a, size, len.value))
    }

    /** The lowest gap is granted, if there is one and an entry to record it. */
    ghost predicate Granted(es: seq<Extent>, len: Option<nat>, r: Result<nat>)
      requires alignment > 0
    {
      && (r.Ok? ==> len.Some? && r.value >= base && Gap(es, r.value - base, len.value))
      && (r.Ok? <==> len.Some? && !TableFull(es) && !NoRoom(es, base, alignment, size, len.value))
    }

    /** Position of the active extent at an offset. */
    method Locate(offset: nat) returns (slot: nat)
      requires Valid()
      ensures slot <= extents.Length
      ensures slot < extents.Length ==> extents[slot].active && extents[slot].offset == offset
      ensures slot == extents.Length ==> forall e :: e in Active(extents[..]) ==> e.offset != offset
    {
      slot := 0;
      while slot < extents.Length && !(extents[slot].active && extents[slot].offset == offset)
        invariant slot <= extents.Length
        invariant forall i :: 0 <= i < slot ==> !(extents[i].active && extents[i].offset == offset)
      {
        slot := slot + 1;
      }
    }

    /** Gives back exactly the extent at the pointer, and fails only when there is none. */
    method Deallocate(pointer: nat) returns (r: Result<()>)
      requires Valid()
      modifies extents
      ensures Valid()
      ensures r.Ok? <==> pointer >= base && exists e :: e in old(Active(extents[..])) && e.offset == pointer - base
      ensures r.Err? ==> r.error == InvalidPointer && extents[..] == old(extents[..])
      ensures r.Ok? ==> exists e :: e in old(Active(extents[..])) && e.offset == pointer - base
                                    && Active(extents[..]) == old(Active(extents[..])) - {e}
    {
      ghost var es := extents[..];
      forall e | e in Active(es) ensures e.offset < size {
        InBounds(es, alignment, size, e);
      }
      if pointer < base || pointer - base >= size {
        return Err(InvalidPointer);
      }
      var slot := Locate(pointer - base);
      if slot == extents.Length {
        return Err(InvalidPointer);
      }
      assert es[slot] in Active(es);
      DropActive(es, slot, alignment, size);
      DropSound(es, slot, alignment, size);
      extents[slot] := EMPTY;
      assert extents[..] == es[slot := EMPTY];
      r := Ok(());
    }

    /** The requested length of the extent at the pointer. */
    method AllocationSize(pointer: nat) returns (r: Option<nat>)
      requires Valid()
      ensures r.Some? ==> pointer >= base
      ensures r.Some? ==> exists e :: e in Active(extents[..]) && e.offset == pointer - base && e.requested == r.value
      ensures r.None? ==> pointer < base || forall e :: e in Active(extents[..]) ==> e.offset != pointer - base
    {
      ghost var es := extents[..];
      forall e | e in Active(es) ensures e.offset < size {
        InBounds(es, alignment, size, e);
      }
      if pointer < base || pointer - base >= size {
        return None;
      }
      var slot := Locate(pointer - base);
      if slot == extents.Length {
        return None;
      }
      assert es[slot] in Active(es);
      r := Some(extents[slot].requested);
    }
  }

  lemma AddAligned(base: nat, own: nat, o: nat)
    requires own > 0 && Aligned(base, own) && On(base, o, own)
    ensures Aligned(o, own)
  {
    AlignedDiff(base + o, base, own);
  }

  // The trap is met

  lemma NotFull(es: seq<Extent>, own: nat, size: nat, e: Extent, f: Extent)
    requires own > 0 && Sound(es, own, size) && |es| >= 3 && Active(es) <= {e, f}
    ensures !TableFull(es)
  {
    forall i, j | 0 <= i < j < |es| && es[i].active && es[j].active ensures es[i] != es[j] {
      assert Beside(es[i], es[j].offset, es[j].len) && ExtentOK(es[j], own, size);
    }
    forall i | 0 <= i < |es| && es[i].active ensures es[i] == e || es[i] == f {
      assert es[i] in Active(es);
    }
    assert !(es[0].active && es[1].active && es[2].active);
  }

  /** What was asked for is a multiple of the alignment already. */
  lemma LengthStays(len: nat, own: nat)
    requires own > 0 && Aligned(len, own) && len + own <= LIMIT && len > 0
    ensures AlignUp(Max(len, 1), own) == Some(len)
  {
    AlignUpIs(len, own);
  }

  lemma {:induction false} NextPower(a: nat, b: nat)
    requires PowerOfTwo(a) && PowerOfTwo(b) && a < b
    ensures 2 * a <= b
    decreases a
  {
    if a > 1 {
      NextPower(a / 2, b / 2);
    }
  }

  lemma RoomToRound(own: nat, a: nat)
    requires PowerOfTwo(own) && PowerOfTwo(a) && own < a < LIMIT
    ensures 2 * own <= a && 4 * own <= LIMIT
  {
    NextPower(own, a);
    LimitIsPower();
    NextPower(a, LIMIT);
  }

  /** The lowest gap in front of the extents there are. */
  lemma GoesThere(es: seq<Extent>, base: nat, own: nat, size: nat, len: nat, o: nat, v: nat)
    requires own > 0 && On(base, o, own) && o + len <= size && Gap(es, o, len) && len > 0
    requires NothingBelow(es, base, own, len, v) && Gap(es, v, len)
    requires o > 0 ==> Extent(0, o, o, true) in es
    ensures v == o
  {
    if o > 0 {
      var i :| 0 <= i < |es| && es[i] == Extent(0, o, o, true);
      assert Beside(es[i], v, len);
    }
  }

  /** A new arena with an extent astride `o1`. */
  method SetTrap(base: nat, size: nat, own: nat, slots: nat, o1: nat) returns (arena: Arena)
    requires PowerOfTwo(own) && 4 * own <= LIMIT && Aligned(base, own) && base + size <= LIMIT && size < LIMIT
    requires own <= o1 && Aligned(o1, own) && o1 + own <= size && slots >= 3
    ensures arena.Valid() && fresh(arena.extents) && arena.extents.Length == slots
    ensures arena.base == base && arena.size == size && arena.alignment == own
    ensures Active(arena.extents[..]) == Trap(o1, own)
  {
    assert Aligned(o1 - own, own) && Aligned(own, own) && Aligned(2 * own, own);
    arena := new Arena(base, size, own, slots);
    if own < o1 {
      Fill(arena, 0, o1 - own);
    }
    Fill(arena, o1 - own, 2 * own);
  }

  /** The next request is granted, out of that extent. */
  method Springs(arena: Arena, a: nat, o1: nat)
    requires arena.Valid() && arena.extents.Length >= 3 && PowerOfTwo(a) && arena.alignment < a < LIMIT
    requires FirstAbove(arena.base, a) == Some(o1) && arena.alignment <= o1 && o1 + arena.alignment <= arena.size
    requires 2 * arena.alignment <= LIMIT && Active(arena.extents[..]) == Trap(o1, arena.alignment)
    modifies arena.extents
    ensures Active(arena.extents[..]) ==
            Trap(o1, arena.alignment) + {Extent(o1, arena.alignment, arena.alignment, true)}
  {
    ghost var es := arena.extents[..];
    var own := arena.alignment;
    SoundLengths(es, own, arena.size);
    NotFull(es, own, arena.size, Extent(0, o1 - own, o1 - own, true), Extent(o1 - own, 2 * own, 2 * own, true));
    TrapCatches(es, arena.base, own, a, o1);
    assert Aligned(own, own);
    LengthStays(own, own);
    var r := arena.Allocate(own, a);
  }

  /** At most three requests to a new arena with room for three extents, and the last lies inside the one before. */
  method Overlaps(base: nat, size: nat, own: nat, slots: nat, a: nat) returns (arena: Arena)
    requires PowerOfTwo(own) && PowerOfTwo(a) && own < a < LIMIT && Aligned(base, own)
    requires base + size <= LIMIT && size < LIMIT && slots >= 3
    requires FirstAbove(base, a).Some? && FirstAbove(base, a).value + own <= size
    ensures arena.base == base && arena.size == size && arena.alignment == own && arena.extents.Length == slots
    ensures exists e, f :: e in Active(arena.extents[..]) && f in Active(arena.extents[..]) && e != f
                           && !Beside(e, f.offset, f.len)
  {
    var o1 := FirstAbove(base, a).value;
    FirstAboveIs(base, a, o1);
    FirstAboveOwn(base, own, a, o1);
    RoomToRound(own, a);
    arena := SetTrap(base, size, own, slots, o1);
    Springs(arena, a, o1);
    ghost var e, f := Extent(o1 - own, 2 * own, 2 * own, true), Extent(o1, own, own, true);
    assert e in Active(arena.extents[..]) && f in Active(arena.extents[..]) && !Beside(e, f.offset, f.len);
  }

  /** Takes the next `len` bytes, with everything below `o` taken already. */
  method Fill(arena: Arena, o: nat, len: nat)
    requires arena.Valid() && arena.extents.Length >= 3 && o + len <= arena.size && 0 < len
    requires len + arena.alignment <= LIMIT
    requires Aligned(o, arena.alignment) && Aligned(len, arena.alignment)
    requires Active(arena.extents[..]) == if o == 0 then {} else {Extent(0, o, o, true)}
    modifies arena.extents
    ensures arena.Valid() && Active(arena.extents[..]) == old(Active(arena.extents[..])) + {Extent(o, len, len, true)}
  {
    ghost var es := arena.extents[..];
    var own := arena.alignment;
    NotFull(es, own, arena.size, Extent(0, o, o, true), Extent(0, o, o, true));
    AlignedSum(arena.base, o, own);
    assert On(arena.base, o, own);
    forall i | 0 <= i < |es| && es[i].active ensures Beside(es[i], o, len) {
      assert es[i] in Active(es);
    }
    assert Gap(es, o, len);
    LengthStays(len, own);
    assert o > 0 ==> Extent(0, o, o, true) in Active(es);
    var r := arena.Allocate(len, 1);
    GoesThere(es, arena.base, own, arena.size, len, o, r.value - arena.base);
  }
}
