/**
The two-level bitset of a slab's free blocks: one dense word per row, and a sparse word with one bit per row that has
any. A 64-bit word is the set of its bit positions, and the operations on words are those on the positions.
*/
module Bitset {
  type Word = set<nat>

  const WIDTH := 64

  predicate IsWord(w: Word) {
    forall c :: c in w ==> c < WIDTH
  }

  /** The lowest `n` bits: `(1 << n) - 1`. */
  function Ones(n: nat): Word {
    set c: nat | c < n && Below(c, n)
  }

  predicate Below(c: nat, n: nat) { c < n }

  /** `!w`. */
  function Not(w: Word): Word { Ones(WIDTH) - w }

  /** `w << n`, bits beyond the width being lost. */
  function ShiftLeft(w: Word, n: nat): (r: Word)
    ensures forall c: nat :: c in r <==> n <= c < WIDTH && c - n in w
  {
    set c | c in Ones(WIDTH) && n <= c && c - n in w
  }

  /** `b as u64`. */
  function FromBool(b: bool): Word { if b then {0} else {} }

  /** `trailing_zeros`: the lowest bit from `c` on, or the width. */
  function TrailingZeros(w: Word, c: nat): (r: nat)
    requires c <= WIDTH
    ensures c <= r <= WIDTH && (r < WIDTH ==> r in w)
    ensures forall b :: c <= b < r ==> b !in w
    decreases WIDTH - c
  {
    if c == WIDTH || c in w then c else TrailingZeros(w, c + 1)
  }

  datatype Bit = Bit(row: nat, col: nat)

  /** `From<Bit> for u64` and `from_loose`. */
  function Index(b: Bit): nat { b.row * WIDTH + b.col }

  function FromLoose(i: nat): Bit { Bit(i / WIDTH, i % WIDTH) }

  lemma LooseRoundTrip(b: Bit, i: nat)
    ensures Index(FromLoose(i)) == i
    ensures b.col < WIDTH ==> FromLoose(Index(b)) == b
  {
  }

  /** Bit number `i` of the dense rows is on. */
  predicate Has(dense: seq<Word>, i: nat) {
    i / WIDTH < |dense| && i % WIDTH in dense[i / WIDTH]
  }

  /** The set the dense rows stand for. */
  ghost function Members(dense: seq<Word>): (s: set<nat>)
    ensures forall i: nat :: i in s <==> Has(dense, i)
  {
    set i: nat | 0 <= i < |dense| * WIDTH && Has(dense, i)
  }

  /** Sparse bit `r` is on exactly when row `r` has any. */
  ghost predicate Agrees(sparse: Word, dense: seq<Word>) {
    forall r :: r in sparse <==> 0 <= r < |dense| && dense[r] != {}
  }

  predicate AllWords(dense: seq<Word>) {
    |dense| <= WIDTH && forall r :: 0 <= r < |dense| ==> IsWord(dense[r])
  }

  lemma {:induction false} OnesCard(n: nat)
    ensures |Ones(n)| == n
  {
    if n > 0 {
      OnesCard(n - 1);
      assert Ones(n) == Ones(n - 1) + {n - 1};
    } else {
      assert Ones(n) == {};
    }
  }

  lemma MembersUpdate(dense: seq<Word>, b: Bit, w: Word)
    requires b.row < |dense| && b.col < WIDTH && IsWord(dense[b.row])
    ensures w == dense[b.row] + {b.col} ==> Members(dense[b.row := w]) == Members(dense) + {Index(b)}
    ensures w == dense[b.row] - {b.col} ==> Members(dense[b.row := w]) == Members(dense) - {Index(b)}
    ensures Index(b) in Members(dense) <==> b.col in dense[b.row]
  {
    LooseRoundTrip(b, Index(b));
    forall i: nat ensures i / WIDTH == b.row && i % WIDTH == b.col <==> i == Index(b) {
      LooseRoundTrip(b, i);
    }
  }

  class BitSet {
    var count: nat
    var sparse: Word
    const dense: array<Word>

    /** The rows and the count are right. */
    ghost predicate Counted()
      reads this, dense
    {
      AllWords(dense[..]) && count == |Contents()|
    }

    ghost predicate Valid()
      reads this, dense
    {
      Counted() && Agrees(sparse, dense[..])
    }

    ghost function Contents(): set<nat>
      reads this, dense
    {
      Members(dense[..])
    }

    constructor (size: nat)
      requires size <= WIDTH
      ensures Valid() && Contents() == {} && dense.Length == size && fresh(dense)
    {
      dense := new Word[size](_ => {});
      sparse := {};
      count := 0;
    }

    /** Exactly the first `n` bits are on afterwards, whatever was there before. */
    method Fill(n: nat)
      requires dense.Length <= WIDTH && n <= dense.Length * WIDTH
      modifies this, dense
      ensures Valid() && Contents() == Ones(n)
    {
      var rows := n / WIDTH;
      var cols := n % WIDTH;
      var i := 0;
      while i < rows
        invariant i <= rows
        invariant forall r :: 0 <= r < i ==> dense[r] == Ones(WIDTH)
      {
        dense[i] := Ones(WIDTH);
        i := i + 1;
      }
      sparse := if rows < WIDTH then Ones(rows) else Ones(WIDTH);
      if cols > 0 {
        dense[rows] := Ones(cols);
        sparse := sparse + ShiftLeft(FromBool(cols > 0), rows);
      }
      var j := i + if cols > 0 then 1 else 0;
      ghost var k := j;
      while j < dense.Length
        invariant k <= j <= dense.Length
        invariant forall r :: 0 <= r < i ==> dense[r] == Ones(WIDTH)
        invariant cols > 0 ==> dense[rows] == Ones(cols)
        invariant forall r :: k <= r < j ==> dense[r] == {}
        modifies dense
      {
        dense[j] := {};
        j := j + 1;
      }
      count := n;
      FillMembers(dense[..], n);
      FillAgrees(sparse, dense[..], n);
      OnesCard(n);
    }

    /** The lowest member. */
    method Peek() returns (b: Bit)
      requires Valid() && Contents() != {}
      ensures b.row < dense.Length && b.col < WIDTH
      ensures Index(b) in Contents()
      ensures forall i :: i in Contents() ==> Index(b) <= i
    {
      var row := TrailingZeros(sparse, 0);
      SomeRow(sparse, dense[..]);
      var col := TrailingZeros(dense[row], 0);
      b := Bit(row, col);
      LowestMember(sparse, dense[..], b);
    }

    method Set(b: Bit)
      requires Valid() && b.row < dense.Length && b.col < WIDTH
      requires Index(b) !in Contents()
      modifies this, dense
      ensures Valid() && Contents() == old(Contents()) + {Index(b)}
    {
      ghost var before := dense[..];
      MembersUpdate(before, b, dense[b.row] + {b.col});
      dense[b.row] := dense[b.row] + {b.col};
      assert dense[..] == before[b.row := before[b.row] + {b.col}];
      count := count + 1;
      sparse := sparse + ShiftLeft(FromBool(true), b.row);
      SetAgrees(old(sparse), before, b.row, dense[b.row]);
    }

    /**
    Takes the bit out. The mask also clears the sparse bits of all rows below, so that the two levels agree afterwards
    exactly when those rows are empty.
    */
    method Unset(b: Bit)
      requires Valid() && b.row < dense.Length && b.col < WIDTH
      requires Index(b) in Contents()
      modifies this, dense
      ensures Counted() && Contents() == old(Contents()) - {Index(b)}
      ensures Valid() <==> forall r :: 0 <= r < b.row ==> old(dense[r]) == {}
    {
      ghost var before := dense[..];
      MembersUpdate(before, b, dense[b.row] - {b.col});
      dense[b.row] := dense[b.row] - {b.col};
      assert dense[..] == before[b.row := before[b.row] - {b.col}];
      count := count - 1;
      sparse := sparse * ShiftLeft(Not(FromBool(dense[b.row] == {})), b.row);
      UnsetAgrees(old(sparse), before, b.row, dense[b.row]);
    }

    /** The way the heap allocates: look at the lowest bit, then take it out. Both levels keep agreeing. */
    method TakeLowest() returns (b: Bit)
      requires Valid() && Contents() != {}
      modifies this, dense
      ensures Valid() && Index(b) in old(Contents()) && Contents() == old(Contents()) - {Index(b)}
      ensures forall i :: i in Contents() ==> Index(b) < i
    {
      b := Peek();
      RowsBelow(dense[..], b);
      Unset(b);
    }
  }

  lemma SetAgrees(sparse: Word, dense: seq<Word>, row: nat, w: Word)
    requires AllWords(dense) && Agrees(sparse, dense) && row < |dense| && w != {} && IsWord(w)
    ensures Agrees(sparse + ShiftLeft(FromBool(true), row), dense[row := w]) && AllWords(dense[row := w])
  {
    assert forall r: nat :: r in ShiftLeft(FromBool(true), row) <==> r == row;
  }

  /** What the mask of `unset` does to the sparse level. */
  lemma UnsetAgrees(sparse: Word, dense: seq<Word>, row: nat, w: Word)
    requires AllWords(dense) && Agrees(sparse, dense) && row in sparse
    ensures Agrees(sparse * ShiftLeft(Not(FromBool(w == {})), row), dense[row := w]) <==>
            forall r :: 0 <= r < row ==> dense[r] == {}
  {
    var sparse' := sparse * ShiftLeft(Not(FromBool(w == {})), row);
    assert forall r: nat :: r in sparse' <==> r in sparse && row <= r < WIDTH && (r == row ==> w != {});
    if r :| 0 <= r < row && dense[r] != {} {
      assert r !in sparse' && dense[row := w][r] != {};
    }
  }

  /** With one bit in each of two rows, taking out the upper one loses sight of the lower. */
  lemma UnsetLosesRow()
    ensures var dense := [{0}, {0}];
            Agrees({0, 1}, dense) && !Agrees({0, 1} * ShiftLeft(Not(FromBool(true)), 1), dense[1 := {}])
  {
    var dense: seq<Word> := [{0}, {0}];
    assert dense[0] != {} && dense[1] != {};
    UnsetAgrees({0, 1}, dense, 1, {});
  }

  lemma FillMembers(dense: seq<Word>, n: nat)
    requires n <= |dense| * WIDTH
    requires forall r :: 0 <= r < n / WIDTH ==> dense[r] == Ones(WIDTH)
    requires n % WIDTH > 0 ==> dense[n / WIDTH] == Ones(n % WIDTH)
    requires forall r :: n / WIDTH + (if n % WIDTH > 0 then 1 else 0) <= r < |dense| ==> dense[r] == {}
    ensures Members(dense) == Ones(n)
  {
    forall i: nat ensures Has(dense, i) <==> i < n {
      var r := i / WIDTH;
      if r < n / WIDTH {
        assert dense[r] == Ones(WIDTH);
      } else if r < |dense| && r > n / WIDTH {
        assert dense[r] == {};
      }
    }
  }

  lemma FillAgrees(sparse: Word, dense: seq<Word>, n: nat)
    requires |dense| <= WIDTH && n <= |dense| * WIDTH
    requires forall r :: 0 <= r < n / WIDTH ==> dense[r] == Ones(WIDTH)
    requires n % WIDTH > 0 ==> dense[n / WIDTH] == Ones(n % WIDTH)
    requires forall r :: n / WIDTH + (if n % WIDTH > 0 then 1 else 0) <= r < |dense| ==> dense[r] == {}
    requires forall r: nat :: r in sparse <==> r < n / WIDTH || (n % WIDTH > 0 && r == n / WIDTH)
    ensures AllWords(dense) && Agrees(sparse, dense)
  {
    assert 0 in Ones(WIDTH);
    assert n % WIDTH > 0 ==> 0 in Ones(n % WIDTH);
  }

  lemma SomeRow(sparse: Word, dense: seq<Word>)
    requires AllWords(dense) && Agrees(sparse, dense) && Members(dense) != {}
    ensures TrailingZeros(sparse, 0) < |dense| && dense[TrailingZeros(sparse, 0)] != {}
  {
    var i :| i in Members(dense);
    assert i / WIDTH in sparse;
  }

  lemma LowestMember(sparse: Word, dense: seq<Word>, b: Bit)
    requires AllWords(dense) && Agrees(sparse, dense)
    requires b.row == TrailingZeros(sparse, 0) < |dense| && dense[b.row] != {}
    requires b.col == TrailingZeros(dense[b.row], 0)
    ensures b.col < WIDTH && Index(b) in Members(dense)
    ensures forall i :: i in Members(dense) ==> Index(b) <= i
  {
    var c :| c in dense[b.row];
    assert IsWord(dense[b.row]);
    LooseRoundTrip(b, Index(b));
    forall i | i in Members(dense) ensures Index(b) <= i {
      assert i / WIDTH in sparse;
    }
  }

  lemma RowsBelow(dense: seq<Word>, b: Bit)
    requires AllWords(dense) && forall i :: i in Members(dense) ==> Index(b) <= i
    ensures forall r :: 0 <= r < b.row && r < |dense| ==> dense[r] == {}
  {
    forall r | 0 <= r < b.row && r < |dense| ensures dense[r] == {} {
      assert IsWord(dense[r]);
      forall c | c in dense[r] ensures Index(Bit(r, c)) in Members(dense) {
        LooseRoundTrip(Bit(r, c), 0);
      }
    }
  }
}
