/**
A thread's hazard array: the offsets it has mapped, in the first `len` entries of a fixed array, in no particular order.
It refines a finite set; the order of the entries does not matter to anybody.
*/
module Hazards {
  import opened Options

  /** The first `n` entries hold distinct offsets. */
  ghost predicate Unique(entries: seq<Option<nat>>, n: nat) {
    && n <= |entries|
    && (forall i :: 0 <= i < n ==> entries[i].Some?)
    && (forall i, j :: 0 <= i < j < n ==> entries[i] != entries[j])
  }

  /** The offsets in the first `n` entries. */
  ghost function Offsets(entries: seq<Option<nat>>, n: nat): (s: set<nat>)
    requires n <= |entries|
    ensures forall o :: o in s <==> Some(o) in entries[..n]
  {
    set i | 0 <= i < n && entries[i].Some? :: entries[i].value
  }

  class HazardArray {
    const entries: array<Option<nat>>
    var len: nat

    ghost predicate Valid()
      reads this, entries
    {
      Unique(entries[..], len)
    }

    ghost function Contents(): set<nat>
      requires Valid()
      reads this, entries
    {
      Offsets(entries[..], len)
    }

    constructor (capacity: nat)
      ensures Valid() && Contents() == {} && entries.Length == capacity && fresh(entries)
    {
      entries := new Option<nat>[capacity](_ => None);
      len := 0;
    }

    /** Position of an offset among the entries in use, or `len`. */
    method Position(offset: nat) returns (index: nat)
      requires Valid()
      ensures index <= len
      ensures index < len ==> entries[index] == Some(offset)
      ensures offset in Contents() <==> index < len
    {
      index := 0;
      while index < len && entries[index] != Some(offset)
        invariant index <= len
        invariant forall i :: 0 <= i < index ==> entries[i] != Some(offset)
      {
        index := index + 1;
      }
      assert index < len ==> entries[..][..len][index] == Some(offset);
    }

    method Contains(offset: nat) returns (found: bool)
      requires Valid()
      ensures found <==> offset in Contents()
    {
      var index := Position(offset);
      found := index < len;
    }

    /** Adds an offset; fails when it is there already or the array is full. */
    method Insert(offset: nat) returns (ok: bool)
      requires Valid()
      modifies this, entries
      ensures Valid()
      ensures ok <==> offset !in old(Contents()) && old(len) < entries.Length
      ensures Contents() == if ok then old(Contents()) + {offset} else old(Contents())
    {
      var found := Contains(offset);
      if found || len == entries.Length {
        return false;
      }
      ghost var before := entries[..];
      entries[len] := Some(offset);
      len := len + 1;
      InsertOffsets(before, len - 1, offset);
      assert entries[..] == before[len - 1 := Some(offset)];
      ok := true;
    }

    /** Removes an offset by moving the last entry into its place. */
    method SwapRemove(offset: nat) returns (found: bool)
      requires Valid()
      modifies this, entries
      ensures Valid()
      ensures found <==> offset in old(Contents())
      ensures Contents() == old(Contents()) - {offset}
    {
      var index := Position(offset);
      if index == len {
        return false;
      }
      ghost var before := entries[..];
      var last := entries[len - 1];
      entries[index] := last;
      entries[len - 1] := None;
      len := len - 1;
      RemoveOffsets(before, len + 1, index);
      assert entries[..] == before[index := last][len := None];
      found := true;
    }
  }

  lemma InsertOffsets(before: seq<Option<nat>>, n: nat, offset: nat)
    requires Unique(before, n) && n < |before| && offset !in Offsets(before, n)
    ensures var after := before[n := Some(offset)];
            Unique(after, n + 1) && Offsets(after, n + 1) == Offsets(before, n) + {offset}
  {
    var after := before[n := Some(offset)];
    assert after[..n + 1] == before[..n] + [Some(offset)];
    assert forall i :: 0 <= i < n ==> before[i] == before[..n][i];
  }

  lemma RemoveOffsets(before: seq<Option<nat>>, n: nat, index: nat)
    requires Unique(before, n) && index < n
    ensures var after := before[index := before[n - 1]][n - 1 := None];
            Unique(after, n - 1) && Offsets(after, n - 1) == Offsets(before, n) - {before[index].value}
  {
    var after := before[index := before[n - 1]][n - 1 := None];
    forall o | o in Offsets(before, n) - {before[index].value} ensures o in Offsets(after, n - 1) {
      var i :| 0 <= i < n && before[i] == Some(o);
      var k := if i == n - 1 then index else i;
      assert after[..n - 1][k] == Some(o);
    }
    forall o | o in Offsets(after, n - 1) ensures o in Offsets(before, n) && o != before[index].value {
      var i :| 0 <= i < n - 1 && after[i] == Some(o);
      var k := if i == index then n - 1 else i;
      assert before[..n][k] == Some(o);
    }
  }
}
