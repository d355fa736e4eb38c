/** The volatile half of the huge allocator: a thread's free set, and how it is rebuilt from shared memory. */
module HugeFocus {
  import opened Options
  import opened Claims
  import opened Huge
  import opened HugeInvariant
  import opened HugeRuns
  import HugeSlots

  /** One of the first `n` descriptors of the list is live and contains `x`. */
  ghost predicate LiveAmong(descs: seq<Desc>, list: seq<Did>, n: nat, x: nat) {
    exists i :: 0 <= i < n && i < |list| && Is(descs, list[i], Live) && Contains(descs[list[i]], x)
  }

  ghost predicate LiveAt(st: State, t: Tid, x: nat)
    requires t < |st.threads|
  {
    LiveAmong(st.descs, st.threads[t].list, |st.threads[t].list|, x)
  }

  class Allocator {
    var free: set<nat>

    constructor ()
      ensures free == {}
    {
      free := {};
    }

    method Uncover(offset: nat, size: nat)
      modifies this
      ensures free == old(free) + Range(offset, size)
    {
      free := free + Range(offset, size);
    }

    /** Takes a range out of the free set; `ok` is the assertion that all of it was there. */
    method Cover(offset: nat, size: nat) returns (ok: bool)
      modifies this
      ensures ok <==> Range(offset, size) <= old(free)
      ensures free == if ok then old(free) - Range(offset, size) else old(free)
    {
      ok := free * Range(offset, size) == Range(offset, size);
      if ok {
        free := free - Range(offset, size);
      }
    }

    /** Takes the lowest range that fits, and fails only when none does. */
    method Allocate(size: nat) returns (offset: Option<nat>)
      requires forall x :: x in free ==> x < REGION
      requires size > 0
      modifies this
      ensures offset.Some? ==> Range(offset.value, size) <= old(free) && free == old(free) - Range(offset.value, size)
      ensures forall o: nat :: (offset.Some? ==> o < offset.value) ==> !(Range(o, size) <= old(free))
      ensures offset.None? ==> free == old(free)
    {
      offset := FirstFit(free, size, 0);
      assert forall o: nat :: o >= REGION ==> o in Range(o, size) && o !in free;
      if offset.Some? {
        var ok := Cover(offset.value, size);
      }
    }

    /**
    `focus` on thread `t`: it asserts, for each live descriptor in turn, that the thread has claimed its range and that
    no live one before it has any of it. If all goes well, the free set is what is claimed less the live ranges.
    */
    method Focus(slots: seq<Option<Claim>>, descs: seq<Desc>, list: seq<Did>, t: Tid,
                 ghost claims: seq<Claim>) returns (ok: bool)
      requires free == {} && HugeSlots.Tiles(slots, claims) && forall i :: 0 <= i < |list| ==> list[i] < |descs|
      modifies this
      ensures ok <==> forall i :: 0 <= i < |list| ==> LiveFits(claims, descs, list, t, i)
      ensures ok ==> forall x: nat :: x in free <==> OwnerOf(claims, x) == Some(t) && !LiveAmong(descs, list, |list|, x)
    {
      var n := 0;
      while n < |slots|
        invariant n <= |slots|
        invariant forall x: nat :: x in free <==> ClaimedBelow(slots, n, t, x)
      {
        if slots[n].Some? && slots[n].value.id == t {
          Uncover(n * SLOT_SIZE, slots[n].value.count * SLOT_SIZE);
        }
        ClaimsGrow(slots, n, t);
        n := n + 1;
      }
      forall x: nat ensures x in free <==> OwnerOf(claims, x) == Some(t) {
        SlotsTell(slots, claims, t, x);
      }
      var i := 0;
      while i < |list|
        invariant i <= |list| && forall j :: 0 <= j < i ==> LiveFits(claims, descs, list, t, j)
        invariant forall x: nat :: x in free <==> OwnerOf(claims, x) == Some(t) && !LiveAmong(descs, list, i, x)
      {
        var d := descs[list[i]];
        FitsIffFree(claims, descs, list, t, i, free);
        if d.life == Live {
          ok := Cover(d.offset, d.size);
          if !ok {
            return;
          }
        }
        LiveGrows(descs, list, i);
        i := i + 1;
      }
      ok := true;
    }
  }

  /** If descriptor `i` of the list is live, the thread has claimed its range, and no live one before has any of it. */
  ghost predicate LiveFits(claims: seq<Claim>, descs: seq<Desc>, list: seq<Did>, t: Tid, i: nat)
    requires i < |list|
  {
    Is(descs, list[i], Live) ==>
      forall x: nat :: Contains(descs[list[i]], x) ==> OwnerOf(claims, x) == Some(t) && !LiveAmong(descs, list, i, x)
  }

  lemma FitsIffFree(claims: seq<Claim>, descs: seq<Desc>, list: seq<Did>, t: Tid, i: nat, free: set<nat>)
    requires i < |list| && list[i] < |descs|
    requires forall x: nat :: x in free <==> OwnerOf(claims, x) == Some(t) && !LiveAmong(descs, list, i, x)
    ensures descs[list[i]].life == Live ==>
              (LiveFits(claims, descs, list, t, i) <==> Range(descs[list[i]].offset, descs[list[i]].size) <= free)
  {
    var d := descs[list[i]];
    assert forall x: nat :: Contains(d, x) <==> x in Range(d.offset, d.size);
  }

  lemma LiveGrows(descs: seq<Desc>, list: seq<Did>, i: nat)
    requires i < |list| && list[i] < |descs|
    ensures forall x: nat :: LiveAmong(descs, list, i + 1, x) <==>
                             LiveAmong(descs, list, i, x) || (Is(descs, list[i], Live) && Contains(descs[list[i]], x))
  {
    forall x: nat
      ensures LiveAmong(descs, list, i + 1, x) <==>
              LiveAmong(descs, list, i, x) || (Is(descs, list[i], Live) && Contains(descs[list[i]], x))
    {
      if LiveAmong(descs, list, i, x) {
        var j :| 0 <= j < i && j < |list| && Is(descs, list[j], Live) && Contains(descs[list[j]], x);
        assert 0 <= j < i + 1;
      }
    }
  }

  /** In a state that satisfies the invariant no assertion of `focus` fails. */
  lemma FocusGoesOn(st: State, t: Tid, i: nat)
    requires Base(st) && t < |st.threads| && i < |st.threads[t].list|
    ensures LiveFits(st.claims, st.descs, st.threads[t].list, t, i)
  {
    var list := st.threads[t].list;
    assert ThreadOK(st, t);
    if Is(st.descs, list[i], Live) {
      assert DescOK(st, list[i]);
      forall x: nat | Contains(st.descs[list[i]], x) ensures !LiveAmong(st.descs, list, i, x) {
        assert forall j :: 0 <= j < i ==> list[j] != list[i];
      }
    }
  }

  lemma ClaimsGrow(slots: seq<Option<Claim>>, n: nat, t: Tid)
    ensures forall x: nat :: ClaimedBelow(slots, n + 1, t, x) <==> ClaimedBelow(slots, n, t, x) || Spans(slots, n, t, x)
  {
    forall x: nat ensures ClaimedBelow(slots, n + 1, t, x) <==> ClaimedBelow(slots, n, t, x) || Spans(slots, n, t, x) {
      if Spans(slots, n, t, x) {
        assert 0 <= n < n + 1;
      }
      if ClaimedBelow(slots, n, t, x) {
        var j :| 0 <= j < n && Spans(slots, j, t, x);
        assert 0 <= j < n + 1;
      }
    }
  }

  /** The rebuilt set: what the thread had, and the ranges of its descriptors that are free but not given back. */
  ghost predicate Rebuilt(st: State, t: Tid, free: set<nat>)
    requires t < |st.threads|
  {
    forall x: nat :: x in free <==> OwnerOf(st.claims, x) == Some(t) && !LiveAt(st, t, x)
  }

  lemma FocusRestores(st: State, t: Tid, free: set<nat>, x: nat)
    requires Inv(st) && t < |st.threads| && Rebuilt(st, t, free)
    ensures x in free <==> x in st.threads[t].free ||
                           exists d :: 0 <= d < |st.descs| && st.descs[d].life == Free && Contains(st.descs[d], x)
                                       && st.descs[d].owner == t
  {
    ClaimedIsPartitioned(st, t, x);
    assert ThreadOK(st, t);
    if LiveAt(st, t, x) {
      var list := st.threads[t].list;
      var i :| 0 <= i < |list| && Is(st.descs, list[i], Live) && Contains(st.descs[list[i]], x);
      assert HeldBy(st, t, x);
      forall d | 0 <= d < |st.descs| && st.descs[d].life == Free && Contains(st.descs[d], x) ensures false {
        HeldApart(st, d, list[i], x);
      }
    } else if HeldBy(st, t, x) {
      var d :| 0 <= d < |st.descs| && Holds(st.descs[d]) && Contains(st.descs[d], x) && st.descs[d].owner == t;
      assert DescOK(st, d);
      assert d in st.threads[t].list;
    }
  }

  /**
  What that means for the next allocation: it hands out memory that is neither live nor free but waits for threads to
  unmap it, exactly when the range it takes was not free before.
  */
  lemma FocusHandsOutIff(st: State, t: Tid, free: set<nat>, o: nat)
    requires Inv(st) && t < |st.threads| && Rebuilt(st, t, free) && st.threads[t].pc.Taking?
    requires FirstFit(free, st.threads[t].pc.size, 0) == Some(o)
    ensures WriteStep(SetFree(st, t, free), t, o).Some?
    ensures (exists d :: 0 <= d < |st.descs| && Waits(st, t, d)
              && Overlap(st.descs[d], Desc(t, o, st.threads[t].pc.size, Live)))
            <==> !(Range(o, st.threads[t].pc.size) <= st.threads[t].free)
  {
    var size := st.threads[t].pc.size;
    var it := Desc(t, o, size, Live);
    assert PcOK(st, t, st.threads[t].pc);
    assert ThreadOK(st, t);
    if d :| 0 <= d < |st.descs| && Waits(st, t, d) && Overlap(st.descs[d], it) {
      var x := if st.descs[d].offset < o then o else st.descs[d].offset;
      assert DescOK(st, d);
      assert Contains(st.descs[d], x) && x in Range(o, size);
      ClaimedIsPartitioned(st, t, x);
      assert HeldBy(st, t, x);
    }
    if x :| x in Range(o, size) && x !in st.threads[t].free {
      FocusRestores(st, t, free, x);
      var d :| 0 <= d < |st.descs| && st.descs[d].life == Free && Contains(st.descs[d], x) && st.descs[d].owner == t;
      assert Waits(st, t, d) && Overlap(st.descs[d], it);
    }
  }

  /** A descriptor of thread `t` that has been freed and not been given back. */
  ghost predicate Waits(st: State, t: Tid, d: Did) {
    d < |st.descs| && st.descs[d].owner == t && st.descs[d].life == Free
  }

  /**
  The rebuilt set does not fit the rest of the state when descriptors are left in state `Free`: their ranges are free
  while they still hold them. The invariant survives exactly when there is none.
  */
  lemma FocusKeepsIff(st: State, t: Tid, free: set<nat>)
    requires Inv(st) && t < |st.threads| && Rebuilt(st, t, free)
    ensures Inv(SetFree(st, t, free)) <==> forall d :: 0 <= d < |st.descs| && st.descs[d].owner == t ==>
              st.descs[d].life != Free
  {
    var st' := SetFree(st, t, free);
    if d :| 0 <= d < |st.descs| && st.descs[d].owner == t && st.descs[d].life == Free {
      assert DescOK(st, d);
      var o := st.descs[d].offset;
      assert Contains(st.descs[d], o);
      FocusRestores(st, t, free, o);
      assert !DescOK(st', d);
    } else {
      forall x: nat ensures x in free <==> x in st.threads[t].free {
        FocusRestores(st, t, free, x);
      }
      assert free == st.threads[t].free;
      assert st'.threads == st.threads;
    }
  }
}
