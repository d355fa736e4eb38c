/** A thread that stops while it is overwriting a descriptor, and what `focus` makes of the descriptor it left. */
module HugeCrash {
  import opened Options
  import opened Claims
  import opened Huge
  import opened HugeInvariant
  import opened HugeStores
  import opened HugeRefines
  import HugeFocus
  import HugeTorn
  import HugeWitness

  /** No assertion of `focus` on thread `t` fails. */
  ghost predicate Restarts(st: Machine, t: Tid)
    requires t < |st.mem.threads|
  {
    var list := st.mem.threads[t].list;
    forall i :: 0 <= i < |list| ==> HugeFocus.LiveFits(st.mem.claims, st.mem.descs, list, t, i)
  }

  /** As it is in memory, descriptor `d` has an offset that is not its owner's or is in another live range. */
  ghost predicate Clashes(st: Machine, t: Tid, d: Did, x: nat) {
    && t < |st.mem.threads| && d < |st.mem.descs| && Contains(st.mem.descs[d], x)
    && (OwnerOf(st.mem.claims, x) != Some(t) ||
        exists j :: 0 <= j < |st.mem.threads[t].list| && st.mem.threads[t].list[j] != d && LiveHas(st, t, j, x))
  }

  predicate LiveHas(st: Machine, t: Tid, j: nat, x: nat)
    requires t < |st.mem.threads| && j < |st.mem.threads[t].list|
  {
    var e := st.mem.threads[t].list[j];
    Is(st.mem.descs, e, Live) && Contains(st.mem.descs[e], x)
  }

  /** Thread `t` has begun to overwrite a descriptor that now clashes. */
  ghost predicate LeavesClash(st: Machine, t: Tid)
    requires t < |st.work|
  {
    st.work[t].Storing? && !st.work[t].stage.ToLive? && exists x: nat :: Clashes(st, t, st.work[t].d, x)
  }

  /** Every other descriptor of the thread is as in the abstract state. */
  lemma OtherFits(st: Machine, t: Tid, i: nat, x: nat)
    requires Sound(st) && t < |st.work| && i < |st.mem.threads[t].list| && LiveHas(st, t, i, x)
    requires st.work[t].Storing? ==> st.mem.threads[t].list[i] != st.work[t].d
    ensures OwnerOf(st.mem.claims, x) == Some(t)
    ensures forall j :: 0 <= j < |st.mem.threads[t].list| && j != i && LiveHas(st, t, j, x) ==>
              st.work[t].Storing? && st.mem.threads[t].list[j] == st.work[t].d && !st.work[t].stage.ToLive?
  {
    var a, list := Abs(st), st.mem.threads[t].list;
    assert ThreadOK(a, t);
    OwnerSame(st, list[i]);
    assert DescOK(a, list[i]);
    assert WorkOK(st, t);
    forall j | 0 <= j < |list| && j != i && LiveHas(st, t, j, x)
      ensures st.work[t].Storing? && list[j] == st.work[t].d && !st.work[t].stage.ToLive?
    {
      OwnerSame(st, list[j]);
      assert list[i] != list[j];
      if !Rewriting(st, list[j]) {
        assert Overlap(a.descs[list[i]], a.descs[list[j]]);
      }
    }
  }

  lemma AmongIs(st: Machine, t: Tid, i: nat, x: nat)
    requires t < |st.mem.threads| && i <= |st.mem.threads[t].list|
    ensures HugeFocus.LiveAmong(st.mem.descs, st.mem.threads[t].list, i, x) <==>
            exists j :: 0 <= j < i && LiveHas(st, t, j, x)
  {
    var list := st.mem.threads[t].list;
    if HugeFocus.LiveAmong(st.mem.descs, list, i, x) {
      var j :| 0 <= j < i && j < |list| && Is(st.mem.descs, list[j], Live) && Contains(st.mem.descs[list[j]], x);
      assert LiveHas(st, t, j, x);
    }
  }

  lemma NoClashRestarts(st: Machine, t: Tid, i: nat)
    requires Sound(st) && t < |st.work| && !LeavesClash(st, t) && i < |st.mem.threads[t].list|
    ensures HugeFocus.LiveFits(st.mem.claims, st.mem.descs, st.mem.threads[t].list, t, i)
  {
    var list, w := st.mem.threads[t].list, st.work[t];
    assert WorkOK(st, t);
    forall x: nat | Is(st.mem.descs, list[i], Live) && Contains(st.mem.descs[list[i]], x)
      ensures OwnerOf(st.mem.claims, x) == Some(t) && !HugeFocus.LiveAmong(st.mem.descs, list, i, x)
    {
      AmongIs(st, t, i, x);
      assert LiveHas(st, t, i, x);
      assert ThreadOK(Abs(st), t);
      if w.Storing? && list[i] == w.d {
        assert !Clashes(st, t, w.d, x);
      } else {
        OtherFits(st, t, i, x);
        if j :| 0 <= j < i && LiveHas(st, t, j, x) {
          assert Clashes(st, t, w.d, x);
        }
      }
    }
  }

  lemma ClashStops(st: Machine, t: Tid, x: nat)
    requires Sound(st) && t < |st.work| && st.work[t].Storing? && !st.work[t].stage.ToLive?
    requires Clashes(st, t, st.work[t].d, x)
    ensures !Restarts(st, t)
  {
    var list, d := st.mem.threads[t].list, st.work[t].d;
    assert WorkOK(st, t);
    var i :| 0 <= i < |list| && list[i] == d;
    assert LiveHas(st, t, i, x);
    if OwnerOf(st.mem.claims, x) == Some(t) {
      var j :| 0 <= j < |list| && list[j] != d && LiveHas(st, t, j, x);
      var k := if i < j then j else i;
      AmongIs(st, t, k, x);
      assert !HugeFocus.LiveFits(st.mem.claims, st.mem.descs, list, t, k);
    } else {
      assert !HugeFocus.LiveFits(st.mem.claims, st.mem.descs, list, t, i);
    }
  }

  /**
  `focus` on a thread that stopped anywhere goes through, unless the thread was overwriting a descriptor and what it
  had stored by then clashes with the thread's claims or its other live ranges.
  */
  lemma RestartsIff(st: Machine, t: Tid)
    requires Sound(st) && t < |st.work|
    ensures Restarts(st, t) <==> !LeavesClash(st, t)
  {
    if LeavesClash(st, t) {
      var x: nat :| Clashes(st, t, st.work[t].d, x);
      ClashStops(st, t, x);
    } else {
      forall i | 0 <= i < |st.mem.threads[t].list|
        ensures HugeFocus.LiveFits(st.mem.claims, st.mem.descs, st.mem.threads[t].list, t, i)
      {
        NoClashRestarts(st, t, i);
      }
    }
  }

  /** Such a stop, on a run from the start: the new offset with the old size runs into the next live range. */
  lemma FocusPanics() returns (st: Machine)
    ensures HugeTorn.Reaches(st) && |st.mem.threads| == 2 && !Restarts(st, 0)
    ensures st.work == [Storing(2, Desc(0, 0, 1, Live), ToSize), Idle]
  {
    var slot := HugeWitness.SlotExists(SLOT_SIZE);
    HugeTorn.HandsOut(slot);
    st := HugeTorn.Writing(HugeTorn.HalfStored(), HugeTorn.Freed(slot) - Range(0, 1), HugeTorn.QUIET);
    assert LiveHas(st, 0, 0, 1) && LiveHas(st, 0, 1, 1);
    AmongIs(st, 0, 1, 1);
    assert !HugeFocus.LiveFits(st.mem.claims, st.mem.descs, HugeTorn.LIST, 0, 1);
  }
}
