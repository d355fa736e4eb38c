/** Whole runs of the huge allocator. */
module HugeRuns {
  import opened Options
  import opened Claims
  import opened Huge
  import opened HugeInvariant
  import HugeSlots

  /** Only thread `t`'s place changes. */
  lemma PlaceKeeps(st: State, t: Tid, pc: Pc)
    requires Inv(st) && t < |st.threads| && PcOK(st, t, pc)
    requires Handling(pc).Some? ==>
               forall u :: 0 <= u < |st.threads| && u != t ==> Handling(st.threads[u].pc) != Handling(pc)
    ensures Inv(SetPc(st, t, pc))
  {
    var st' := SetPc(st, t, pc);
    FewerHazards(st, st', t);
    Conclude(st, st', t);
  }

  lemma RemoveKeeps(st: State, t: Tid, d: Did, pc: Pc)
    requires Inv(st) && t < |st.threads| && d < |st.descs| && PcOK(st, t, pc)
    requires Handling(pc).Some? ==> Handling(pc) == Handling(st.threads[t].pc)
    ensures Inv(RemoveStep(st, t, d, pc).value)
  {
    var st' := RemoveStep(st, t, d, pc).value;
    FewerHazards(st, st', t);
    assert PcOK(st', t, pc);
    Conclude(st, st', t);
  }

  lemma InsertKeeps(st: State, t: Tid, d: Did)
    requires Inv(st) && t < |st.threads| && Is(st.descs, d, Live)
    requires forall u :: 0 <= u < |st.threads| && u != t ==> Handling(st.threads[u].pc) != Some(d)
    requires st.descs[d].offset !in st.threads[t].hazards && |st.threads[t].hazards| < HAZARDS
    ensures InsertStep(st, t, d).Some? && Inv(InsertStep(st, t, d).value)
  {
    var st' := InsertStep(st, t, d).value;
    OneMoreHazard(st, st', t, d);
    Conclude(st, st', t);
  }

  lemma ReleaseKeeps(st: State, t: Tid, d: Did)
    requires Inv(st) && t < |st.threads| && st.threads[t].pc == Releasing(d)
    ensures d < |st.descs| && Inv(SetPc(SetLife(st, d, Free), t, Resting))
  {
    assert PcOK(st, t, st.threads[t].pc);
    var st' := SetPc(SetLife(st, d, Free), t, Resting);
    ReleaseBase(st, st', t, d);
    ReleaseOthers(st, st', t, d);
    Conclude(st, st', t);
  }

  /** `reuse` is about to give its current descriptor's range back. */
  predicate AtUncover(st: State, t: Tid)
    requires t < |st.threads| && st.threads[t].pc.Reusing?
  {
    var me := st.threads[t];
    me.pc.k < |me.list| && Is(st.descs, me.list[me.pc.k], Free) && me.pc.h >= |st.threads|
  }

  lemma UncoverKeeps(st: State, t: Tid)
    requires Inv(st) && t < |st.threads| && st.threads[t].pc.Reusing? && AtUncover(st, t)
    ensures ReuseStep(st, t).Some? && Inv(ReuseStep(st, t).value)
  {
    var me := st.threads[t];
    var pc := me.pc;
    assert PcOK(st, t, pc);
    assert ThreadOK(st, t);
    var st' := ReuseStep(st, t).value;
    UncoverBase(st, st', t, me.list[pc.k]);
    UncoverOthers(st, st', t, me.list[pc.k]);
    assert FirstSafe(st'.descs, me.list, pc.k + 1, OrElse(pc.safe, pc.k)) by {
      assert forall i :: 0 <= i < pc.k ==> st'.descs[me.list[i]] == st.descs[me.list[i]];
    }
    Conclude(st, st', t);
  }

  lemma LookKeeps(st: State, t: Tid)
    requires Inv(st) && t < |st.threads| && st.threads[t].pc.Reusing? && !AtUncover(st, t)
    ensures ReuseStep(st, t).Some? && Inv(ReuseStep(st, t).value)
  {
    assert PcOK(st, t, st.threads[t].pc);
    assert ThreadOK(st, t);
    PlaceKeeps(st, t, ReuseStep(st, t).value.threads[t].pc);
  }

  lemma ReuseKeeps(st: State, t: Tid)
    requires Inv(st) && t < |st.threads| && st.threads[t].pc.Reusing?
    ensures ReuseStep(st, t).Some? && Inv(ReuseStep(st, t).value)
  {
    if AtUncover(st, t) {
      UncoverKeeps(st, t);
    } else {
      LookKeeps(st, t);
    }
  }

  lemma WriteKeeps(st: State, t: Tid, o: nat)
    requires Inv(st) && t < |st.threads| && st.threads[t].pc.Taking?
    requires Range(o, st.threads[t].pc.size) <= st.threads[t].free
    ensures WriteStep(st, t, o).Some? && Inv(WriteStep(st, t, o).value)
  {
    var me := st.threads[t];
    assert PcOK(st, t, me.pc);
    assert ThreadOK(st, t);
    var it := Desc(t, o, me.pc.size, Live);
    var st' := WriteStep(st, t, o).value;
    var d := if me.pc.safe.None? then |st.descs| else me.list[me.pc.safe.value];
    WriteOthers(st, st', t, d, it);
    if me.pc.safe.None? {
      WriteNew(st, st', t, it);
    } else {
      WriteOver(st, st', t, me.pc.safe.value, it);
    }
    forall u | 0 <= u < |st.threads| && u != t ensures Handling(st.threads[u].pc) != Some(d) {
      assert PcOK(st, u, st.threads[u].pc);
    }
    Conclude(st, st', t);
  }

  lemma ClaimKeeps(st: State, t: Tid)
    requires Inv(st) && t < |st.threads| && st.threads[t].pc.Taking? && ClaimStep(st, t).Some?
    ensures Inv(ClaimStep(st, t).value)
  {
    var st' := ClaimStep(st, t).value;
    assert PcOK(st, t, st.threads[t].pc);
    var c := Claim(t, SlotCount(st.threads[t].pc.size));
    ClaimBase(st, st', t, c);
    ClaimOthers(st, st', t, c);
    Conclude(st, st', t);
  }

  lemma GoKeeps(st: State, t: Tid)
    requires Inv(st) && t < |st.threads| && GoStep(st, t).Some?
    ensures Inv(GoStep(st, t).value)
  {
    var pc := st.threads[t].pc;
    assert PcOK(st, t, pc);
    match pc
    case Resting =>
    case Reusing(_, _, _, _) => ReuseKeeps(st, t);
    case Taking(size, _) =>
      var fit := FirstFit(st.threads[t].free, size, 0);
      if fit.Some? {
        WriteKeeps(st, t, fit.value);
      } else {
        ClaimKeeps(st, t);
      }
    case Inserting(d) => InsertKeeps(st, t, d);
    case Freeing(d) => RemoveKeeps(st, t, d, Releasing(d));
    case Releasing(d) => ReleaseKeeps(st, t, d);
    case Refreshing(d, back) => RemoveKeeps(st, t, d, back);
  }

  /** Every step the application may ask for keeps the invariant. */
  lemma StepKeeps(st: State, a: Action)
    requires Inv(st) && Enabled(st, a) && Step(st, a).Some?
    ensures Inv(Step(st, a).value)
  {
    match a
    case Go(t) => GoKeeps(st, t);
    case Allocate(t, size) => PlaceKeeps(st, t, Reusing(size, 0, 0, None));
    case Release(t, x) =>
      var d :| Usable(st, d, x);
      FindHolds(st, d, x);
      PlaceKeeps(st, t, Freeing(d));
    case Map(t, x) =>
      var d: nat :| Usable(st, d, x) && st.descs[d].offset !in st.threads[t].hazards;
      FindHolds(st, d, x);
      InsertKeeps(st, t, d);
    case Refresh(t, d) =>
      assert PcOK(st, t, st.threads[t].pc);
      PlaceKeeps(st, t, Refreshing(d, st.threads[t].pc));
  }

  /** One of two things that can stop a step: the region has no room for the slots it asks for. */
  ghost predicate Starved(st: State, t: Tid) {
    && t < |st.threads| && st.threads[t].pc.Taking?
    && FirstFit(st.threads[t].free, st.threads[t].pc.size, 0).None?
    && Total(st.claims) + SlotCount(st.threads[t].pc.size) > SLOTS
  }

  /** The other: the thread's hazard array has no room for another offset. */
  ghost predicate Crowded(st: State, a: Action) {
    && a.t < |st.threads| && |st.threads[a.t].hazards| >= HAZARDS
    && (a.Map? || (a.Go? && st.threads[a.t].pc.Inserting?))
  }

  /** No other panic: `find` finds, hazards are unique, and covering is always possible. */
  lemma StepGoesOn(st: State, a: Action)
    requires Inv(st) && Enabled(st, a)
    ensures Step(st, a).None? <==> (a.Go? && Starved(st, a.t)) || Crowded(st, a)
  {
    match a
    case Go(t) =>
      var pc := st.threads[t].pc;
      assert PcOK(st, t, pc);
      match pc {
        case Resting =>
        case Reusing(_, _, _, _) => ReuseKeeps(st, t);
        case Taking(size, _) =>
          var fit := FirstFit(st.threads[t].free, size, 0);
          if fit.Some? {
            WriteKeeps(st, t, fit.value);
          }
        case Inserting(d) =>
        case Freeing(d) =>
        case Releasing(d) =>
        case Refreshing(d, back) =>
      }
    case Allocate(t, size) =>
    case Release(t, x) =>
      var d :| Usable(st, d, x);
      FindHolds(st, d, x);
    case Map(t, x) =>
      var d: nat :| Usable(st, d, x) && st.descs[d].offset !in st.threads[t].hazards;
      FindHolds(st, d, x);
    case Refresh(t, d) =>
  }

  ghost predicate IsRun(states: seq<State>, acts: seq<Action>, threads: nat) {
    && |states| == |acts| + 1
    && states[0] == Init(threads)
    && forall n :: 0 <= n < |acts| ==> Enabled(states[n], acts[n]) && Step(states[n], acts[n]) == Some(states[n + 1])
  }

  lemma InitKeeps(threads: nat)
    ensures Inv(Init(threads))
  {
    var st := Init(threads);
    forall t | 0 <= t < |st.threads| ensures ThreadOK(st, t) {
    }
    forall t | 0 <= t < |st.threads| ensures PcOK(st, t, st.threads[t].pc) {
    }
  }

  lemma {:induction false} RunsKeep(states: seq<State>, acts: seq<Action>, threads: nat, n: nat)
    requires IsRun(states, acts, threads) && n < |states|
    ensures Inv(states[n])
  {
    if n == 0 {
      InitKeeps(threads);
    } else {
      var m := n - 1;
      RunsKeep(states, acts, threads, m);
      assert Enabled(states[m], acts[m]) && Step(states[m], acts[m]) == Some(states[m + 1]);
      StepKeeps(states[m], acts[m]);
    }
  }

  // What holds in every reachable state

  /** Some descriptor of thread `t` holds offset `x`. */
  ghost predicate HeldBy(st: State, t: Tid, x: nat) {
    exists d :: 0 <= d < |st.descs| && Holds(st.descs[d]) && Contains(st.descs[d], x) && st.descs[d].owner == t
  }

  /**
  The offsets a thread has claimed are its free set and the ranges of its live and free descriptors, and never both.
  */
  lemma ClaimedIsPartitioned(st: State, t: Tid, x: nat)
    requires Inv(st) && t < |st.threads|
    ensures OwnerOf(st.claims, x) == Some(t) <==> x in st.threads[t].free || HeldBy(st, t, x)
    ensures !(x in st.threads[t].free && HeldBy(st, t, x))
  {
    assert ThreadOK(st, t);
    if HeldBy(st, t, x) {
      var d :| 0 <= d < |st.descs| && Holds(st.descs[d]) && Contains(st.descs[d], x) && st.descs[d].owner == t;
      assert DescOK(st, d);
    }
    if OwnerOf(st.claims, x) == Some(t) && x !in st.threads[t].free {
      var d :| 0 <= d < |st.descs| && Holds(st.descs[d]) && Contains(st.descs[d], x);
      assert DescOK(st, d);
    }
  }

  /** Ranges that are live or not given back yet never share an offset. */
  lemma HeldApart(st: State, d: Did, e: Did, x: nat)
    requires Inv(st) && d < |st.descs| && e < |st.descs| && Holds(st.descs[d]) && Holds(st.descs[e])
    requires Contains(st.descs[d], x) && Contains(st.descs[e], x)
    ensures d == e
  {
    assert d != e ==> !Overlap(st.descs[d], st.descs[e]);
  }

  /** `reuse` never gives back a range whose offset some thread's hazard array has. */
  lemma ReuseSpares(st: State, a: Action, d: Did)
    requires Inv(st) && Enabled(st, a) && Step(st, a).Some?
    requires Is(st.descs, d, Free) && !Is(Step(st, a).value.descs, d, Free)
    ensures st.threads[a.t].pc.Reusing? && Is(Step(st, a).value.descs, d, Safe)
    ensures forall j :: 0 <= j < |st.threads| ==> st.descs[d].offset !in st.threads[j].hazards
  {
    assert PcOK(st, a.t, st.threads[a.t].pc);
  }

  /** Every look of `reuse` into a hazard array has missed the offset of its current descriptor. */
  function AllMissed(st: State, t: Tid): State
    requires t < |st.threads| && st.threads[t].pc.Reusing?
  {
    var pc := st.threads[t].pc;
    SetPc(st, t, Reusing(pc.size, pc.k, |st.threads|, pc.safe))
  }

  /** Then the range is given back, and the invariant is kept exactly when no array has its offset. */
  lemma MissedKeepsIff(st: State, t: Tid, d: Did)
    requires Inv(st) && t < |st.threads| && st.threads[t].pc.Reusing? && Is(st.descs, d, Free)
    requires st.threads[t].pc.k < |st.threads[t].list| && st.threads[t].list[st.threads[t].pc.k] == d
    ensures ReuseStep(AllMissed(st, t), t).Some?
    ensures var st' := ReuseStep(AllMissed(st, t), t).value;
            && Is(st'.descs, d, Safe) && |st'.threads| == |st.threads|
            && Range(st.descs[d].offset, st.descs[d].size) <= st'.threads[t].free
            && (forall j :: 0 <= j < |st.threads| ==> st'.threads[j].hazards == st.threads[j].hazards)
            && (Inv(st') <==> forall j :: 0 <= j < |st.threads| ==> st.descs[d].offset !in st.threads[j].hazards)
  {
    assert PcOK(st, t, st.threads[t].pc);
    var st1 := AllMissed(st, t);
    var st' := ReuseStep(st1, t).value;
    if j :| 0 <= j < |st.threads| && st.descs[d].offset in st.threads[j].hazards {
      if Inv(st') {
        assert ThreadOK(st', j);
        var e :| 0 <= e < |st'.descs| && Holds(st'.descs[e]) && st'.descs[e].offset == st.descs[d].offset;
        OffsetsDiffer(st, d, e);
      }
    } else {
      PlaceKeeps(st, t, st1.threads[t].pc);
      UncoverKeeps(st1, t);
    }
  }

  /**
  A hazard goes away only by the holder's own free or because the range was freed; a live range a thread has mapped
  is never unmapped by its `refresh`, even when descriptors are overwritten between its two steps.
  */
  lemma HazardsStay(st: State, a: Action, u: Tid, d: Did)
    requires Inv(st) && Enabled(st, a) && Step(st, a).Some? && u < |st.threads|
    requires Is(st.descs, d, Live) && st.descs[d].offset in st.threads[u].hazards
    ensures st.descs[d].offset in Step(st, a).value.threads[u].hazards || (u == a.t && st.threads[u].pc == Freeing(d))
  {
    var pc := st.threads[a.t].pc;
    assert PcOK(st, a.t, pc);
    if a.Go? && a.t == u && (pc.Freeing? || pc.Refreshing?) && pc.d != d {
      if Holds(st.descs[pc.d]) {
        OffsetsDiffer(st, d, pc.d);
      }
    }
  }

  /** After a claim the size fits, so `allocate` claims at most once. */
  lemma ClaimSuffices(st: State, t: Tid)
    requires Inv(st) && t < |st.threads| && st.threads[t].pc.Taking? && ClaimStep(st, t).Some?
    ensures FirstFit(ClaimStep(st, t).value.threads[t].free, st.threads[t].pc.size, 0).Some?
  {
    assert PcOK(st, t, st.threads[t].pc);
    var o := Total(st.claims) * SLOT_SIZE;
    assert Range(o, st.threads[t].pc.size) <= ClaimStep(st, t).value.threads[t].free;
  }

  // Rebuilding the free set

  /** The claim recorded at slot `j` is thread `t`'s and covers offset `x`. */
  predicate Spans(slots: seq<Option<Claim>>, j: nat, t: Tid, x: nat) {
    && j < |slots| && slots[j].Some? && slots[j].value.id == t
    && x in Range(j * SLOT_SIZE, slots[j].value.count * SLOT_SIZE)
  }

  ghost predicate ClaimedBelow(slots: seq<Option<Claim>>, n: nat, t: Tid, x: nat) {
    exists j :: 0 <= j < n && Spans(slots, j, t, x)
  }

  lemma {:induction false} AtCovers(claims: seq<Claim>, s: nat, j: nat)
    requires Positive(claims) && At(claims, j).Some? && j <= s < j + At(claims, j).value.count
    ensures Covering(claims, s) == At(claims, j)
    decreases |claims|
  {
    var f := Front(claims);
    if j != Total(f) {
      AtCovers(f, s, j);
    }
  }

  lemma {:induction false} CoveredAt(claims: seq<Claim>, s: nat) returns (j: nat)
    requires Positive(claims) && s < Total(claims)
    ensures j <= s && At(claims, j) == Covering(claims, s) && At(claims, j).Some? && s < j + At(claims, j).value.count
    decreases |claims|
  {
    var f := Front(claims);
    if s >= Total(f) {
      j := Total(f);
    } else {
      j := CoveredAt(f, s);
      assert j != Total(f);
    }
  }

  lemma SlotsTell(slots: seq<Option<Claim>>, claims: seq<Claim>, t: Tid, x: nat)
    requires HugeSlots.Tiles(slots, claims)
    ensures ClaimedBelow(slots, |slots|, t, x) <==> OwnerOf(claims, x) == Some(t)
  {
    var s := x / SLOT_SIZE;
    if ClaimedBelow(slots, |slots|, t, x) {
      var j :| 0 <= j < |slots| && Spans(slots, j, t, x);
      AtCovers(claims, s, j);
    }
    if OwnerOf(claims, x) == Some(t) {
      var j := CoveredAt(claims, s);
      assert Spans(slots, j, t, x);
    }
  }
}
