/** What every step of the huge allocator keeps, and what follows for every run. */
module HugeInvariant {
  import opened Options
  import opened Claims
  import opened Huge

  predicate Is(descs: seq<Desc>, d: Did, life: Life) {
    d < |descs| && descs[d].life == life
  }

  /** `safe` is the first position below `k` with a descriptor that may be overwritten. */
  ghost predicate FirstSafe(descs: seq<Desc>, list: seq<Did>, k: nat, safe: Option<nat>) {
    && k <= |list|
    && (safe.None? ==> forall i :: 0 <= i < k ==> !Is(descs, list[i], Safe))
    && (safe.Some? ==> safe.value < k && Is(descs, list[safe.value], Safe))
    && (safe.Some? ==> forall i :: 0 <= i < safe.value ==> !Is(descs, list[i], Safe))
  }

  /** Descriptor `d` is free and none of the first `h` hazard arrays has its offset. */
  ghost predicate Clear(st: State, d: Did, h: nat) {
    && Is(st.descs, d, Free)
    && forall j :: 0 <= j < h && j < |st.threads| ==> st.descs[d].offset !in st.threads[j].hazards
  }

  ghost predicate PcOK(st: State, t: Tid, pc: Pc)
    requires t < |st.threads|
  {
    match pc
    case Resting => true
    case Reusing(size, k, h, safe) =>
      && size > 0 && h <= |st.threads|
      && FirstSafe(st.descs, st.threads[t].list, k, safe)
      && (h > 0 ==> k < |st.threads[t].list| && Clear(st, st.threads[t].list[k], h))
    case Taking(size, safe) => size > 0 && FirstSafe(st.descs, st.threads[t].list, |st.threads[t].list|, safe)
    case Inserting(d) =>
      && Is(st.descs, d, Live)
      && forall j :: 0 <= j < |st.threads| ==> st.descs[d].offset !in st.threads[j].hazards
    case Freeing(d) => Is(st.descs, d, Live)
    case Releasing(d) => Is(st.descs, d, Live)
    case Refreshing(d, back) =>
      && d < |st.descs| && (st.descs[d].offset in st.threads[t].hazards ==> st.descs[d].life == Free)
      && (back.Resting? || back.Taking?) && PcOK(st, t, back)
  }

  predicate Distinct(list: seq<Did>) {
    forall i, j :: 0 <= i < j < |list| ==> list[i] != list[j]
  }

  /** A descriptor that holds its range comes before every outdated one that overlaps it. */
  ghost predicate Ordered(descs: seq<Desc>, list: seq<Did>)
    requires forall i :: 0 <= i < |list| ==> list[i] < |descs|
  {
    forall i, j :: 0 <= i < |list| && 0 <= j < |list|
                   && descs[list[i]].life == Safe && Holds(descs[list[j]]) && Overlap(descs[list[i]], descs[list[j]])
                   ==> j < i
  }

  ghost predicate OffsetHeld(descs: seq<Desc>, o: nat) {
    exists d :: 0 <= d < |descs| && Holds(descs[d]) && descs[d].offset == o
  }

  ghost predicate ThreadOK(st: State, t: Tid)
    requires t < |st.threads|
  {
    var me := st.threads[t];
    && Distinct(me.list)
    && (forall i :: 0 <= i < |me.list| ==> me.list[i] < |st.descs| && st.descs[me.list[i]].owner == t)
    && Ordered(st.descs, me.list)
    && (forall x :: x in me.free ==> OwnerOf(st.claims, x) == Some(t))
    && (forall o :: o in me.hazards ==> OffsetHeld(st.descs, o))
  }

  ghost predicate DescOK(st: State, d: Did)
    requires d < |st.descs|
  {
    var it := st.descs[d];
    && it.owner < |st.threads| && d in st.threads[it.owner].list && it.size > 0
    && (Holds(it) ==>
          forall x: nat :: Contains(it, x) ==>
              OwnerOf(st.claims, x) == Some(it.owner) && x !in st.threads[it.owner].free)
  }

  ghost predicate Apart(descs: seq<Desc>) {
    forall d, e :: 0 <= d < |descs| && 0 <= e < |descs| && d != e && Holds(descs[d]) && Holds(descs[e])
                   ==> !Overlap(descs[d], descs[e])
  }

  ghost predicate Covered(descs: seq<Desc>, x: nat) {
    exists d :: 0 <= d < |descs| && Holds(descs[d]) && Contains(descs[d], x)
  }

  /** Every claimed offset is in its owner's free set or in a range held by a descriptor. */
  ghost predicate Conserved(st: State) {
    forall x: nat :: OwnerOf(st.claims, x).Some? ==>
                       var t := OwnerOf(st.claims, x).value;
                       t < |st.threads| && (x in st.threads[t].free || Covered(st.descs, x))
  }

  /** The part that does not speak of where threads are. */
  ghost predicate Base(st: State) {
    && Positive(st.claims) && Total(st.claims) <= SLOTS
    && (forall t {:trigger ThreadOK(st, t)} :: 0 <= t < |st.threads| ==> ThreadOK(st, t))
    && (forall d {:trigger DescOK(st, d)} :: 0 <= d < |st.descs| ==> DescOK(st, d))
    && Apart(st.descs)
    && Conserved(st)
  }

  ghost predicate Exclusive(threads: seq<Thread>) {
    forall t, u :: 0 <= t < |threads| && 0 <= u < |threads| && t != u && Handling(threads[t].pc).Some?
                   ==> Handling(threads[t].pc) != Handling(threads[u].pc)
  }

  ghost predicate Inv(st: State) {
    && Base(st)
    && (forall t {:trigger PcOK(st, t, st.threads[t].pc)} :: 0 <= t < |st.threads| ==> PcOK(st, t, st.threads[t].pc))
    && Exclusive(st.threads)
  }

  // Effects of the steps on the base, and on what other threads know

  /** The places of the threads other than `t` survive. */
  ghost predicate OthersKeep(st: State, st': State, t: Tid) {
    && |st'.threads| == |st.threads|
    && forall u {:trigger PcOK(st', u, st'.threads[u].pc)} :: 0 <= u < |st.threads| && u != t ==>
         st'.threads[u] == st.threads[u] && PcOK(st', u, st'.threads[u].pc)
  }

  lemma Conclude(st: State, st': State, t: Tid)
    requires Inv(st) && t < |st.threads| && OthersKeep(st, st', t) && Base(st')
    requires PcOK(st', t, st'.threads[t].pc)
    requires Handling(st'.threads[t].pc).Some? ==>
               forall u :: 0 <= u < |st.threads| && u != t ==> Handling(st.threads[u].pc) != Handling(st'.threads[t].pc)
    ensures Inv(st')
  {
    forall u | 0 <= u < |st'.threads| ensures PcOK(st', u, st'.threads[u].pc) {
    }
    assert forall u :: 0 <= u < |st.threads| && u != t ==> PcOK(st', u, st'.threads[u].pc);
  }

  /** Nothing but thread `t`'s place and hazards changes. */
  ghost predicate OnlyHazards(st: State, st': State, t: Tid) {
    && t < |st.threads| == |st'.threads| && st'.claims == st.claims && st'.descs == st.descs
    && (forall u :: 0 <= u < |st.threads| && u != t ==> st'.threads[u] == st.threads[u])
    && st'.threads[t].list == st.threads[t].list && st'.threads[t].free == st.threads[t].free
  }

  lemma HazardsBase(st: State, st': State, t: Tid)
    requires Base(st) && OnlyHazards(st, st', t)
    requires forall o :: o in st'.threads[t].hazards ==> OffsetHeld(st.descs, o)
    ensures Base(st')
  {
    forall u | 0 <= u < |st'.threads| ensures ThreadOK(st', u) {
      assert ThreadOK(st, u);
    }
    forall d | 0 <= d < |st'.descs| ensures DescOK(st', d) {
      assert DescOK(st, d);
    }
  }

  lemma FewerHazards(st: State, st': State, t: Tid)
    requires Inv(st) && OnlyHazards(st, st', t) && st'.threads[t].hazards <= st.threads[t].hazards
    ensures Base(st') && OthersKeep(st, st', t)
  {
    assert ThreadOK(st, t);
    HazardsBase(st, st', t);
    forall u | 0 <= u < |st.threads| && u != t ensures PcOK(st', u, st'.threads[u].pc) {
      assert PcOK(st, u, st.threads[u].pc);
    }
  }

  lemma OneMoreHazard(st: State, st': State, t: Tid, d: Did)
    requires Inv(st) && OnlyHazards(st, st', t) && Is(st.descs, d, Live)
    requires st'.threads[t].hazards == st.threads[t].hazards + {st.descs[d].offset}
    requires forall u :: 0 <= u < |st.threads| && u != t ==> Handling(st.threads[u].pc) != Some(d)
    ensures Base(st') && OthersKeep(st, st', t)
  {
    assert ThreadOK(st, t);
    assert DescOK(st, d);
    assert OffsetHeld(st.descs, st.descs[d].offset);
    HazardsBase(st, st', t);
    forall u | 0 <= u < |st.threads| && u != t ensures PcOK(st', u, st'.threads[u].pc) {
      var pc := st.threads[u].pc;
      assert PcOK(st, u, pc);
      if pc.Reusing? && pc.h > 0 {
        OffsetsDiffer(st, d, st.threads[u].list[pc.k]);
      } else if pc.Inserting? {
        OffsetsDiffer(st, d, pc.d);
      }
    }
  }

  lemma OffsetsDiffer(st: State, d: Did, e: Did)
    requires Base(st) && d < |st.descs| && e < |st.descs| && d != e && Holds(st.descs[d]) && Holds(st.descs[e])
    ensures st.descs[d].offset != st.descs[e].offset
  {
    assert DescOK(st, d) && DescOK(st, e);
  }

  /** Descriptor `d` changes its state, and thread `t` its free set and place. */
  ghost predicate LifeChange(st: State, st': State, t: Tid, d: Did, life: Life) {
    && t < |st.threads| == |st'.threads| && d < |st.descs|
    && st'.claims == st.claims && st'.descs == st.descs[d := st.descs[d].(life := life)]
    && (forall u :: 0 <= u < |st.threads| && u != t ==> st'.threads[u] == st.threads[u])
    && st'.threads[t].list == st.threads[t].list && st'.threads[t].hazards == st.threads[t].hazards
  }

  lemma ReleaseBase(st: State, st': State, t: Tid, d: Did)
    requires Base(st) && LifeChange(st, st', t, d, Free) && Is(st.descs, d, Live)
    requires st'.threads[t].free == st.threads[t].free
    ensures Base(st')
  {
    forall u | 0 <= u < |st'.threads| ensures ThreadOK(st', u) {
      assert ThreadOK(st, u);
      forall o | o in st'.threads[u].hazards ensures OffsetHeld(st'.descs, o) {
        var e :| 0 <= e < |st.descs| && Holds(st.descs[e]) && st.descs[e].offset == o;
        assert Holds(st'.descs[e]);
      }
    }
    forall e | 0 <= e < |st'.descs| ensures DescOK(st', e) {
      assert DescOK(st, e);
    }
    forall x: nat | Covered(st.descs, x) ensures Covered(st'.descs, x) {
      var e :| 0 <= e < |st.descs| && Holds(st.descs[e]) && Contains(st.descs[e], x);
      assert Holds(st'.descs[e]) && Contains(st'.descs[e], x);
    }
  }

  lemma ReleaseOthers(st: State, st': State, t: Tid, d: Did)
    requires Inv(st) && LifeChange(st, st', t, d, Free) && st.threads[t].pc == Releasing(d)
    ensures OthersKeep(st, st', t)
  {
    assert PcOK(st, t, st.threads[t].pc);
    forall u | 0 <= u < |st.threads| && u != t ensures PcOK(st', u, st'.threads[u].pc) {
      var pc := st.threads[u].pc;
      assert PcOK(st, u, pc);
      assert Handling(pc) != Some(d);
    }
  }

  /** Giving a range back: nobody's hazard array has its offset. */
  ghost predicate Uncovers(st: State, st': State, t: Tid, d: Did) {
    && LifeChange(st, st', t, d, Safe) && Clear(st, d, |st.threads|) && st.descs[d].owner == t
    && st'.threads[t].free == st.threads[t].free + Range(st.descs[d].offset, st.descs[d].size)
  }

  lemma UncoverThread(st: State, st': State, t: Tid, d: Did, u: Tid)
    requires Base(st) && Uncovers(st, st', t, d) && u < |st.threads|
    ensures ThreadOK(st', u)
  {
    assert ThreadOK(st, u);
    assert DescOK(st, d);
    forall o | o in st'.threads[u].hazards ensures OffsetHeld(st'.descs, o) {
      var e :| 0 <= e < |st.descs| && Holds(st.descs[e]) && st.descs[e].offset == o;
      assert e != d && Holds(st'.descs[e]);
    }
    forall x | x in st'.threads[u].free ensures OwnerOf(st.claims, x) == Some(u) {
      if u == t && x !in st.threads[t].free {
        assert Contains(st.descs[d], x);
      }
    }
  }

  lemma UncoverBase(st: State, st': State, t: Tid, d: Did)
    requires Base(st) && Uncovers(st, st', t, d)
    ensures Base(st')
  {
    forall u | 0 <= u < |st'.threads| ensures ThreadOK(st', u) {
      UncoverThread(st, st', t, d, u);
    }
    forall e | 0 <= e < |st'.descs| ensures DescOK(st', e) {
      assert DescOK(st, e);
      forall x: nat | Holds(st'.descs[e]) && Contains(st.descs[e], x)
        ensures x !in st'.threads[st.descs[e].owner].free
      {
        assert !Overlap(st.descs[d], st.descs[e]);
      }
    }
    UncoverConserves(st, st', t, d);
  }

  lemma UncoverConserves(st: State, st': State, t: Tid, d: Did)
    requires Base(st) && Uncovers(st, st', t, d)
    ensures Conserved(st')
  {
    assert DescOK(st, d);
    forall x: nat | OwnerOf(st'.claims, x).Some?
      ensures OwnerOf(st'.claims, x).value < |st'.threads|
      ensures x in st'.threads[OwnerOf(st'.claims, x).value].free || Covered(st'.descs, x)
    {
      if x !in st.threads[OwnerOf(st.claims, x).value].free {
        var e :| 0 <= e < |st.descs| && Holds(st.descs[e]) && Contains(st.descs[e], x);
        if e != d {
          assert Holds(st'.descs[e]) && Contains(st'.descs[e], x);
        }
      }
    }
  }

  lemma UncoverOthers(st: State, st': State, t: Tid, d: Did)
    requires Inv(st) && Uncovers(st, st', t, d)
    ensures OthersKeep(st, st', t)
  {
    assert DescOK(st, d);
    forall u | 0 <= u < |st.threads| && u != t ensures PcOK(st', u, st'.threads[u].pc) {
      var pc := st.threads[u].pc;
      assert PcOK(st, u, pc);
      assert ThreadOK(st, u);
      assert d !in st.threads[u].list;
    }
  }

  /** A new claim gives its thread exactly the offsets behind the claims before. */
  lemma OwnerGrows(claims: seq<Claim>, c: Claim, x: nat)
    ensures OwnerOf(claims + [c], x) ==
            if x in Range(Total(claims) * SLOT_SIZE, c.count * SLOT_SIZE) then Some(c.id) else OwnerOf(claims, x)
    ensures x in Range(Total(claims) * SLOT_SIZE, c.count * SLOT_SIZE) ==> OwnerOf(claims, x).None?
  {
    assert Front(claims + [c]) == claims;
  }

  ghost predicate ClaimsMore(st: State, st': State, t: Tid, c: Claim) {
    && t < |st.threads| == |st'.threads| && c.id == t && c.count > 0 && Total(st.claims) + c.count <= SLOTS
    && st'.claims == st.claims + [c] && st'.descs == st.descs
    && (forall u :: 0 <= u < |st.threads| && u != t ==> st'.threads[u] == st.threads[u])
    && st'.threads[t] == st.threads[t].(
         free := st.threads[t].free + Range(Total(st.claims) * SLOT_SIZE, c.count * SLOT_SIZE))
  }

  lemma ClaimBase(st: State, st': State, t: Tid, c: Claim)
    requires Base(st) && ClaimsMore(st, st', t, c)
    ensures Base(st')
  {
    assert Front(st'.claims) == st.claims;
    forall u | 0 <= u < |st'.threads| ensures ThreadOK(st', u) {
      assert ThreadOK(st, u);
      forall x | x in st'.threads[u].free ensures OwnerOf(st'.claims, x) == Some(u) {
        OwnerGrows(st.claims, c, x);
      }
    }
    forall d | 0 <= d < |st'.descs| ensures DescOK(st', d) {
      assert DescOK(st, d);
      forall x: nat | Holds(st.descs[d]) && Contains(st.descs[d], x)
        ensures OwnerOf(st'.claims, x) == Some(st.descs[d].owner) && x !in st'.threads[st.descs[d].owner].free
      {
        OwnerGrows(st.claims, c, x);
      }
    }
    forall x: nat | OwnerOf(st'.claims, x).Some?
      ensures OwnerOf(st'.claims, x).value < |st'.threads|
      ensures x in st'.threads[OwnerOf(st'.claims, x).value].free || Covered(st'.descs, x)
    {
      OwnerGrows(st.claims, c, x);
    }
  }

  lemma ClaimOthers(st: State, st': State, t: Tid, c: Claim)
    requires Inv(st) && ClaimsMore(st, st', t, c)
    ensures OthersKeep(st, st', t) && PcOK(st', t, st'.threads[t].pc)
  {
    forall u | 0 <= u < |st.threads| ensures PcOK(st', u, st'.threads[u].pc) {
      assert PcOK(st, u, st.threads[u].pc);
    }
  }

  /** A range of `t`'s free set gets a descriptor, new in front of the list or over an outdated one. */
  ghost predicate Writes(st: State, st': State, t: Tid, d: Did, it: Desc) {
    && t < |st.threads| == |st'.threads| && st'.claims == st.claims
    && it.owner == t && it.size > 0 && it.life == Live && Range(it.offset, it.size) <= st.threads[t].free
    && (forall u :: 0 <= u < |st.threads| && u != t ==> st'.threads[u] == st.threads[u])
    && st'.threads[t].free == st.threads[t].free - Range(it.offset, it.size)
    && st'.threads[t].hazards == st.threads[t].hazards
    && d < |st'.descs| && |st.descs| <= |st'.descs| && (d < |st.descs| ==> st.descs[d].life == Safe)
    && (forall e :: 0 <= e < |st'.descs| && e != d ==> e < |st.descs| && st'.descs[e] == st.descs[e])
    && st'.descs[d] == it
    && d in st'.threads[t].list && (forall e :: e in st.threads[t].list ==> e in st'.threads[t].list)
    && (d < |st.descs| ==> st.descs[d].owner == t)
  }

  lemma WriteHolds(st: State, st': State, t: Tid, d: Did, it: Desc, e: Did)
    requires Base(st) && Writes(st, st', t, d, it) && e < |st.descs| && Holds(st.descs[e])
    ensures e != d && e < |st'.descs| && st'.descs[e] == st.descs[e] && !Overlap(it, st.descs[e])
  {
    assert DescOK(st, e);
    assert ThreadOK(st, t);
    assert st'.descs[e] == st.descs[e];
    if Overlap(it, st.descs[e]) {
      var x := if it.offset < st.descs[e].offset then st.descs[e].offset else it.offset;
      assert Contains(st.descs[e], x) && x in Range(it.offset, it.size);
    }
  }

  lemma WriteDescs(st: State, st': State, t: Tid, d: Did, it: Desc)
    requires Base(st) && Writes(st, st', t, d, it)
    ensures Apart(st'.descs)
    ensures forall e {:trigger DescOK(st', e)} :: 0 <= e < |st'.descs| ==> DescOK(st', e)
  {
    assert ThreadOK(st, t);
    forall e | 0 <= e < |st'.descs| && e != d && Holds(st'.descs[e]) ensures !Overlap(it, st'.descs[e]) {
      WriteHolds(st, st', t, d, it, e);
    }
    forall e | 0 <= e < |st'.descs| ensures DescOK(st', e) {
      if e == d {
        forall x: nat | Contains(it, x) ensures OwnerOf(st.claims, x) == Some(t) {
          assert x in Range(it.offset, it.size);
        }
      } else {
        assert DescOK(st, e);
      }
    }
  }

  lemma WriteConserves(st: State, st': State, t: Tid, d: Did, it: Desc)
    requires Base(st) && Writes(st, st', t, d, it)
    ensures Conserved(st')
    ensures forall o :: OffsetHeld(st.descs, o) ==> OffsetHeld(st'.descs, o)
  {
    forall x: nat | OwnerOf(st'.claims, x).Some?
      ensures OwnerOf(st'.claims, x).value < |st'.threads|
      ensures x in st'.threads[OwnerOf(st'.claims, x).value].free || Covered(st'.descs, x)
    {
      if Covered(st.descs, x) {
        var e :| 0 <= e < |st.descs| && Holds(st.descs[e]) && Contains(st.descs[e], x);
        WriteHolds(st, st', t, d, it, e);
      } else if x in Range(it.offset, it.size) {
        assert Holds(st'.descs[d]) && Contains(st'.descs[d], x);
      }
    }
    forall o | OffsetHeld(st.descs, o) ensures OffsetHeld(st'.descs, o) {
      var e :| 0 <= e < |st.descs| && Holds(st.descs[e]) && st.descs[e].offset == o;
      WriteHolds(st, st', t, d, it, e);
    }
  }

  lemma WriteOthers(st: State, st': State, t: Tid, d: Did, it: Desc)
    requires Inv(st) && Writes(st, st', t, d, it)
    ensures OthersKeep(st, st', t)
    ensures forall j :: 0 <= j < |st'.threads| ==> it.offset !in st'.threads[j].hazards
  {
    forall e | 0 <= e < |st.descs| && Holds(st.descs[e]) ensures st.descs[e].offset != it.offset {
      WriteHolds(st, st', t, d, it, e);
      assert DescOK(st, e);
    }
    forall j | 0 <= j < |st.threads| ensures it.offset !in st.threads[j].hazards {
      assert ThreadOK(st, j);
    }
    forall u | 0 <= u < |st.threads| && u != t ensures PcOK(st', u, st'.threads[u].pc) {
      assert PcOK(st, u, st.threads[u].pc);
      assert ThreadOK(st, u);
      assert d !in st.threads[u].list;
    }
  }

  lemma WriteThread(st: State, st': State, t: Tid, d: Did, it: Desc, u: Tid)
    requires Base(st) && Writes(st, st', t, d, it) && u < |st.threads| && u != t
    ensures ThreadOK(st', u)
  {
    assert ThreadOK(st, u);
    assert d !in st.threads[u].list;
    assert forall i :: 0 <= i < |st.threads[u].list| ==>
        st'.descs[st.threads[u].list[i]] == st.descs[st.threads[u].list[i]];
    WriteConserves(st, st', t, d, it);
  }

  /** In front of the list when no descriptor of it is outdated. */
  lemma WriteNew(st: State, st': State, t: Tid, it: Desc)
    requires Base(st) && Writes(st, st', t, |st.descs|, it) && st'.threads[t].list == [|st.descs|] + st.threads[t].list
    ensures Base(st')
  {
    var d := |st.descs|;
    var list, list' := st.threads[t].list, st'.threads[t].list;
    assert ThreadOK(st, t);
    forall u | 0 <= u < |st'.threads| ensures ThreadOK(st', u) {
      if u == t {
        assert forall i :: 0 < i < |list'| ==> list'[i] == list[i - 1] && list'[i] != d;
        assert Ordered(st'.descs, list') by {
          forall i, j | 0 <= i < |list'| && 0 <= j < |list'| && st'.descs[list'[i]].life == Safe
                        && Holds(st'.descs[list'[j]]) && Overlap(st'.descs[list'[i]], st'.descs[list'[j]])
            ensures j < i
          {
            assert list'[i] == list[i - 1];
            if j > 0 {
              assert list'[j] == list[j - 1];
            }
          }
        }
        WriteConserves(st, st', t, d, it);
      } else {
        WriteThread(st, st', t, d, it, u);
      }
    }
    WriteDescs(st, st', t, d, it);
    WriteConserves(st, st', t, d, it);
  }

  /** Over the first outdated one. */
  lemma WriteOver(st: State, st': State, t: Tid, p: nat, it: Desc)
    requires Base(st) && t < |st.threads| && p < |st.threads[t].list| && Writes(st, st', t, st.threads[t].list[p], it)
    requires st'.threads[t].list == st.threads[t].list && |st'.descs| == |st.descs|
    requires FirstSafe(st.descs, st.threads[t].list, |st.threads[t].list|, Some(p))
    ensures Base(st')
  {
    var list := st.threads[t].list;
    var d := list[p];
    assert ThreadOK(st, t);
    forall u | 0 <= u < |st'.threads| ensures ThreadOK(st', u) {
      if u == t {
        assert forall i :: 0 <= i < |list| && i != p ==> list[i] != d && st'.descs[list[i]] == st.descs[list[i]];
        assert Ordered(st'.descs, list);
        WriteConserves(st, st', t, d, it);
      } else {
        WriteThread(st, st', t, d, it, u);
      }
    }
    WriteDescs(st, st', t, d, it);
    WriteConserves(st, st', t, d, it);
  }

  // Finding

  /** The first descriptor containing a held offset is the one that holds it, never an outdated one. */
  lemma {:induction false} FindInHolds(descs: seq<Desc>, list: seq<Did>, d: Did, x: nat)
    requires (forall i :: 0 <= i < |list| ==> list[i] < |descs|) && Ordered(descs, list) && Apart(descs)
    requires d in list && Holds(descs[d]) && Contains(descs[d], x)
    ensures FindIn(descs, list, x) == Some(d)
    decreases |list|
  {
    var j :| 0 <= j < |list| && list[j] == d;
    if list[0] != d {
      var e := descs[list[0]];
      if Contains(e, x) {
        assert Overlap(e, descs[d]);
        assert false;
      }
      var rest := list[1..];
      assert rest[j - 1] == d;
      assert Ordered(descs, rest) by {
        assert forall i :: 0 <= i < |rest| ==> rest[i] == list[i + 1];
      }
      FindInHolds(descs, rest, d, x);
    }
  }

  lemma LookupOwner(claims: seq<Claim>, x: nat)
    requires OwnerOf(claims, x).Some? && Total(claims) <= SLOTS
    ensures Lookup(claims, x) == OwnerOf(claims, x)
  {
    BelowCovers(claims, x / SLOT_SIZE);
  }

  /** `find` answers with the descriptor whose range holds the offset. */
  lemma FindHolds(st: State, d: Did, x: nat)
    requires Base(st) && d < |st.descs| && Holds(st.descs[d]) && Contains(st.descs[d], x)
    ensures Find(st, x) == Some(d)
  {
    assert DescOK(st, d);
    var t := st.descs[d].owner;
    assert ThreadOK(st, t);
    LookupOwner(st.claims, x);
    FindInHolds(st.descs, st.threads[t].list, d, x);
  }
}
