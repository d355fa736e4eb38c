/**
The huge allocator with its stores and loads does what `Huge` does: every step that does not take the wrong
descriptor for the holder is a step of `Huge` on the abstract state, or none.
*/
module HugeRefines {
  import opened Options
  import opened Claims
  import opened Huge
  import opened HugeInvariant
  import opened HugeStores
  import HugeRuns

  predicate Suffix(rest: seq<Did>, list: seq<Did>) {
    |rest| <= |list| && rest == list[|list| - |rest|..]
  }

  /** In the list of `t`, what overlaps the old range of descriptor `d` comes before `d`. */
  ghost predicate OldBehind(st: Machine, t: Tid, d: Did)
    requires t < |st.mem.threads| && d < |st.mem.descs|
  {
    var list := st.mem.threads[t].list;
    forall i, j :: 0 <= i < |list| && 0 <= j < |list| && i != j && list[i] == d && list[j] < |st.mem.descs|
                   && Holds(ViewOf(st, list[j])) && Overlap(st.mem.descs[d], ViewOf(st, list[j]))
                   ==> j < i
  }

  ghost predicate StoreOK(st: Machine, t: Tid, d: Did, target: Desc, stage: Stage)
    requires t < |st.mem.threads|
  {
    && d < |st.mem.descs| && d in st.mem.threads[t].list && st.mem.descs[d].owner == t
    && target.owner == t && target.life == Live && st.mem.threads[t].pc == Inserting(d)
    && st.mem.descs[d].life == (if stage.ToLive? then Safe else Live)
    && (if stage.ToSize? then st.mem.descs[d].offset == target.offset else OldBehind(st, t, d))
  }

  ghost predicate Unhandled(st: Machine, d: Did) {
    forall u :: 0 <= u < |st.mem.threads| ==> Handling(st.mem.threads[u].pc) != Some(d)
  }

  /** What thread `t` is looking for is there, and nobody else is freeing it. */
  ghost predicate LookOK(st: Machine, t: Tid, look: Look)
    requires t < |st.mem.threads|
  {
    && look.holder < |st.mem.descs|
    && var it := ViewOf(st, look.holder);
       && it.life == Live && Contains(it, look.x)
       && if look.free then st.mem.threads[t].pc == Freeing(look.holder)
          else st.mem.threads[t].pc == Resting && Unhandled(st, look.holder) && it.offset !in st.mem.threads[t].hazards
  }

  /** The holder is still ahead. */
  ghost predicate Ahead(st: Machine, look: Look, rest: seq<Did>)
    requires look.holder < |st.mem.descs|
  {
    && look.holder in rest && ViewOf(st, look.holder).owner < |st.mem.threads|
    && Suffix(rest, st.mem.threads[ViewOf(st, look.holder).owner].list)
  }

  ghost predicate WorkOK(st: Machine, t: Tid)
    requires t < |st.mem.threads| && t < |st.work|
  {
    match st.work[t]
    case Idle => true
    case Storing(d, target, stage) => StoreOK(st, t, d, target, stage)
    case Walking(look, rest) => LookOK(st, t, look) && Ahead(st, look, rest)
    case Comparing(look, rest, o, was, whole) =>
      && LookOK(st, t, look) && Ahead(st, look, rest) && o <= look.x
      && (if rest[0] == look.holder then o == ViewOf(st, look.holder).offset else whole ==> o + was <= look.x)
    case Mapping(look, d) => !look.free && d == look.holder && LookOK(st, t, look)
  }

  /** What `refresh` will remove from its hazards is not a live range. */
  ghost predicate RefreshOK(st: Machine, t: Tid)
    requires t < |st.mem.threads|
  {
    var me := st.mem.threads[t];
    me.pc.Refreshing? ==>
      && me.pc.d < |st.mem.descs|
      && (st.mem.descs[me.pc.d].offset in me.hazards ==> st.mem.descs[me.pc.d].life == Free)
  }

  ghost predicate Sound(st: Machine) {
    && |st.work| == |st.mem.threads|
    && Inv(Abs(st))
    && (forall t {:trigger WorkOK(st, t)} :: 0 <= t < |st.work| ==> WorkOK(st, t))
    && (forall t {:trigger RefreshOK(st, t)} :: 0 <= t < |st.work| ==> RefreshOK(st, t))
  }

  lemma IsAbs(st: Machine, a: Huge.State)
    requires a.claims == st.mem.claims && a.threads == st.mem.threads && |a.descs| == |st.mem.descs|
    requires forall d :: 0 <= d < |a.descs| ==> a.descs[d] == ViewOf(st, d)
    ensures Abs(st) == a
  {
    assert Abs(st).descs == a.descs;
  }

  // Where memory and the abstract state agree

  lemma RewriterInserts(st: Machine, d: Did)
    requires Sound(st) && Rewriting(st, d)
    ensures st.mem.threads[st.mem.descs[d].owner].pc == Inserting(d)
    ensures st.work[st.mem.descs[d].owner].target.life == Live
    ensures ViewOf(st, d).owner == st.mem.descs[d].owner
  {
    assert WorkOK(st, st.mem.descs[d].owner);
  }

  lemma OwnerSame(st: Machine, d: Did)
    requires Sound(st) && d < |st.mem.descs|
    ensures ViewOf(st, d).owner == st.mem.descs[d].owner
  {
    if Rewriting(st, d) {
      RewriterInserts(st, d);
    }
  }

  lemma HandledSettled(st: Machine, t: Tid, d: Did)
    requires Sound(st) && t < |st.work| && Handling(st.mem.threads[t].pc) == Some(d) && !st.work[t].Storing?
    ensures !Rewriting(st, d)
  {
    if Rewriting(st, d) {
      RewriterInserts(st, d);
    }
  }

  lemma OwnSettled(st: Machine, t: Tid)
    requires Sound(st) && t < |st.work| && !st.work[t].Storing?
    ensures forall d :: 0 <= d < |st.mem.descs| && ViewOf(st, d).owner == t ==> !Rewriting(st, d)
    ensures forall i :: 0 <= i < |st.mem.threads[t].list| ==>
              st.mem.threads[t].list[i] < |st.mem.descs| && !Rewriting(st, st.mem.threads[t].list[i])
  {
    assert ThreadOK(Abs(st), t);
    forall d | 0 <= d < |st.mem.descs| && ViewOf(st, d).owner == t ensures !Rewriting(st, d) {
      OwnerSame(st, d);
    }
  }

  lemma HolderSettled(st: Machine, t: Tid, look: Look)
    requires Sound(st) && t < |st.work| && LookOf(st.work[t]) == Some(look)
    ensures LookOK(st, t, look) && !Rewriting(st, look.holder)
  {
    assert WorkOK(st, t);
    if look.free {
      HandledSettled(st, t, look.holder);
    } else if Rewriting(st, look.holder) {
      RewriterInserts(st, look.holder);
    }
  }

  // What a step of thread `t` leaves to the others

  /** Descriptor `d` of another thread changes at most from live to free, when `t` frees it. */
  ghost predicate Leaves(st: Machine, st': Machine, t: Tid, d: Did)
    requires t < |st.mem.threads| && d < |st.mem.descs|
  {
    && d < |st'.mem.descs| && st'.mem.descs[d].owner == st.mem.descs[d].owner
    && (st.mem.descs[d].owner != t ==>
          || st'.mem.descs[d] == st.mem.descs[d]
          || (st.mem.threads[t].pc == Releasing(d) && st'.mem.descs[d] == st.mem.descs[d].(life := Free)))
    && (ViewOf(st, d).life == Live && st.mem.threads[t].pc != Releasing(d) ==> ViewOf(st', d) == ViewOf(st, d))
  }

  ghost predicate Takes(st: Machine, st': Machine, t: Tid, d: Did)
    requires t < |st.mem.threads| && t < |st'.mem.threads| && d < |st.mem.descs|
  {
    Handling(st'.mem.threads[t].pc) == Some(d) && Handling(st.mem.threads[t].pc) != Some(d)
  }

  /** `refresh` of another thread is not misled. */
  ghost predicate Spares(st: Machine, st': Machine, t: Tid, d: Did)
    requires d < |st.mem.descs|
  {
    && d < |st'.mem.descs|
    && (|| (&& st'.mem.descs[d].offset == st.mem.descs[d].offset
            && (Is(st.mem.descs, d, Free) ==> Is(st'.mem.descs, d, Free)))
        || forall u :: 0 <= u < |st.mem.threads| && u != t ==> st'.mem.descs[d].offset !in st.mem.threads[u].hazards)
  }

  ghost predicate Gentle(st: Machine, st': Machine, t: Tid) {
    && |st'.work| == |st'.mem.threads| == |st.work| == |st.mem.threads| && t < |st.work|
    && (forall u :: 0 <= u < |st.work| && u != t ==>
          st'.work[u] == st.work[u] && st'.mem.threads[u] == st.mem.threads[u])
    && Suffix(st.mem.threads[t].list, st'.mem.threads[t].list)
    && (forall d {:trigger Leaves(st, st', t, d)} :: 0 <= d < |st.mem.descs| ==> Leaves(st, st', t, d))
    && (forall d {:trigger Takes(st, st', t, d)} :: 0 <= d < |st.mem.descs| ==>
          Takes(st, st', t, d) && ViewOf(st, d).life == Live ==> Unmapping(st, d))
    && (forall d {:trigger Spares(st, st', t, d)} :: 0 <= d < |st.mem.descs| ==> Spares(st, st', t, d))
  }

  lemma OthersStore(st: Machine, st': Machine, t: Tid, u: Tid)
    requires Sound(st) && Gentle(st, st', t) && u < |st.work| && u != t && st.work[u].Storing?
    ensures WorkOK(st', u)
  {
    assert WorkOK(st, u);
    var w := st.work[u];
    assert Handling(st.mem.threads[u].pc) == Some(w.d);
    assert Leaves(st, st', t, w.d);
    if !w.stage.ToSize? {
      var list := st.mem.threads[u].list;
      assert ThreadOK(Abs(st), u);
      forall i, j | 0 <= i < |list| && 0 <= j < |list| && i != j && list[i] == w.d && list[j] < |st'.mem.descs|
                    && Holds(ViewOf(st', list[j])) && Overlap(st'.mem.descs[w.d], ViewOf(st', list[j]))
        ensures j < i
      {
        OwnerSame(st, list[j]);
        assert Leaves(st, st', t, list[j]);
        if st.mem.threads[t].pc == Releasing(list[j]) {
          assert PcOK(Abs(st), t, st.mem.threads[t].pc);
        }
      }
    }
  }

  lemma OthersLook(st: Machine, st': Machine, t: Tid, u: Tid, look: Look)
    requires Sound(st) && Gentle(st, st', t) && u < |st.work| && u != t && LookOf(st.work[u]) == Some(look)
    ensures look.holder < |st.mem.descs| && LookOK(st', u, look) && ViewOf(st', look.holder) == ViewOf(st, look.holder)
  {
    assert WorkOK(st, u);
    assert Leaves(st, st', t, look.holder);
    assert Takes(st, st', t, look.holder) ==> Unmapping(st, look.holder);
    assert Handling(st.mem.threads[t].pc) != Some(look.holder);
  }

  lemma SuffixGrows(rest: seq<Did>, list: seq<Did>, list': seq<Did>)
    requires Suffix(rest, list) && Suffix(list, list')
    ensures Suffix(rest, list')
  {
  }

  lemma OthersWork(st: Machine, st': Machine, t: Tid, u: Tid)
    requires Sound(st) && Gentle(st, st', t) && u < |st.work| && u != t
    ensures WorkOK(st', u)
  {
    assert WorkOK(st, u);
    var w := st.work[u];
    if w.Storing? {
      OthersStore(st, st', t, u);
    } else if LookOf(w).Some? {
      OthersLook(st, st', t, u, w.look);
      if !w.Mapping? {
        var o := ViewOf(st, w.look.holder).owner;
        SuffixGrows(w.rest, st.mem.threads[o].list, st'.mem.threads[o].list);
      }
    }
  }

  lemma OthersRefresh(st: Machine, st': Machine, t: Tid, u: Tid)
    requires Sound(st) && Gentle(st, st', t) && u < |st.work| && u != t
    ensures RefreshOK(st', u)
  {
    assert RefreshOK(st, u);
    if st.mem.threads[u].pc.Refreshing? {
      assert Spares(st, st', t, st.mem.threads[u].pc.d);
    }
  }

  lemma Concludes(st: Machine, st': Machine, t: Tid)
    requires Sound(st) && Gentle(st, st', t) && Inv(Abs(st')) && WorkOK(st', t) && RefreshOK(st', t)
    ensures Sound(st')
  {
    forall u | 0 <= u < |st'.work| ensures WorkOK(st', u) {
      if u != t {
        OthersWork(st, st', t, u);
      }
    }
    forall u | 0 <= u < |st'.work| ensures RefreshOK(st', u) {
      if u != t {
        OthersRefresh(st, st', t, u);
      }
    }
  }

  // Lookups

  lemma QuietGentle(st: Machine, st': Machine, t: Tid)
    requires Sound(st) && |st'.work| == |st'.mem.threads| == |st.work| && t < |st.work| && st'.mem.descs == st.mem.descs
    requires forall u :: 0 <= u < |st.work| && u != t ==>
               st'.work[u] == st.work[u] && st'.mem.threads[u] == st.mem.threads[u]
    requires st'.mem.threads[t].list == st.mem.threads[t].list && !st.work[t].Storing? && !st'.work[t].Storing?
    requires forall d {:trigger Takes(st, st', t, d)} :: 0 <= d < |st.mem.descs| ==>
               Takes(st, st', t, d) && ViewOf(st, d).life == Live ==> Unmapping(st, d)
    ensures Gentle(st, st', t)
    ensures forall d :: 0 <= d < |st.mem.descs| ==> ViewOf(st', d) == ViewOf(st, d)
  {
    forall d | 0 <= d < |st.mem.descs| ensures Leaves(st, st', t, d) && ViewOf(st', d) == ViewOf(st, d) {
    }
    forall d | 0 <= d < |st.mem.descs| ensures Spares(st, st', t, d) {
    }
  }

  /**
  A descriptor that comes before the holder of `x` does not contain `x` in memory, unless its new offset has a larger
  old size beside it.
  */
  lemma NoFalseHit(st: Machine, t: Tid, i: nat, j: nat, x: nat)
    requires Sound(st) && t < |st.work| && i < j < |st.mem.threads[t].list|
    requires st.mem.threads[t].list[i] < |st.mem.descs| && st.mem.threads[t].list[j] < |st.mem.descs|
    requires var it := ViewOf(st, st.mem.threads[t].list[j]); Holds(it) && Contains(it, x)
    requires !Mixed(st, st.mem.threads[t].list[i])
    ensures !Contains(st.mem.descs[st.mem.threads[t].list[i]], x)
  {
    var a, list := Abs(st), st.mem.threads[t].list;
    var e, d := list[i], list[j];
    assert ThreadOK(a, t);
    assert e != d && a.descs[e].owner == t;
    OwnerSame(st, e);
    assert WorkOK(st, t);
    assert Contains(st.mem.descs[e], x) ==> Overlap(st.mem.descs[e], a.descs[d]);
  }

  lemma SuffixNext(rest: seq<Did>, list: seq<Did>, d: Did) returns (i: nat, j: nat)
    requires Suffix(rest, list) && d in rest
    ensures i <= j < |list| && rest != [] && list[i] == rest[0] && list[j] == d && Suffix(rest[1..], list)
    ensures rest[0] != d ==> i < j && d in rest[1..]
  {
    i := |list| - |rest|;
    var n :| 0 <= n < |rest| && rest[n] == d;
    j := i + n;
    assert list[j] == rest[n] && list[i] == rest[0];
    if rest[0] != d {
      assert rest[1..][n - 1] == d;
    }
  }

  /** The next descriptor of a walk is one of the owner's list, before the holder or the holder itself. */
  lemma NextIs(st: Machine, look: Look, rest: seq<Did>)
    requires Sound(st) && look.holder < |st.mem.descs| && Ahead(st, look, rest)
    ensures rest != [] && rest[0] < |st.mem.descs|
    ensures rest[0] != look.holder ==> Ahead(st, look, rest[1..])
  {
    var t := ViewOf(st, look.holder).owner;
    assert ThreadOK(Abs(st), t);
    var i, j := SuffixNext(rest, st.mem.threads[t].list, look.holder);
  }

  lemma NextMisses(st: Machine, look: Look, rest: seq<Did>)
    requires Sound(st) && look.holder < |st.mem.descs| && Ahead(st, look, rest)
    requires var it := ViewOf(st, look.holder); Holds(it) && Contains(it, look.x)
    ensures rest != [] && rest[0] < |st.mem.descs|
    ensures rest[0] != look.holder && !Mixed(st, rest[0]) ==> !Contains(st.mem.descs[rest[0]], look.x)
  {
    NextIs(st, look, rest);
    if rest[0] != look.holder && !Mixed(st, rest[0]) {
      var t := ViewOf(st, look.holder).owner;
      var i, j := SuffixNext(rest, st.mem.threads[t].list, look.holder);
      NoFalseHit(st, t, i, j, look.x);
    }
  }

  /** Only the work of thread `t` changes. */
  lemma QuietSound(st: Machine, t: Tid, w: Work)
    requires Sound(st) && t < |st.work| && !st.work[t].Storing? && !w.Storing?
    requires WorkOK(st.(work := st.work[t := w]), t)
    ensures var st' := st.(work := st.work[t := w]); Sound(st') && Abs(st') == Abs(st)
  {
    var st' := st.(work := st.work[t := w]);
    QuietGentle(st, st', t);
    IsAbs(st', Abs(st));
    assert RefreshOK(st, t);
    Concludes(st, st', t);
  }

  /** The lookup of thread `t` keeps what it is looking for when only its work changes. */
  lemma LookStays(st: Machine, t: Tid, look: Look, rest: seq<Did>, w: Work)
    requires Sound(st) && t < |st.work| && !st.work[t].Storing? && !w.Storing? && LookOK(st, t, look)
    ensures var st' := st.(work := st.work[t := w]);
            && LookOK(st', t, look) && ViewOf(st', look.holder) == ViewOf(st, look.holder)
            && (Ahead(st, look, rest) ==> Ahead(st', look, rest))
  {
  }

  lemma WalkSound(st: Machine, t: Tid)
    requires Sound(st) && t < |st.work| && st.work[t].Walking?
    ensures WalkStep(st, t).Some?
    ensures var st' := WalkStep(st, t).value; Sound(st') && Abs(st') == Abs(st)
  {
    var w := st.work[t];
    assert WorkOK(st, t);
    HolderSettled(st, t, w.look);
    NextIs(st, w.look, w.rest);
    NextMisses(st, w.look, w.rest);
    var w' := WalkStep(st, t).value.work[t];
    LookStays(st, t, w.look, w'.rest, w');
    QuietSound(st, t, w');
  }

  /** The size read is the holder's, or too small. */
  lemma HitsHolder(st: Machine, t: Tid)
    requires Sound(st) && t < |st.work| && st.work[t].Comparing?
    ensures st.work[t].rest != [] && st.work[t].rest[0] < |st.mem.descs|
    ensures st.work[t].rest[0] == st.work[t].look.holder ==> Hits(st, t)
    ensures st.work[t].rest[0] != st.work[t].look.holder ==> (Hits(st, t) <==> Torn(st, t))
  {
    var w := st.work[t];
    assert WorkOK(st, t);
    HolderSettled(st, t, w.look);
    NextIs(st, w.look, w.rest);
  }

  lemma CompareSound(st: Machine, t: Tid)
    requires Sound(st) && t < |st.work| && st.work[t].Comparing? && !Torn(st, t)
    ensures CompareStep(st, t).Some?
    ensures var st' := CompareStep(st, t).value; Sound(st') && Abs(st') == Abs(st)
  {
    var w := st.work[t];
    assert WorkOK(st, t);
    HitsHolder(st, t);
    NextIs(st, w.look, w.rest);
    var st' := CompareStep(st, t).value;
    LookStays(st, t, w.look, w.rest[1..], st'.work[t]);
    QuietSound(st, t, st'.work[t]);
    assert st'.mem.threads == st.mem.threads;
  }

  // Stores

  lemma StoreViews(st: Machine, t: Tid)
    requires Sound(st) && t < |st.work| && st.work[t].Storing?
    ensures StoreStep(st, t).Some? && Abs(StoreStep(st, t).value) == Abs(st)
  {
    assert WorkOK(st, t);
    IsAbs(StoreStep(st, t).value, Abs(st));
  }

  lemma StoreGentle(st: Machine, t: Tid)
    requires Sound(st) && t < |st.work| && st.work[t].Storing?
    ensures StoreStep(st, t).Some? && Gentle(st, StoreStep(st, t).value, t)
  {
    assert WorkOK(st, t);
    assert PcOK(Abs(st), t, st.mem.threads[t].pc);
    StoreViews(st, t);
    var st' := StoreStep(st, t).value;
    forall d | 0 <= d < |st.mem.descs| ensures Leaves(st, st', t, d) {
      assert Abs(st').descs[d] == Abs(st).descs[d];
    }
    forall d | 0 <= d < |st.mem.descs| ensures Spares(st, st', t, d) {
    }
  }

  lemma StoreSound(st: Machine, t: Tid)
    requires Sound(st) && t < |st.work| && st.work[t].Storing?
    ensures StoreStep(st, t).Some?
    ensures var st' := StoreStep(st, t).value; Sound(st') && Abs(st') == Abs(st)
  {
    assert WorkOK(st, t);
    StoreViews(st, t);
    StoreGentle(st, t);
    var st' := StoreStep(st, t).value;
    assert forall d :: 0 <= d < |st.mem.descs| ==> Abs(st').descs[d] == Abs(st).descs[d];
    Concludes(st, st', t);
  }

  // Starting and ending a lookup

  lemma TargetIs(st: Machine, d: Did, x: nat)
    requires Sound(st) && d < |st.mem.descs| && ViewOf(st, d).life == Live && Contains(ViewOf(st, d), x)
    ensures Find(Abs(st), x) == Some(d) && ViewOf(st, d).owner < |st.work|
    ensures Lookup(st.mem.claims, x) == Some(ViewOf(st, d).owner) && d in st.mem.threads[ViewOf(st, d).owner].list
  {
    FindHolds(Abs(st), d, x);
    assert DescOK(Abs(st), d);
    LookupOwner(st.mem.claims, x);
  }

  lemma ReleaseSound(st: Machine, t: Tid, x: nat)
    requires Sound(st) && Allowed(st, Release(t, x)) && st.work[t].Idle?
    ensures Huge.Enabled(Abs(st), Release(t, x)) && LookStep(st, t, x, true).Some?
    ensures var st' := LookStep(st, t, x, true).value; Sound(st') && Huge.Step(Abs(st), Release(t, x)) == Some(Abs(st'))
  {
    var d :| Usable(Abs(st), d, x) && Unmapping(st, d);
    TargetIs(st, d, x);
    var st' := LookStep(st, t, x, true).value;
    QuietGentle(st, st', t);
    IsAbs(st', SetPc(Abs(st), t, Freeing(d)));
    HugeRuns.StepKeeps(Abs(st), Release(t, x));
    Concludes(st, st', t);
  }

  lemma MapSound(st: Machine, t: Tid, x: nat)
    requires Sound(st) && Allowed(st, Map(t, x)) && st.work[t].Idle?
    ensures LookStep(st, t, x, false).Some?
    ensures var st' := LookStep(st, t, x, false).value; Sound(st') && Abs(st') == Abs(st)
  {
    var d: nat :| Usable(Abs(st), d, x) && Abs(st).descs[d].offset !in st.mem.threads[t].hazards;
    TargetIs(st, d, x);
    var look := Look(x, false, d);
    var st' := LookStep(st, t, x, false).value;
    assert st'.mem.threads == st.mem.threads;
    LookStays(st, t, look, st'.work[t].rest, st'.work[t]);
    QuietSound(st, t, st'.work[t]);
  }

  lemma InsertSound(st: Machine, t: Tid)
    requires Sound(st) && t < |st.work| && st.work[t].Mapping?
    ensures Huge.Enabled(Abs(st), Map(t, st.work[t].look.x))
    ensures WorkStep(st, t).None? <==> |st.mem.threads[t].hazards| >= HAZARDS
    ensures WorkStep(st, t).None? <==> Huge.Step(Abs(st), Map(t, st.work[t].look.x)).None?
    ensures WorkStep(st, t).Some? ==>
              var st' := WorkStep(st, t).value;
              Sound(st') && Huge.Step(Abs(st), Map(t, st.work[t].look.x)) == Some(Abs(st'))
  {
    var w := st.work[t];
    assert WorkOK(st, t);
    HolderSettled(st, t, w.look);
    TargetIs(st, w.d, w.look.x);
    assert Usable(Abs(st), w.d, w.look.x);
    if WorkStep(st, t).Some? {
      var st' := WorkStep(st, t).value;
      QuietGentle(st, st', t);
      IsAbs(st', InsertStep(Abs(st), t, w.d).value);
      HugeRuns.StepKeeps(Abs(st), Map(t, w.look.x));
      Concludes(st, st', t);
    }
  }

  // Taking a range over an outdated descriptor

  predicate Overwrites(st: Machine, a: Action) {
    && a.t < |st.mem.threads| && a.t < |st.work| && a.Go? && st.work[a.t].Idle?
    && Fit(st.mem, a.t).Some? && st.mem.threads[a.t].pc.safe.Some?
  }

  /** The descriptor found is outdated, one of the thread's own, and whole. */
  lemma OverIs(st: Machine, t: Tid) returns (d: Did)
    requires Sound(st) && Overwrites(st, Go(t))
    ensures var me := st.mem.threads[t];
            me.pc.safe.value < |me.list| && me.list[me.pc.safe.value] == d < |st.mem.descs|
    ensures !Rewriting(st, d) && st.mem.descs[d].owner == t && st.mem.descs[d].life == Safe
  {
    var me := st.mem.threads[t];
    assert PcOK(Abs(st), t, me.pc);
    assert ThreadOK(Abs(st), t);
    OwnSettled(st, t);
    d := me.list[me.pc.safe.value];
  }

  lemma OverAbs(st: Machine, t: Tid)
    requires Sound(st) && Overwrites(st, Go(t))
    ensures TakeStep(st, t, Fit(st.mem, t).value).Some?
    ensures Huge.Step(Abs(st), Go(t)) == Some(Abs(TakeStep(st, t, Fit(st.mem, t).value).value))
  {
    var o := Fit(st.mem, t).value;
    var d := OverIs(st, t);
    IsAbs(TakeStep(st, t, o).value, WriteStep(Abs(st), t, o).value);
  }

  lemma OverGentle(st: Machine, t: Tid)
    requires Sound(st) && Overwrites(st, Go(t))
    ensures TakeStep(st, t, Fit(st.mem, t).value).Some?
    ensures Gentle(st, TakeStep(st, t, Fit(st.mem, t).value).value, t)
  {
    var it := OverIs(st, t);
    var st' := TakeStep(st, t, Fit(st.mem, t).value).value;
    forall d | 0 <= d < |st.mem.descs| ensures Leaves(st, st', t, d) {
    }
    forall d | 0 <= d < |st.mem.descs| ensures Spares(st, st', t, d) {
    }
  }

  lemma OverWork(st: Machine, t: Tid)
    requires Sound(st) && Overwrites(st, Go(t))
    ensures TakeStep(st, t, Fit(st.mem, t).value).Some?
    ensures var st' := TakeStep(st, t, Fit(st.mem, t).value).value;
            |st'.work| == |st'.mem.threads| == |st.work| && WorkOK(st', t)
  {
    var list := st.mem.threads[t].list;
    var d := OverIs(st, t);
    assert ThreadOK(Abs(st), t);
    OwnSettled(st, t);
    var st' := TakeStep(st, t, Fit(st.mem, t).value).value;
    forall i, j | 0 <= i < |list| && 0 <= j < |list| && i != j && list[i] == d
                  && Holds(ViewOf(st', list[j])) && Overlap(st.mem.descs[d], ViewOf(st', list[j]))
      ensures j < i
    {
      assert ViewOf(st', list[j]) == Abs(st).descs[list[j]];
    }
  }

  lemma OverSound(st: Machine, t: Tid)
    requires Sound(st) && Overwrites(st, Go(t))
    ensures TakeStep(st, t, Fit(st.mem, t).value).Some? && Sound(TakeStep(st, t, Fit(st.mem, t).value).value)
  {
    OverAbs(st, t);
    OverGentle(st, t);
    OverWork(st, t);
    HugeRuns.StepKeeps(Abs(st), Go(t));
    Concludes(st, TakeStep(st, t, Fit(st.mem, t).value).value, t);
  }

  // The other steps

  /** Steps that are the same on memory and on the abstract state. */
  predicate Plain(st: Machine, a: Action) {
    && a.t < |st.mem.threads| && a.t < |st.work| && st.work[a.t].Idle? && !Overwrites(st, a)
    && (a.Go? || a.Allocate? || a.Refresh?)
  }

  lemma PlainStep(st: Machine, a: Action)
    requires Plain(st, a)
    ensures Act(st, a) == Lift(Huge.Step(st.mem, a), st.work)
  {
  }

  lemma RefreshSame(st: Machine, t: Tid)
    requires Sound(st) && t < |st.work| && st.mem.threads[t].pc.Refreshing?
    ensures var me := st.mem.threads[t];
            && me.pc.d < |st.mem.descs|
            && me.hazards - {st.mem.descs[me.pc.d].offset} == me.hazards - {ViewOf(st, me.pc.d).offset}
  {
    var me := st.mem.threads[t];
    assert RefreshOK(st, t);
    assert PcOK(Abs(st), t, me.pc);
    if Rewriting(st, me.pc.d) {
      RewriterInserts(st, me.pc.d);
      assert WorkOK(st, st.mem.descs[me.pc.d].owner);
      assert me.hazards - {st.mem.descs[me.pc.d].offset} == me.hazards == me.hazards - {ViewOf(st, me.pc.d).offset};
    }
  }

  lemma ReuseAbs(st: Machine, t: Tid)
    requires Sound(st) && t < |st.work| && st.work[t].Idle? && st.mem.threads[t].pc.Reusing?
    ensures ReuseStep(st.mem, t).Some?
    ensures ReuseStep(Abs(st), t) == Some(Abs(Machine(ReuseStep(st.mem, t).value, st.work)))
  {
    OwnSettled(st, t);
    IsAbs(Machine(ReuseStep(st.mem, t).value, st.work), ReuseStep(Abs(st), t).value);
  }

  lemma HandleAbs(st: Machine, t: Tid)
    requires Sound(st) && t < |st.work| && st.work[t].Idle? && Handling(st.mem.threads[t].pc).Some?
    ensures GoStep(st.mem, t).None? <==> GoStep(Abs(st), t).None?
    ensures GoStep(st.mem, t).Some? ==> GoStep(Abs(st), t) == Some(Abs(Machine(GoStep(st.mem, t).value, st.work)))
  {
    HandledSettled(st, t, st.mem.threads[t].pc.d);
    if GoStep(st.mem, t).Some? {
      IsAbs(Machine(GoStep(st.mem, t).value, st.work), GoStep(Abs(st), t).value);
    }
  }

  lemma TakeAbs(st: Machine, t: Tid)
    requires Sound(st) && Plain(st, Go(t)) && st.mem.threads[t].pc.Taking?
    ensures GoStep(st.mem, t).None? <==> GoStep(Abs(st), t).None?
    ensures GoStep(st.mem, t).Some? ==> GoStep(Abs(st), t) == Some(Abs(Machine(GoStep(st.mem, t).value, st.work)))
  {
    if GoStep(st.mem, t).Some? {
      IsAbs(Machine(GoStep(st.mem, t).value, st.work), GoStep(Abs(st), t).value);
    }
  }

  lemma RefreshAbs(st: Machine, t: Tid)
    requires Sound(st) && Plain(st, Go(t)) && st.mem.threads[t].pc.Refreshing?
    ensures GoStep(st.mem, t).Some? && GoStep(Abs(st), t) == Some(Abs(Machine(GoStep(st.mem, t).value, st.work)))
  {
    RefreshSame(st, t);
    IsAbs(Machine(GoStep(st.mem, t).value, st.work), GoStep(Abs(st), t).value);
  }

  lemma PlainAbs(st: Machine, a: Action)
    requires Sound(st) && Plain(st, a)
    ensures Act(st, a).None? <==> Huge.Step(Abs(st), a).None?
    ensures Act(st, a).Some? ==> Huge.Step(Abs(st), a) == Some(Abs(Act(st, a).value))
  {
    var pc := st.mem.threads[a.t].pc;
    PlainStep(st, a);
    if !a.Go? || pc.Resting? {
      IsAbs(Act(st, a).value, Huge.Step(Abs(st), a).value);
    } else if pc.Reusing? {
      ReuseAbs(st, a.t);
    } else if pc.Taking? {
      TakeAbs(st, a.t);
    } else if pc.Refreshing? {
      RefreshAbs(st, a.t);
    } else {
      HandleAbs(st, a.t);
    }
  }

  lemma PlainEnabled(st: Machine, a: Action)
    requires Sound(st) && Plain(st, a) && Allowed(st, a)
    ensures Huge.Enabled(Abs(st), a)
  {
    if a.Refresh? && Rewriting(st, a.d) {
      assert WorkOK(st, st.mem.descs[a.d].owner);
    }
  }

  /** `reuse` gives a range back. */
  lemma UncoverGentle(st: Machine, t: Tid, d: Did, st': Machine)
    requires Sound(st) && t < |st.work| && st.work[t].Idle? && Is(st.mem.descs, d, Free) && st.mem.descs[d].owner == t
    requires Clear(Abs(st), d, |st.work|) && st'.work == st.work && |st'.mem.threads| == |st.work|
    requires st'.mem.descs == st.mem.descs[d := st.mem.descs[d].(life := Safe)]
    requires forall u :: 0 <= u < |st.work| && u != t ==> st'.mem.threads[u] == st.mem.threads[u]
    requires st'.mem.threads[t].list == st.mem.threads[t].list && Handling(st'.mem.threads[t].pc).None?
    ensures Gentle(st, st', t)
  {
    forall e | 0 <= e < |st.mem.descs| ensures Leaves(st, st', t, e) {
    }
    forall e | 0 <= e < |st.mem.descs| ensures Spares(st, st', t, e) {
    }
  }

  lemma ReuseGentle(st: Machine, t: Tid)
    requires Sound(st) && t < |st.work| && st.work[t].Idle? && st.mem.threads[t].pc.Reusing?
    ensures ReuseStep(st.mem, t).Some? && Gentle(st, Machine(ReuseStep(st.mem, t).value, st.work), t)
  {
    var me := st.mem.threads[t];
    assert PcOK(Abs(st), t, me.pc);
    assert ThreadOK(Abs(st), t);
    OwnSettled(st, t);
    var st' := Machine(ReuseStep(st.mem, t).value, st.work);
    if HugeRuns.AtUncover(st.mem, t) {
      UncoverGentle(st, t, me.list[me.pc.k], st');
    } else {
      QuietGentle(st, st', t);
    }
  }

  lemma ReleasedGentle(st: Machine, t: Tid)
    requires Sound(st) && t < |st.work| && st.work[t].Idle? && st.mem.threads[t].pc.Releasing?
    ensures GoStep(st.mem, t).Some? && Gentle(st, Machine(GoStep(st.mem, t).value, st.work), t)
  {
    var d := st.mem.threads[t].pc.d;
    assert PcOK(Abs(st), t, st.mem.threads[t].pc);
    HandledSettled(st, t, d);
    var st' := Machine(GoStep(st.mem, t).value, st.work);
    forall e | 0 <= e < |st.mem.descs| ensures Leaves(st, st', t, e) {
    }
    forall e | 0 <= e < |st.mem.descs| ensures Spares(st, st', t, e) {
    }
  }

  lemma NewGentle(st: Machine, t: Tid)
    requires Sound(st) && t < |st.work| && Plain(st, Go(t)) && Fit(st.mem, t).Some?
    ensures GoStep(st.mem, t).Some? && Gentle(st, Machine(GoStep(st.mem, t).value, st.work), t)
  {
    var st' := Machine(GoStep(st.mem, t).value, st.work);
    assert st'.mem.threads[t].list[1..] == st.mem.threads[t].list;
    forall e | 0 <= e < |st.mem.descs| ensures Leaves(st, st', t, e) {
    }
    forall e | 0 <= e < |st.mem.descs| ensures Spares(st, st', t, e) {
    }
  }

  lemma PlainGentle(st: Machine, a: Action)
    requires Sound(st) && Plain(st, a) && Act(st, a).Some?
    ensures Gentle(st, Act(st, a).value, a.t)
  {
    var pc := st.mem.threads[a.t].pc;
    assert PcOK(Abs(st), a.t, pc);
    if a.Go? && pc.Reusing? {
      ReuseGentle(st, a.t);
    } else if a.Go? && pc.Releasing? {
      ReleasedGentle(st, a.t);
    } else if a.Go? && Fit(st.mem, a.t).Some? {
      NewGentle(st, a.t);
    } else {
      QuietGentle(st, Act(st, a).value, a.t);
    }
  }

  lemma PlainRefresh(st: Machine, a: Action)
    requires Sound(st) && Plain(st, a) && Allowed(st, a) && Act(st, a).Some?
    ensures |Act(st, a).value.mem.threads| == |st.mem.threads| && RefreshOK(Act(st, a).value, a.t)
  {
    assert PcOK(Abs(st), a.t, st.mem.threads[a.t].pc);
  }

  lemma PlainSound(st: Machine, a: Action)
    requires Sound(st) && Plain(st, a) && Allowed(st, a) && Act(st, a).Some?
    ensures Sound(Act(st, a).value) && Huge.Enabled(Abs(st), a) && Huge.Step(Abs(st), a) == Some(Abs(Act(st, a).value))
  {
    PlainEnabled(st, a);
    PlainAbs(st, a);
    PlainGentle(st, a);
    PlainRefresh(st, a);
    HugeRuns.StepKeeps(Abs(st), a);
    Concludes(st, Act(st, a).value, a.t);
  }

  // Every step

  /** The step of `Huge` that a step is, if it is one: stores and loads are none, and mapping is one at its end. */
  function Meaning(st: Machine, a: Action): Option<Action>
    requires a.t < |st.mem.threads| && a.t < |st.work|
  {
    match st.work[a.t]
    case Idle => if a.Map? then None else Some(a)
    case Mapping(look, _) => Some(Map(a.t, look.x))
    case _ => None
  }

  ghost predicate Refines(a: Huge.State, b: Option<Action>, a': Huge.State) {
    match b
    case None => a' == a
    case Some(b) => Huge.Enabled(a, b) && Huge.Step(a, b) == Some(a')
  }

  /** Unless a lookup takes the wrong descriptor, a step is one of `Huge`, and keeps everything. */
  lemma StepRefines(st: Machine, a: Action)
    requires Sound(st) && Allowed(st, a) && Act(st, a).Some? && !Torn(st, a.t)
    ensures Sound(Act(st, a).value) && Refines(Abs(st), Meaning(st, a), Abs(Act(st, a).value))
  {
    var w := st.work[a.t];
    if w.Idle? {
      if Plain(st, a) {
        PlainSound(st, a);
      } else if Overwrites(st, a) {
        OverAbs(st, a.t);
        OverSound(st, a.t);
      } else if a.Release? {
        ReleaseSound(st, a.t, a.x);
      } else {
        MapSound(st, a.t, a.x);
      }
    } else if w.Storing? {
      StoreSound(st, a.t);
    } else if w.Walking? {
      WalkSound(st, a.t);
    } else if w.Comparing? {
      CompareSound(st, a.t);
    } else {
      InsertSound(st, a.t);
    }
  }

  /** A lookup takes the holder, and goes on past every other descriptor, if and only if it is not torn. */
  lemma FindsHolderIff(st: Machine, t: Tid)
    requires Sound(st) && t < |st.work| && st.work[t].Comparing?
    ensures st.work[t].rest != []
    ensures (Hits(st, t) <==> st.work[t].rest[0] == st.work[t].look.holder) <==> !Torn(st, t)
  {
    HitsHolder(st, t);
  }

  ghost predicate Crowded(st: Machine, a: Action)
    requires a.t < |st.mem.threads| && a.t < |st.work|
  {
    && |st.mem.threads[a.t].hazards| >= HAZARDS
    && (st.work[a.t].Mapping? || (st.work[a.t].Idle? && a.Go? && st.mem.threads[a.t].pc.Inserting?))
  }

  /** The panics are those of `Huge`: no slots left, or no room in the hazard array. */
  lemma StepGoesOn(st: Machine, a: Action)
    requires Sound(st) && Allowed(st, a) && !Torn(st, a.t)
    ensures Act(st, a).None? <==>
              (a.Go? && st.work[a.t].Idle? && HugeRuns.Starved(Abs(st), a.t)) || Crowded(st, a)
  {
    var w := st.work[a.t];
    if w.Idle? {
      if Plain(st, a) {
        PlainEnabled(st, a);
        PlainAbs(st, a);
        HugeRuns.StepGoesOn(Abs(st), a);
      } else if Overwrites(st, a) {
        OverAbs(st, a.t);
      } else if a.Release? {
        ReleaseSound(st, a.t, a.x);
      } else {
        MapSound(st, a.t, a.x);
      }
    } else if w.Storing? {
      StoreSound(st, a.t);
    } else if w.Walking? {
      WalkSound(st, a.t);
    } else if w.Comparing? {
      CompareSound(st, a.t);
    } else {
      InsertSound(st, a.t);
    }
  }
}
