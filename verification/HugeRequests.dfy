/**
Requests to the huge allocator, from the call of a thread to its return: what an allocation of a size gives, what a free
of an offset frees, and what mapping and `refresh` do to the thread's hazards. Other threads do whatever they do
meanwhile.
*/
module HugeRequests {
  import opened Options
  import opened Claims
  import opened Huge
  import opened HugeInvariant
  import opened HugeRuns

  /** Thread `t` starts `a` in step `m`, and is not resting again before state `i`. */
  ghost predicate Calls(states: seq<State>, acts: seq<Action>, t: Tid, a: Action, m: nat, i: nat) {
    && m < i <= |acts| < |states| && acts[m] == a && a.t == t && !a.Go?
    && forall j :: m < j < i ==> t < |states[j].threads| && !states[j].threads[t].pc.Resting?
  }

  lemma CallsBefore(states: seq<State>, acts: seq<Action>, t: Tid, a: Action, m: nat, i: nat)
    requires Calls(states, acts, t, a, m, i) && m + 1 < i
    ensures Calls(states, acts, t, a, m, i - 1) && t < |states[i - 1].threads| && !states[i - 1].threads[t].pc.Resting?
  {
  }

  lemma RunStep(states: seq<State>, acts: seq<Action>, threads: nat, j: nat)
    requires IsRun(states, acts, threads) && j < |acts|
    ensures Inv(states[j]) && Enabled(states[j], acts[j]) && Step(states[j], acts[j]) == Some(states[j + 1])
  {
    RunsKeep(states, acts, threads, j);
    assert Enabled(states[j], acts[j]) && Step(states[j], acts[j]) == Some(states[j + 1]);
  }

  /** A live descriptor that thread `t` is handling stays as it is while others move. */
  lemma OtherLeaves(st: State, a: Action, t: Tid)
    requires Inv(st) && Enabled(st, a) && Step(st, a).Some? && a.t != t && t < |st.threads|
    ensures var st' := Step(st, a).value; t < |st'.threads| && st'.threads[t] == st.threads[t]
  {
  }

  lemma OtherLeavesDesc(st: State, a: Action, t: Tid, d: Did)
    requires Inv(st) && Enabled(st, a) && Step(st, a).Some? && a.t != t && t < |st.threads|
    requires Handling(st.threads[t].pc) == Some(d) && Is(st.descs, d, Live)
    ensures var st' := Step(st, a).value; d < |st'.descs| && st'.descs[d] == st.descs[d]
  {
    assert PcOK(st, a.t, st.threads[a.t].pc);
    assert Handling(st.threads[a.t].pc) != Some(d);
  }

  // Allocating

  /** Where an allocation of `size` bytes is; a range it has got is live, of that size and the thread's own. */
  ghost predicate AllocAt(st: State, t: Tid, size: nat) {
    && t < |st.threads|
    && match st.threads[t].pc
       case Reusing(n, _, _, _) => n == size
       case Taking(n, _) => n == size
       case Refreshing(_, back) => back.Taking? && back.size == size
       case Inserting(d) => Got(st, t, size, d)
       case _ => false
  }

  ghost predicate Got(st: State, t: Tid, size: nat, d: Did) {
    d < |st.descs| && st.descs[d].owner == t && st.descs[d].size == size && st.descs[d].life == Live
  }

  /** It is over: the range is the caller's, and under the thread's hazard. */
  ghost predicate Given(st: State, t: Tid, size: nat, d: Did) {
    Got(st, t, size, d) && t < |st.threads| && st.threads[t].pc.Resting? && st.descs[d].offset in st.threads[t].hazards
  }

  lemma AllocOwn(st: State, a: Action, t: Tid, size: nat)
    requires Inv(st) && Enabled(st, a) && Step(st, a).Some? && a.t == t && AllocAt(st, t, size)
    ensures var st' := Step(st, a).value;
            if st.threads[t].pc.Inserting? then Given(st', t, size, st.threads[t].pc.d) else AllocAt(st', t, size)
  {
    assert PcOK(st, t, st.threads[t].pc);
  }

  /** The range an allocation gets was free, and is taken out of the thread's free set. */
  lemma AllocTakesFree(st: State, t: Tid, size: nat)
    requires Inv(st) && AllocAt(st, t, size) && st.threads[t].pc.Taking? && Step(st, Go(t)).Some?
    requires Step(st, Go(t)).value.threads[t].pc.Inserting?
    ensures var st' := Step(st, Go(t)).value;
            var d := st'.threads[t].pc.d;
            && Got(st', t, size, d) && (d < |st.descs| ==> st.descs[d].life == Safe)
            && Range(st'.descs[d].offset, size) <= st.threads[t].free
            && st'.threads[t].free == st.threads[t].free - Range(st'.descs[d].offset, size)
            && (forall o: nat :: o < st'.descs[d].offset ==> !(Range(o, size) <= st.threads[t].free))
  {
    assert PcOK(st, t, st.threads[t].pc);
  }

  lemma AllocStep(st: State, a: Action, t: Tid, size: nat)
    requires Inv(st) && Enabled(st, a) && Step(st, a).Some? && AllocAt(st, t, size)
    requires !(a.t == t && st.threads[t].pc.Inserting?)
    ensures AllocAt(Step(st, a).value, t, size)
  {
    if a.t == t {
      AllocOwn(st, a, t, size);
    } else {
      OtherLeaves(st, a, t);
      if st.threads[t].pc.Inserting? { OtherLeavesDesc(st, a, t, st.threads[t].pc.d); }
    }
  }

  /**
  From its call on, an allocation of `size` bytes is looking for a range or has one of that size. When the thread rests
  again, it has just got a live range of its own, of exactly that size, that its hazard array protects.
  */
  lemma {:induction false} AllocServes(states: seq<State>, acts: seq<Action>, threads: nat, t: Tid, size: nat, m: nat,
                                       i: nat)
    requires IsRun(states, acts, threads) && Calls(states, acts, t, Allocate(t, size), m, i)
    ensures t < |states[i].threads|
    ensures if states[i].threads[t].pc.Resting? then exists d: Did :: Given(states[i], t, size, d)
            else AllocAt(states[i], t, size)
    decreases i
  {
    var j := i - 1;
    RunStep(states, acts, threads, j);
    if j > m {
      CallsBefore(states, acts, t, Allocate(t, size), m, i);
      AllocServes(states, acts, threads, t, size, m, j);
      if acts[j].t == t && states[j].threads[t].pc.Inserting? {
        AllocOwn(states[j], acts[j], t, size);
        assert Given(states[i], t, size, states[j].threads[t].pc.d);
      } else {
        AllocStep(states[j], acts[j], t, size);
      }
    }
  }

  // Freeing

  /** Where a free of descriptor `d`, which was `it` at the call, is. */
  ghost predicate FreeAt(st: State, t: Tid, d: Did, it: Desc) {
    && t < |st.threads| && d < |st.descs|
    && match st.threads[t].pc
       case Freeing(e) => e == d && st.descs[d] == it
       case Releasing(e) => e == d && st.descs[d] == it && it.offset !in st.threads[t].hazards
       case _ => false
  }

  lemma FreeOwn(st: State, a: Action, t: Tid, d: Did, it: Desc)
    requires Inv(st) && Enabled(st, a) && Step(st, a).Some? && a.t == t && FreeAt(st, t, d, it)
    ensures var st' := Step(st, a).value;
            && |st'.descs| == |st.descs| && (forall e :: 0 <= e < |st.descs| && e != d ==> st'.descs[e] == st.descs[e])
            && if st.threads[t].pc.Freeing? then FreeAt(st', t, d, it) else Freed(st', t, d, it)
  {
  }

  /** It is over: the range is free, and no longer under the thread's hazard. */
  ghost predicate Freed(st: State, t: Tid, d: Did, it: Desc) {
    && d < |st.descs| && st.descs[d] == it.(life := Free) && t < |st.threads| && st.threads[t].pc.Resting?
    && it.offset !in st.threads[t].hazards
  }

  lemma FreeStep(st: State, a: Action, t: Tid, d: Did, it: Desc)
    requires Inv(st) && Enabled(st, a) && Step(st, a).Some? && FreeAt(st, t, d, it) && it.life == Live
    ensures var st' := Step(st, a).value;
            if a.t == t && st.threads[t].pc.Releasing? then Freed(st', t, d, it) else FreeAt(st', t, d, it)
  {
    if a.t == t {
      FreeOwn(st, a, t, d, it);
    } else {
      OtherLeaves(st, a, t);
      OtherLeavesDesc(st, a, t, d);
    }
  }

  /**
  From its call on, a free of an offset is freeing the descriptor that holds the offset. When the thread rests again,
  that descriptor is free, otherwise as it was, and the thread has no hazard on it.
  */
  lemma {:induction false} FreeServes(states: seq<State>, acts: seq<Action>, threads: nat, t: Tid, x: nat, d: Did,
                                      m: nat, i: nat)
    requires IsRun(states, acts, threads) && Calls(states, acts, t, Release(t, x), m, i) && Usable(states[m], d, x)
    ensures t < |states[i].threads|
    ensures if states[i].threads[t].pc.Resting? then Freed(states[i], t, d, states[m].descs[d])
            else FreeAt(states[i], t, d, states[m].descs[d])
    decreases i
  {
    var j := i - 1;
    RunStep(states, acts, threads, j);
    if j == m {
      FindHolds(states[m], d, x);
    } else {
      CallsBefore(states, acts, t, Release(t, x), m, i);
      FreeServes(states, acts, threads, t, x, d, m, j);
      FreeStep(states[j], acts[j], t, d, states[m].descs[d]);
    }
  }

  // Mapping, and shedding hazards

  /** Mapping an offset puts the offset of its holder into the thread's hazards, and nothing else. */
  lemma MapProtects(st: State, t: Tid, x: nat, d: Did)
    requires Inv(st) && Enabled(st, Map(t, x)) && Usable(st, d, x) && Step(st, Map(t, x)).Some?
    ensures var st' := Step(st, Map(t, x)).value;
            && t < |st'.threads| && st'.threads[t].hazards == st.threads[t].hazards + {st.descs[d].offset}
            && st'.descs == st.descs
  {
    FindHolds(st, d, x);
  }

  /** Between the two steps of `refresh` on descriptor `d`, which had offset `o` when it was seen to be free. */
  ghost predicate RefreshAt(st: State, t: Tid, d: Did, o: nat) {
    && t < |st.threads| && d < |st.descs| && st.threads[t].pc.Refreshing? && st.threads[t].pc.d == d
    && (o in st.threads[t].hazards ==> st.descs[d].offset == o && st.descs[d].life == Free)
  }

  lemma RefreshWaits(st: State, a: Action, t: Tid, d: Did, o: nat)
    requires Inv(st) && Enabled(st, a) && Step(st, a).Some? && a.t != t && RefreshAt(st, t, d, o)
    ensures RefreshAt(Step(st, a).value, t, d, o)
  {
    assert PcOK(st, a.t, st.threads[a.t].pc);
    OtherLeaves(st, a, t);
  }

  lemma RefreshEnds(st: State, t: Tid, d: Did, o: nat)
    requires Inv(st) && Enabled(st, Go(t)) && RefreshAt(st, t, d, o)
    ensures Step(st, Go(t)).Some?
    ensures var st' := Step(st, Go(t)).value; t < |st'.threads| && o !in st'.threads[t].hazards
  {
  }

  /** Thread `t` takes no step between `m`, where `refresh` sees descriptor `d` free, and `i`. */
  ghost predicate Refreshes(states: seq<State>, acts: seq<Action>, t: Tid, d: Did, m: nat, i: nat) {
    && m < i < |states| == |acts| + 1 && acts[m] == Refresh(t, d) && forall j :: m < j < i ==> acts[j].t != t
  }

  lemma {:induction false} RefreshGoesOn(states: seq<State>, acts: seq<Action>, threads: nat, t: Tid, d: Did, m: nat,
                                         i: nat)
    requires IsRun(states, acts, threads) && Refreshes(states, acts, t, d, m, i)
    ensures d < |states[m].descs| && RefreshAt(states[i], t, d, states[m].descs[d].offset)
    decreases i
  {
    var j := i - 1;
    RunStep(states, acts, threads, j);
    if j > m {
      RefreshGoesOn(states, acts, threads, t, d, m, j);
      RefreshWaits(states[j], acts[j], t, d, states[m].descs[d].offset);
    }
  }

  /** After `refresh` the thread has no hazard on the offset that the freed descriptor had when it was seen. */
  lemma RefreshSheds(states: seq<State>, acts: seq<Action>, threads: nat, t: Tid, d: Did, m: nat, i: nat)
    requires IsRun(states, acts, threads) && Refreshes(states, acts, t, d, m, i) && i < |acts| && acts[i] == Go(t)
    ensures d < |states[m].descs| && t < |states[i + 1].threads|
    ensures states[m].descs[d].offset !in states[i + 1].threads[t].hazards
  {
    RefreshGoesOn(states, acts, threads, t, d, m, i);
    RunStep(states, acts, threads, i);
    RefreshEnds(states[i], t, d, states[m].descs[d].offset);
  }

  // Running alone

  /** Thread `t` takes `n` steps, and nobody else does anything; `None` when one of them panics. */
  ghost function Alone(st: State, t: Tid, n: nat): Option<State>
    requires t < |st.threads|
    decreases n
  {
    if n == 0 then Some(st) else
    match Step(st, Go(t))
    case None => None
    case Some(next) => if t < |next.threads| then Alone(next, t, n - 1) else None
  }

  function Phase(pc: Pc, fits: bool): nat {
    match pc
    case Resting => 0
    case Inserting(_) => 1
    case Releasing(_) => 1
    case Freeing(_) => 2
    case Taking(_, _) => if fits then 2 else 3
    case Refreshing(_, _) => 4
    case Reusing(_, _, _, _) => 5
  }

  /** A range of the size asked for fits. */
  ghost predicate Fits(st: State, t: Tid)
    requires t < |st.threads|
  {
    st.threads[t].pc.Taking? && FirstFit(st.threads[t].free, st.threads[t].pc.size, 0).Some?
  }

  /** Descriptors of the list, and hazard arrays, that `reuse` has still to look at. */
  function ToLook(st: State, t: Tid): (nat, nat)
    requires t < |st.threads|
  {
    var me := st.threads[t];
    if me.pc.Reusing? && me.pc.k <= |me.list| && me.pc.h <= |st.threads|
    then (|me.list| - me.pc.k, |st.threads| - me.pc.h) else (0, 0)
  }

  ghost predicate Nearer(st: State, st': State, t: Tid)
    requires t < |st.threads| && t < |st'.threads|
  {
    var p, p' := Phase(st.threads[t].pc, Fits(st, t)), Phase(st'.threads[t].pc, Fits(st', t));
    || p' < p
    || (p' == p && ToLook(st', t).0 < ToLook(st, t).0)
    || (p' == p && ToLook(st', t).0 == ToLook(st, t).0 && ToLook(st', t).1 < ToLook(st, t).1)
  }

  lemma StepNearer(st: State, t: Tid)
    requires Inv(st) && t < |st.threads| && !st.threads[t].pc.Resting? && Step(st, Go(t)).Some?
    ensures var st' := Step(st, Go(t)).value; t < |st'.threads| && Nearer(st, st', t)
  {
    assert PcOK(st, t, st.threads[t].pc);
    if st.threads[t].pc.Taking? && !Fits(st, t) { ClaimSuffices(st, t); }
  }

  /** Running alone, a thread rests again after finitely many steps, unless it panics. */
  lemma {:induction false} AloneRests(st: State, t: Tid) returns (n: nat)
    requires Inv(st) && t < |st.threads|
    ensures var r := Alone(st, t, n); r.None? || (t < |r.value.threads| && r.value.threads[t].pc.Resting?)
    decreases Phase(st.threads[t].pc, Fits(st, t)), ToLook(st, t).0, ToLook(st, t).1
  {
    if st.threads[t].pc.Resting? {
      n := 0;
    } else if Step(st, Go(t)).None? {
      n := 1;
    } else {
      StepKeeps(st, Go(t));
      StepNearer(st, t);
      var m := AloneRests(Step(st, Go(t)).value, t);
      n := m + 1;
    }
  }
}
