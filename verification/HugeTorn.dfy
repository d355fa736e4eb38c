/**
A run of the huge allocator on which freeing one range frees another, which is just being handed out. Sizes are in
bytes; thread 0 has allocated [0, 1), [1, 2) and [2, 4), freed the first and the last, and asks for one byte again.
*/
module HugeTorn {
  import opened Options
  import opened Claims
  import opened Huge
  import opened HugeInvariant
  import opened HugeStores
  import opened HugeLookups
  import W = HugeWitness

  ghost predicate Reaches(st: Machine) {
    exists states, acts :: IsRun(states, acts, 2) && states[|acts|] == st
  }

  lemma Then(st: Machine, a: Action) returns (st': Machine)
    requires Reaches(st) && Allowed(st, a) && Act(st, a).Some?
    ensures Reaches(st') && Act(st, a) == Some(st')
  {
    st' := Act(st, a).value;
    var states, acts :| IsRun(states, acts, 2) && states[|acts|] == st;
    RunGrows(states, acts, 2, a, st');
    assert (states + [st'])[|acts + [a]|] == st';
  }

  /** What thread 1 is doing. */
  datatype Other = Other(pc: Pc, work: Work)

  const QUIET := Other(Resting, Idle)

  /** Thread 0 has claimed the first slot; thread 1 has no memory of its own. */
  function Scene(descs: seq<Desc>, list: seq<Did>, free: set<nat>, mine: set<nat>, pc: Pc, work: Work,
                 other: Other): Machine
  {
    Machine(Huge.State([Claim(0, 1)], descs, [Thread(free, list, mine, pc), Thread({}, [], {}, other.pc)]),
            [work, other.work])
  }

  lemma Same(st: Machine, descs: seq<Desc>, list: seq<Did>, free: set<nat>, mine: set<nat>, pc: Pc, work: Work,
             other: Other)
    requires |st.mem.threads| == 2 == |st.work| && st.mem.claims == [Claim(0, 1)]
    requires |st.mem.descs| == |descs| && forall d :: 0 <= d < |descs| ==> st.mem.descs[d] == descs[d]
    requires st.mem.threads[1] == Thread({}, [], {}, other.pc) && st.work[1] == other.work && st.work[0] == work
    requires var me := st.mem.threads[0]; me.free == free && me.list == list && me.hazards == mine && me.pc == pc
    ensures st == Scene(descs, list, free, mine, pc, work, other)
  {
    assert st.mem.threads == [Thread(free, list, mine, pc), Thread({}, [], {}, other.pc)];
    assert st.work == [work, other.work];
    assert st.mem.descs == descs;
  }

  // Steps of thread 0

  lemma Asking(descs: seq<Desc>, list: seq<Did>, free: set<nat>, mine: set<nat>, size: nat, other: Other)
    requires Reaches(Scene(descs, list, free, mine, Resting, Idle, other)) && size > 0
    ensures Reaches(Scene(descs, list, free, mine, Reusing(size, 0, 0, None), Idle, other))
  {
    var st := Then(Scene(descs, list, free, mine, Resting, Idle, other), Allocate(0, size));
    Same(st, descs, list, free, mine, Reusing(size, 0, 0, None), Idle, other);
  }

  lemma PassesLive(descs: seq<Desc>, list: seq<Did>, free: set<nat>, mine: set<nat>, size: nat, k: nat,
                   safe: Option<nat>, other: Other)
    requires Reaches(Scene(descs, list, free, mine, Reusing(size, k, 0, safe), Idle, other))
    requires k < |list| && list[k] < |descs| && descs[list[k]].life == Live
    ensures Reaches(Scene(descs, list, free, mine, Reusing(size, k + 1, 0, safe), Idle, other))
  {
    var st := Then(Scene(descs, list, free, mine, Reusing(size, k, 0, safe), Idle, other), Go(0));
    Same(st, descs, list, free, mine, Reusing(size, k + 1, 0, safe), Idle, other);
  }

  lemma Checks(descs: seq<Desc>, list: seq<Did>, free: set<nat>, mine: set<nat>, size: nat, k: nat, h: nat,
               safe: Option<nat>, other: Other)
    requires Reaches(Scene(descs, list, free, mine, Reusing(size, k, h, safe), Idle, other)) && h < 2
    requires k < |list| && list[k] < |descs| && descs[list[k]].life == Free && descs[list[k]].offset !in mine
    ensures Reaches(Scene(descs, list, free, mine, Reusing(size, k, h + 1, safe), Idle, other))
  {
    var st := Then(Scene(descs, list, free, mine, Reusing(size, k, h, safe), Idle, other), Go(0));
    Same(st, descs, list, free, mine, Reusing(size, k, h + 1, safe), Idle, other);
  }

  lemma Uncovers(descs: seq<Desc>, list: seq<Did>, free: set<nat>, mine: set<nat>, size: nat, k: nat,
                 safe: Option<nat>, other: Other)
    requires Reaches(Scene(descs, list, free, mine, Reusing(size, k, 2, safe), Idle, other))
    requires k < |list| && list[k] < |descs| && descs[list[k]].life == Free
    ensures var it := descs[list[k]];
            Reaches(Scene(descs[list[k] := it.(life := Safe)], list, free + Range(it.offset, it.size), mine,
                          Reusing(size, k + 1, 0, OrElse(safe, k)), Idle, other))
  {
    var st := Then(Scene(descs, list, free, mine, Reusing(size, k, 2, safe), Idle, other), Go(0));
    var it := descs[list[k]];
    Same(st, descs[list[k] := it.(life := Safe)], list, free + Range(it.offset, it.size), mine,
         Reusing(size, k + 1, 0, OrElse(safe, k)), Idle, other);
  }

  lemma GivesBack(descs: seq<Desc>, list: seq<Did>, free: set<nat>, mine: set<nat>, size: nat, k: nat,
                  safe: Option<nat>, other: Other)
    requires Reaches(Scene(descs, list, free, mine, Reusing(size, k, 0, safe), Idle, other))
    requires k < |list| && list[k] < |descs| && descs[list[k]].life == Free && descs[list[k]].offset !in mine
    ensures var it := descs[list[k]];
            Reaches(Scene(descs[list[k] := it.(life := Safe)], list, free + Range(it.offset, it.size), mine,
                          Reusing(size, k + 1, 0, OrElse(safe, k)), Idle, other))
  {
    Checks(descs, list, free, mine, size, k, 0, safe, other);
    Checks(descs, list, free, mine, size, k, 1, safe, other);
    Uncovers(descs, list, free, mine, size, k, safe, other);
  }

  lemma Looked(descs: seq<Desc>, list: seq<Did>, free: set<nat>, mine: set<nat>, size: nat, safe: Option<nat>,
               other: Other)
    requires Reaches(Scene(descs, list, free, mine, Reusing(size, |list|, 0, safe), Idle, other))
    ensures Reaches(Scene(descs, list, free, mine, Taking(size, safe), Idle, other))
  {
    var st := Then(Scene(descs, list, free, mine, Reusing(size, |list|, 0, safe), Idle, other), Go(0));
    Same(st, descs, list, free, mine, Taking(size, safe), Idle, other);
  }

  predicate IsLive(descs: seq<Desc>, list: seq<Did>, i: nat) {
    i < |list| && list[i] < |descs| && descs[list[i]].life == Live
  }

  lemma {:induction false} PassesAll(descs: seq<Desc>, list: seq<Did>, free: set<nat>, mine: set<nat>, size: nat,
                                     k: nat, other: Other)
    requires Reaches(Scene(descs, list, free, mine, Reusing(size, k, 0, None), Idle, other)) && k <= |list|
    requires forall i :: k <= i < |list| ==> IsLive(descs, list, i)
    ensures Reaches(Scene(descs, list, free, mine, Taking(size, None), Idle, other))
    decreases |list| - k
  {
    if k == |list| {
      Looked(descs, list, free, mine, size, None, other);
    } else {
      assert IsLive(descs, list, k);
      PassesLive(descs, list, free, mine, size, k, None, other);
      PassesAll(descs, list, free, mine, size, k + 1, other);
    }
  }

  /** `reuse` finds nothing. */
  lemma LooksPast(descs: seq<Desc>, list: seq<Did>, free: set<nat>, mine: set<nat>, size: nat, other: Other)
    requires Reaches(Scene(descs, list, free, mine, Resting, Idle, other)) && size > 0
    requires forall i :: 0 <= i < |list| ==> IsLive(descs, list, i)
    ensures Reaches(Scene(descs, list, free, mine, Taking(size, None), Idle, other))
  {
    Asking(descs, list, free, mine, size, other);
    PassesAll(descs, list, free, mine, size, 0, other);
  }

  /** `reuse` finds a range to give back, a live one, and another one to give back. */
  lemma GivesBackTwo(descs: seq<Desc>, list: seq<Did>, free: set<nat>, mine: set<nat>, size: nat, other: Other)
    requires Reaches(Scene(descs, list, free, mine, Resting, Idle, other)) && size > 0
    requires |list| == 3 && IsLive(descs, list, 1)
    requires list[0] < |descs| && list[2] < |descs| && Distinct(list)
    requires descs[list[0]].life == Free && descs[list[0]].offset !in mine
    requires descs[list[2]].life == Free && descs[list[2]].offset !in mine
    ensures var a, c := descs[list[0]], descs[list[2]];
            Reaches(Scene(descs[list[0] := a.(life := Safe)][list[2] := c.(life := Safe)], list,
                          free + Range(a.offset, a.size) + Range(c.offset, c.size), mine, Taking(size, Some(0)), Idle,
                          other))
  {
    var a, c := descs[list[0]], descs[list[2]];
    var descs1, free1 := descs[list[0] := a.(life := Safe)], free + Range(a.offset, a.size);
    Asking(descs, list, free, mine, size, other);
    GivesBack(descs, list, free, mine, size, 0, None, other);
    PassesLive(descs1, list, free1, mine, size, 1, Some(0), other);
    GivesBack(descs1, list, free1, mine, size, 2, Some(0), other);
    Looked(descs1[list[2] := c.(life := Safe)], list, free1 + Range(c.offset, c.size), mine, size, Some(0), other);
  }

  lemma Inserts(descs: seq<Desc>, list: seq<Did>, free: set<nat>, mine: set<nat>, d: Did, other: Other)
    requires Reaches(Scene(descs, list, free, mine, Inserting(d), Idle, other))
    requires d < |descs| && descs[d].offset !in mine && |mine| < HAZARDS
    ensures Reaches(Scene(descs, list, free, mine + {descs[d].offset}, Resting, Idle, other))
  {
    var st := Then(Scene(descs, list, free, mine, Inserting(d), Idle, other), Go(0));
    Same(st, descs, list, free, mine + {descs[d].offset}, Resting, Idle, other);
  }

  /** A new descriptor in front of the list. */
  lemma Adds(descs: seq<Desc>, list: seq<Did>, free: set<nat>, mine: set<nat>, size: nat, o: nat, other: Other)
    requires Reaches(Scene(descs, list, free, mine, Taking(size, None), Idle, other))
    requires FirstFit(free, size, 0) == Some(o) && o !in mine && |mine| < HAZARDS
    ensures Reaches(Scene(descs + [Desc(0, o, size, Live)], [|descs|] + list, free - Range(o, size), mine + {o},
                          Resting, Idle, other))
  {
    var st := Then(Scene(descs, list, free, mine, Taking(size, None), Idle, other), Go(0));
    var descs', list', free' := descs + [Desc(0, o, size, Live)], [|descs|] + list, free - Range(o, size);
    Same(st, descs', list', free', mine, Inserting(|descs|), Idle, other);
    Inserts(descs', list', free', mine, |descs|, other);
  }

  /** A whole allocation that finds nothing to reuse. */
  lemma Allocates(descs: seq<Desc>, list: seq<Did>, free: set<nat>, mine: set<nat>, size: nat, o: nat, other: Other)
    requires Reaches(Scene(descs, list, free, mine, Resting, Idle, other)) && size > 0
    requires forall i :: 0 <= i < |list| ==> IsLive(descs, list, i)
    requires FirstFit(free, size, 0) == Some(o) && o !in mine && |mine| < HAZARDS
    ensures Reaches(Scene(descs + [Desc(0, o, size, Live)], [|descs|] + list, free - Range(o, size), mine + {o},
                          Resting, Idle, other))
  {
    LooksPast(descs, list, free, mine, size, other);
    Adds(descs, list, free, mine, size, o, other);
  }

  /** The descriptor found is overwritten up to its offset. */
  lemma Rewrites(descs: seq<Desc>, list: seq<Did>, free: set<nat>, mine: set<nat>, size: nat, p: nat, o: nat,
                 other: Other)
    requires Reaches(Scene(descs, list, free, mine, Taking(size, Some(p)), Idle, other))
    requires FirstFit(free, size, 0) == Some(o) && p < |list| && list[p] < |descs|
    ensures var d := list[p];
            Reaches(Scene(descs[d := Desc(descs[d].owner, o, descs[d].size, Live)], list, free - Range(o, size), mine,
                          Inserting(d), Storing(d, Desc(0, o, size, Live), ToSize), other))
  {
    var d, it, free' := list[p], descs[list[p]], free - Range(o, size);
    var target := Desc(0, o, size, Live);
    var s1 := Then(Scene(descs, list, free, mine, Taking(size, Some(p)), Idle, other), Go(0));
    Same(s1, descs, list, free', mine, Inserting(d), Storing(d, target, ToLive), other);
    var s2 := Then(s1, Go(0));
    var descs2 := descs[d := it.(life := Live)];
    Same(s2, descs2, list, free', mine, Inserting(d), Storing(d, target, ToOffset), other);
    var s3 := Then(s2, Go(0));
    Same(s3, descs[d := Desc(it.owner, o, it.size, Live)], list, free', mine, Inserting(d), Storing(d, target, ToSize),
         other);
  }

  // Freeing

  lemma WorkReaches(st: Machine, t: Tid) returns (st': Machine)
    requires Reaches(st) && t < |st.work| == |st.mem.threads| && WorkStep(st, t).Some?
    ensures WorkStep(st, t) == Some(st') && Reaches(st') && |st'.work| == |st'.mem.threads| == |st.work|
  {
    if st.work[t].Idle? {
      st' := st;
    } else {
      st' := Then(st, Go(t));
    }
  }

  lemma {:induction false} AloneReaches(st: Machine, t: Tid, n: nat)
    requires Reaches(st) && t < |st.work| == |st.mem.threads| && Alone(st, t, n).Some?
    ensures Reaches(Alone(st, t, n).value)
    decreases n
  {
    if n > 0 {
      var next := WorkReaches(st, t);
      AloneReaches(next, t, n - 1);
    }
  }

  /** The lookup of a free, with nobody else doing anything. */
  lemma Finds(st: Machine, t: Tid, x: nat, d: Did) returns (st': Machine)
    requires Reaches(st) && Allowed(st, Release(t, x)) && st.work[t].Idle? && Lookup(st.mem.claims, x) == Some(0)
    requires forall i :: 0 <= i < |st.mem.threads[0].list| ==> st.mem.threads[0].list[i] < |st.mem.descs|
    requires FindIn(st.mem.descs, st.mem.threads[0].list, x) == Some(d)
    ensures Reaches(st') && st' == Machine(SetPc(st.mem, t, Freeing(d)), st.work)
  {
    var s1 := Then(st, Release(t, x));
    var n := LookAlone(s1, t);
    AloneReaches(s1, t, n);
    st' := After(s1, t, s1.work[t].look, d);
    assert st'.mem.threads == SetPc(st.mem, t, Freeing(d)).threads;
    assert st'.work == st.work;
  }

  lemma InSlot(x: nat)
    requires x < SLOT_SIZE
    ensures Lookup([Claim(0, 1)], x) == Some(0)
  {
  }

  lemma Releases(descs: seq<Desc>, list: seq<Did>, free: set<nat>, mine: set<nat>, d: Did, other: Other)
    requires Reaches(Scene(descs, list, free, mine, Freeing(d), Idle, other)) && d < |descs|
    ensures Reaches(Scene(descs[d := descs[d].(life := Free)], list, free, mine - {descs[d].offset}, Resting, Idle,
                          other))
  {
    var s1 := Then(Scene(descs, list, free, mine, Freeing(d), Idle, other), Go(0));
    Same(s1, descs, list, free, mine - {descs[d].offset}, Releasing(d), Idle, other);
    var s2 := Then(s1, Go(0));
    Same(s2, descs[d := descs[d].(life := Free)], list, free, mine - {descs[d].offset}, Resting, Idle, other);
  }

  lemma Frees(descs: seq<Desc>, list: seq<Did>, free: set<nat>, mine: set<nat>, d: Did, x: nat, other: Other)
    requires Reaches(Scene(descs, list, free, mine, Resting, Idle, other)) && x < SLOT_SIZE
    requires forall i :: 0 <= i < |list| ==> list[i] < |descs|
    requires FindIn(descs, list, x) == Some(d) && d < |descs| && descs[d].life == Live && Contains(descs[d], x)
    requires !other.work.Storing? && Handling(other.pc) != Some(d)
    requires LookOf(other.work).Some? ==> other.work.look.free
    ensures Reaches(Scene(descs[d := descs[d].(life := Free)], list, free, mine - {descs[d].offset}, Resting, Idle,
                          other))
  {
    var st := Scene(descs, list, free, mine, Resting, Idle, other);
    assert Usable(Abs(st), d, x) && Unmapping(st, d);
    InSlot(x);
    var s1 := Finds(st, 0, x, d);
    Same(s1, descs, list, free, mine, Freeing(d), Idle, other);
    Releases(descs, list, free, mine, d, other);
  }

  // The run

  /** Nothing of this size fits at `p`, because of one of the first two bytes. */
  predicate Taken(free: set<nat>, size: nat, p: nat) {
    p !in free || (size > 1 && p + 1 !in free)
  }

  lemma TakenMisses(free: set<nat>, size: nat, p: nat)
    requires size > 0 && Taken(free, size, p)
    ensures !(Range(p, size) <= free)
  {
    var r := Range(p, size);
    assert p in r && (size > 1 ==> p + 1 in r);
  }

  lemma Fits(free: set<nat>, size: nat, o: nat)
    requires size > 0 && Range(o, size) <= free && o < REGION && forall p: nat :: p < o ==> Taken(free, size, p)
    ensures FirstFit(free, size, 0) == Some(o)
  {
    var r := FirstFit(free, size, 0);
    if r.Some? && r.value < o {
      TakenMisses(free, size, r.value);
    }
  }

  function Before(pc: Pc): Machine {
    Machine(Huge.State([], [], [Thread({}, [], {}, pc), Thread({}, [], {}, Resting)]), [Idle, Idle])
  }

  lemma Starts()
    ensures Reaches(Before(Taking(1, None)))
  {
    assert IsRun([Begin(2)], [], 2);
    assert Begin(2) == Before(Resting) by { assert Begin(2).mem.threads == Before(Resting).mem.threads; }
    var s1 := Then(Before(Resting), Allocate(0, 1));
    assert s1.mem.threads == Before(Reusing(1, 0, 0, None)).mem.threads;
    var s2 := Then(s1, Go(0));
    assert s2.mem.threads == Before(Taking(1, None)).mem.threads;
  }

  lemma ClaimsSlot(slot: set<nat>)
    requires W.IsSlot(slot)
    ensures Reaches(Scene([], [], slot, {}, Taking(1, None), Idle, QUIET))
  {
    Starts();
    W.NothingFits();
    W.OneSlot(slot);
    var st := Then(Before(Taking(1, None)), Go(0));
    assert {} + slot == slot;
    Same(st, [], [], slot, {}, Taking(1, None), Idle, QUIET);
  }

  const D0 := Desc(0, 0, 1, Live)
  const D1 := Desc(0, 1, 1, Live)
  const D2 := Desc(0, 2, 2, Live)
  const LIST: seq<Did> := [2, 1, 0]

  lemma AddsFirst(slot: set<nat>)
    requires W.IsSlot(slot)
    ensures Reaches(Scene([D0], [0], slot - Range(0, 1), {0}, Resting, Idle, QUIET))
  {
    ClaimsSlot(slot);
    Fits(slot, 1, 0);
    Adds([], [], slot, {}, 1, 0, QUIET);
    assert [] + [D0] == [D0] && [0] + [] == [0] && {} + {0} == {0};
  }

  lemma AddsSecond(slot: set<nat>)
    requires W.IsSlot(slot)
    ensures Reaches(Scene([D0, D1], [1, 0], slot - Range(0, 1) - Range(1, 1), {0, 1}, Resting, Idle, QUIET))
  {
    AddsFirst(slot);
    var free := slot - Range(0, 1);
    assert forall i :: 0 <= i < 1 ==> IsLive([D0], [0], i);
    Fits(free, 1, 1);
    Allocates([D0], [0], free, {0}, 1, 1, QUIET);
    assert [D0] + [D1] == [D0, D1] && [1] + [0] == [1, 0] && {0} + {1} == {0, 1};
  }

  /** What is free once all three ranges are taken. */
  function Rest(slot: set<nat>): set<nat> {
    slot - Range(0, 1) - Range(1, 1) - Range(2, 2)
  }

  lemma ThirdFits(slot: set<nat>)
    requires W.IsSlot(slot)
    ensures FirstFit(slot - Range(0, 1) - Range(1, 1), 2, 0) == Some(2) && |{0, 1}| < HAZARDS
  {
    Fits(slot - Range(0, 1) - Range(1, 1), 2, 2);
  }

  lemma AddsThird(slot: set<nat>)
    requires W.IsSlot(slot)
    ensures Reaches(Scene([D0, D1, D2], LIST, Rest(slot), {0, 1, 2}, Resting, Idle, QUIET))
  {
    AddsSecond(slot);
    ThirdFits(slot);
    var descs, list, mine := [D0, D1], [1, 0], {0, 1};
    assert IsLive(descs, list, 0) && IsLive(descs, list, 1);
    Allocates(descs, list, slot - Range(0, 1) - Range(1, 1), mine, 2, 2, QUIET);
    assert descs + [D2] == [D0, D1, D2] && [2] + list == LIST && mine + {2} == {0, 1, 2};
  }

  lemma FindInThree(descs: seq<Desc>, x: nat)
    requires |descs| == 3
    ensures FindIn(descs, LIST, x) ==
            if Contains(descs[2], x) then Some(2) else if Contains(descs[1], x) then Some(1)
            else if Contains(descs[0], x) then Some(0) else None
  {
    assert LIST[1..] == [1, 0] && [1, 0][1..] == [0] && [0][1..] == [];
    assert FindIn(descs, [0], x) == if Contains(descs[0], x) then Some(0) else None;
  }

  /** Thread 0 frees the first range and the last. */
  lemma FreesTwo(slot: set<nat>)
    requires W.IsSlot(slot)
    ensures Reaches(Scene([D0.(life := Free), D1, D2.(life := Free)], LIST, Rest(slot), {1}, Resting, Idle, QUIET))
  {
    AddsThird(slot);
    var descs := [D0, D1, D2];
    FindInThree(descs, 0);
    Frees(descs, LIST, Rest(slot), {0, 1, 2}, 0, 0, QUIET);
    var descs1 := [D0.(life := Free), D1, D2];
    assert descs[0 := D0.(life := Free)] == descs1 && {0, 1, 2} - {0} == {1, 2};
    FindInThree(descs1, 2);
    Frees(descs1, LIST, Rest(slot), {1, 2}, 2, 2, QUIET);
    assert descs1[2 := D2.(life := Free)] == [D0.(life := Free), D1, D2.(life := Free)] && {1, 2} - {2} == {1};
  }

  // It asks for one byte, and is between the stores of offset and size

  /** The ranges free when descriptor 1 alone is left. */
  function Freed(slot: set<nat>): set<nat> {
    Rest(slot) + Range(2, 2) + Range(0, 1)
  }

  function Outdated(): seq<Desc> {
    [D0.(life := Safe), D1, D2.(life := Safe)]
  }

  lemma LooksAgain(slot: set<nat>)
    requires W.IsSlot(slot)
    ensures Reaches(Scene(Outdated(), LIST, Freed(slot), {1}, Taking(1, Some(0)), Idle, QUIET))
  {
    FreesTwo(slot);
    var descs := [D0.(life := Free), D1, D2.(life := Free)];
    GivesBackTwo(descs, LIST, Rest(slot), {1}, 1, QUIET);
    assert descs[2 := D2.(life := Safe)][0 := D0.(life := Safe)] == Outdated();
  }

  /** In memory, descriptor 2 has the new offset 0 and the old size 2. */
  function HalfStored(): seq<Desc> {
    [D0.(life := Safe), D1, Desc(0, 0, 2, Live)]
  }

  /** Descriptor 2 has been given the range [0, 1). */
  function Moved(life: Life): seq<Desc> {
    [D0.(life := Safe), D1, Desc(0, 0, 1, life)]
  }

  /** Thread 0 is between the stores of offset and size of descriptor 2. */
  function Writing(descs: seq<Desc>, free: set<nat>, other: Other): Machine {
    Scene(descs, LIST, free, {1}, Inserting(2), Storing(2, D0, ToSize), other)
  }

  lemma HandsOut(slot: set<nat>)
    requires W.IsSlot(slot)
    ensures Reaches(Writing(HalfStored(), Freed(slot) - Range(0, 1), QUIET))
  {
    LooksAgain(slot);
    Fits(Freed(slot), 1, 0);
    Rewrites(Outdated(), LIST, Freed(slot), {1}, 1, 0, 0, QUIET);
    assert Outdated()[2 := Desc(0, 0, 2, Live)] == HalfStored();
  }

  // Thread 1 frees offset 1 meanwhile

  const LOOK := Look(1, true, 1)

  lemma LooksUp(free: set<nat>)
    requires Reaches(Writing(HalfStored(), free, QUIET))
    ensures Reaches(Writing(HalfStored(), free, Other(Freeing(1), Walking(LOOK, LIST))))
  {
    var st := Writing(HalfStored(), free, QUIET);
    assert Usable(Abs(st), 1, 1) && Unmapping(st, 1);
    InSlot(1);
    assert Find(Abs(st), 1) == Some(1) by { FindInThree(Abs(st).descs, 1); }
    var st' := Then(st, Release(1, 1));
    Same(st', HalfStored(), LIST, free, {1}, Inserting(2), Storing(2, D0, ToSize),
         Other(Freeing(1), Walking(LOOK, LIST)));
  }

  /** The lookup reads offset 0 and size 2 of descriptor 2. */
  lemma TakesWrong(free: set<nat>) returns (st: Machine, st': Machine)
    requires Reaches(Writing(HalfStored(), free, QUIET))
    ensures st == Writing(HalfStored(), free, Other(Freeing(1), Comparing(LOOK, LIST, 0, 2, false)))
    ensures Reaches(st) && Torn(st, 1) && Act(st, Go(1)) == Some(st') && Reaches(st')
    ensures st' == Writing(HalfStored(), free, Other(Freeing(2), Idle))
  {
    LooksUp(free);
    st := Then(Writing(HalfStored(), free, Other(Freeing(1), Walking(LOOK, LIST))), Go(1));
    Same(st, HalfStored(), LIST, free, {1}, Inserting(2), Storing(2, D0, ToSize),
         Other(Freeing(1), Comparing(LOOK, LIST, 0, 2, false)));
    st' := Then(st, Go(1));
    Same(st', HalfStored(), LIST, free, {1}, Inserting(2), Storing(2, D0, ToSize), Other(Freeing(2), Idle));
  }

  /** Thread 1 frees descriptor 2. */
  lemma FreesWrong(free: set<nat>)
    requires Reaches(Writing(HalfStored(), free, Other(Freeing(2), Idle)))
    ensures Reaches(Writing(HalfStored()[2 := Desc(0, 0, 2, Free)], free, QUIET))
  {
    var st := Writing(HalfStored(), free, Other(Freeing(2), Idle));
    var s1 := Then(st, Go(1));
    assert s1.mem.threads[1].hazards == {};
    Same(s1, HalfStored(), LIST, free, {1}, Inserting(2), Storing(2, D0, ToSize), Other(Releasing(2), Idle));
    var s2 := Then(s1, Go(1));
    Same(s2, HalfStored()[2 := Desc(0, 0, 2, Free)], LIST, free, {1}, Inserting(2), Storing(2, D0, ToSize), QUIET);
  }

  /** Thread 0 stores the size and hands the range out. */
  lemma Ends(free: set<nat>)
    requires Reaches(Writing(HalfStored()[2 := Desc(0, 0, 2, Free)], free, QUIET))
    ensures Reaches(Scene(Moved(Free), LIST, free, {0, 1}, Resting, Idle, QUIET))
  {
    var descs := HalfStored()[2 := Desc(0, 0, 2, Free)];
    var st := Writing(descs, free, QUIET);
    var s1 := Then(st, Go(0));
    Same(s1, Moved(Free), LIST, free, {1}, Inserting(2), Idle, QUIET);
    Inserts(Moved(Free), LIST, free, {1}, 2, QUIET);
    assert {1} + {0} == {0, 1};
  }

  /**
  Thread 1 frees offset 1, and the lookup takes descriptor 2 for its holder, descriptor 1. In the end descriptor 2 is
  free although thread 0 has just been given its range, and descriptor 1 is live although its range has been freed.
  */
  lemma FreesAnother() returns (st: Machine, st': Machine)
    ensures Reaches(st) && |st.mem.threads| == |st.work| == 2 && Torn(st, 1)
    ensures LookOf(st.work[1]) == Some(Look(1, true, 1)) && Act(st, Go(1)).Some?
    ensures st.work[0] == Storing(2, D0, ToSize) && st.mem.descs == HalfStored()
    ensures |Act(st, Go(1)).value.mem.threads| == 2 && Act(st, Go(1)).value.mem.threads[1].pc == Freeing(2)
    ensures Reaches(st') && st'.mem.descs == Moved(Free) && st'.work == [Idle, Idle]
    ensures |st'.mem.threads| == 2 && st'.mem.threads[0].pc == st'.mem.threads[1].pc == Resting
    ensures 0 in st'.mem.threads[0].hazards
  {
    var slot := W.SlotExists(SLOT_SIZE);
    HandsOut(slot);
    var free := Freed(slot) - Range(0, 1);
    var s1: Machine;
    st, s1 := TakesWrong(free);
    FreesWrong(free);
    Ends(free);
    st' := Scene(Moved(Free), LIST, free, {0, 1}, Resting, Idle, QUIET);
  }

  // The size grows between the two loads

  lemma PassesSafe(descs: seq<Desc>, list: seq<Did>, free: set<nat>, mine: set<nat>, size: nat, k: nat,
                   safe: Option<nat>, other: Other)
    requires Reaches(Scene(descs, list, free, mine, Reusing(size, k, 0, safe), Idle, other))
    requires k < |list| && list[k] < |descs| && descs[list[k]].life == Safe
    ensures Reaches(Scene(descs, list, free, mine, Reusing(size, k + 1, 0, OrElse(safe, k)), Idle, other))
  {
    var st := Then(Scene(descs, list, free, mine, Reusing(size, k, 0, safe), Idle, other), Go(0));
    Same(st, descs, list, free, mine, Reusing(size, k + 1, 0, OrElse(safe, k)), Idle, other);
  }

  lemma StoresSize(descs: seq<Desc>, list: seq<Did>, free: set<nat>, mine: set<nat>, d: Did, target: Desc, other: Other)
    requires Reaches(Scene(descs, list, free, mine, Inserting(d), Storing(d, target, ToSize), other)) && d < |descs|
    ensures Reaches(Scene(descs[d := descs[d].(size := target.size)], list, free, mine, Inserting(d), Idle, other))
  {
    var st := Then(Scene(descs, list, free, mine, Inserting(d), Storing(d, target, ToSize), other), Go(0));
    Same(st, descs[d := descs[d].(size := target.size)], list, free, mine, Inserting(d), Idle, other);
  }

  lemma HandedOut(slot: set<nat>)
    requires W.IsSlot(slot)
    ensures Reaches(Scene(Moved(Live), LIST, Freed(slot) - Range(0, 1), {0, 1}, Resting, Idle, QUIET))
  {
    HandsOut(slot);
    var free := Freed(slot) - Range(0, 1);
    StoresSize(HalfStored(), LIST, free, {1}, 2, D0, QUIET);
    assert HalfStored()[2 := Desc(0, 0, 1, Live)] == Moved(Live);
    Inserts(Moved(Live), LIST, free, {1}, 2, QUIET);
    assert {1} + {0} == {0, 1};
  }

  /** Thread 1 has read offset 0 of descriptor 2. */
  const HALFWAY := Other(Freeing(1), Comparing(LOOK, LIST, 0, 1, true))

  lemma ReadsOffset(free: set<nat>)
    requires Reaches(Scene(Moved(Live), LIST, free, {0, 1}, Resting, Idle, QUIET))
    ensures Reaches(Scene(Moved(Live), LIST, free, {0, 1}, Resting, Idle, HALFWAY))
  {
    var st := Scene(Moved(Live), LIST, free, {0, 1}, Resting, Idle, QUIET);
    assert Usable(Abs(st), 1, 1) && Unmapping(st, 1);
    InSlot(1);
    assert Find(Abs(st), 1) == Some(1) by { FindInThree(Abs(st).descs, 1); }
    var s1 := Then(st, Release(1, 1));
    Same(s1, Moved(Live), LIST, free, {0, 1}, Resting, Idle, Other(Freeing(1), Walking(LOOK, LIST)));
    var s2 := Then(s1, Go(1));
    Same(s2, Moved(Live), LIST, free, {0, 1}, Resting, Idle, HALFWAY);
  }

  lemma FreesMoved(free: set<nat>)
    requires Reaches(Scene(Moved(Live), LIST, free, {0, 1}, Resting, Idle, HALFWAY))
    ensures Reaches(Scene(Moved(Free), LIST, free, {1}, Resting, Idle, HALFWAY))
  {
    FindInThree(Moved(Live), 0);
    Frees(Moved(Live), LIST, free, {0, 1}, 2, 0, HALFWAY);
    assert Moved(Live)[2 := Desc(0, 0, 1, Free)] == Moved(Free) && {0, 1} - {0} == {1};
  }

  lemma LooksOver(free: set<nat>)
    requires Reaches(Scene(Moved(Free), LIST, free, {1}, Resting, Idle, HALFWAY))
    ensures Reaches(Scene(Moved(Safe), LIST, free + Range(0, 1), {1}, Taking(2, Some(0)), Idle, HALFWAY))
  {
    var free' := free + Range(0, 1);
    Asking(Moved(Free), LIST, free, {1}, 2, HALFWAY);
    GivesBack(Moved(Free), LIST, free, {1}, 2, 0, None, HALFWAY);
    assert Moved(Free)[2 := Desc(0, 0, 1, Safe)] == Moved(Safe);
    PassesLive(Moved(Safe), LIST, free', {1}, 2, 1, Some(0), HALFWAY);
    PassesSafe(Moved(Safe), LIST, free', {1}, 2, 2, Some(0), HALFWAY);
    Looked(Moved(Safe), LIST, free', {1}, 2, Some(0), HALFWAY);
  }

  /** Descriptor 2 is overwritten with the range [2, 4). */
  lemma Grows(slot: set<nat>, free: set<nat>)
    requires W.IsSlot(slot) && free == Freed(slot) - Range(0, 1) + Range(0, 1)
    requires Reaches(Scene(Moved(Safe), LIST, free, {1}, Taking(2, Some(0)), Idle, HALFWAY))
    ensures Reaches(Scene([D0.(life := Safe), D1, D2], LIST, free - Range(2, 2), {1}, Inserting(2), Idle, HALFWAY))
  {
    Fits(free, 2, 2);
    Rewrites(Moved(Safe), LIST, free, {1}, 2, 0, 2, HALFWAY);
    var descs := [D0.(life := Safe), D1, Desc(0, 2, 1, Live)];
    assert Moved(Safe)[2 := Desc(0, 2, 1, Live)] == descs;
    StoresSize(descs, LIST, free - Range(2, 2), {1}, 2, D2, HALFWAY);
    assert descs[2 := D2] == [D0.(life := Safe), D1, D2];
  }

  /**
  The other way to go wrong: descriptor 2 is freed and overwritten between the two loads, and the old offset with the
  new size covers offset 1. Nothing was ever being stored when the lookup looked.
  */
  lemma FreesGrown() returns (st: Machine)
    ensures Reaches(st) && |st.mem.threads| == |st.work| == 2 && Torn(st, 1)
    ensures LookOf(st.work[1]) == Some(Look(1, true, 1)) && st.work[1].whole && st.work[0] == Idle
    ensures st.mem.threads[0].pc == Inserting(2) && st.mem.descs == [D0.(life := Safe), D1, D2]
    ensures Act(st, Go(1)).Some? && |Act(st, Go(1)).value.mem.threads| == 2
    ensures Act(st, Go(1)).value.mem.threads[1].pc == Freeing(2)
  {
    var slot := W.SlotExists(SLOT_SIZE);
    HandedOut(slot);
    var free := Freed(slot) - Range(0, 1);
    ReadsOffset(free);
    FreesMoved(free);
    LooksOver(free);
    Grows(slot, free + Range(0, 1));
    st := Scene([D0.(life := Safe), D1, D2], LIST, free + Range(0, 1) - Range(2, 2), {1}, Inserting(2), Idle, HALFWAY);
  }
}
