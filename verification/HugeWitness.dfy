/** A run of the huge allocator after which a restarted thread hands out memory another thread still has mapped. */
module HugeWitness {
  import opened Options
  import opened Claims
  import opened Huge
  import opened HugeInvariant
  import opened HugeRuns
  import opened HugeFocus

  ghost predicate Reaches(threads: nat, st: State) {
    exists states, acts :: IsRun(states, acts, threads) && states[|acts|] == st
  }

  lemma Start(threads: nat)
    ensures Reaches(threads, Init(threads))
  {
    assert IsRun([Init(threads)], [], threads);
  }

  lemma Then(threads: nat, st: State, a: Action, st': State)
    requires Reaches(threads, st) && Enabled(st, a) && Step(st, a).Some?
    requires var r := Step(st, a).value; r.claims == st'.claims && r.descs == st'.descs && r.threads == st'.threads
    ensures Reaches(threads, st')
  {
    var states, acts :| IsRun(states, acts, threads) && states[|acts|] == st;
    var states', acts' := states + [st'], acts + [a];
    forall n | 0 <= n < |acts'|
      ensures Enabled(states'[n], acts'[n]) && Step(states'[n], acts'[n]) == Some(states'[n + 1])
    {
      if n < |acts| {
        assert states'[n] == states[n] && states'[n + 1] == states[n + 1] && acts'[n] == acts[n];
      }
    }
    assert IsRun(states', acts', threads) && states'[|acts'|] == st';
  }

  /** The offsets of the first slot. */
  ghost predicate IsSlot(slot: set<nat>) {
    forall x :: x in slot <==> 0 <= x < SLOT_SIZE
  }

  /** Thread 0 holds one slot of which it has handed out the first byte; thread 1 has mapped what `mapped` says. */
  function Two(slot: set<nat>, life: Life, mine: set<nat>, pc: Pc, mapped: set<nat>): State {
    State([Claim(0, 1)], [Desc(0, 0, 1, life)],
          [Thread(slot - {0}, [0], mine, pc), Thread({}, [], mapped, Resting)])
  }

  lemma OneByte(slot: set<nat>)
    requires IsSlot(slot)
    ensures Range(0, 1) == {0} && FirstFit(slot, 1, 0) == Some(0)
  {
    assert 0 in slot;
  }

  lemma NothingFits()
    ensures FirstFit({}, 1, 0).None?
  {
    var r := FirstFit({}, 1, 0);
    assert r.Some? ==> r.value in Range(r.value, 1);
  }

  lemma OneSlot(slot: set<nat>)
    requires IsSlot(slot)
    ensures SlotCount(1) == 1 && Range(0 * SLOT_SIZE, 1 * SLOT_SIZE) == slot
  {
  }

  function Alone(pc: Pc, claims: seq<Claim>, free: set<nat>): State {
    State(claims, [], [Thread(free, [], {}, pc), Thread({}, [], {}, Resting)])
  }

  lemma Begins()
    ensures Reaches(2, Alone(Taking(1, None), [], {}))
  {
    Start(2);
    var st := Init(2);
    assert st == Alone(Resting, [], {}) by { assert st.threads == Alone(Resting, [], {}).threads; }
    Then(2, st, Allocate(0, 1), Alone(Reusing(1, 0, 0, None), [], {}));
    Then(2, Alone(Reusing(1, 0, 0, None), [], {}), Go(0), Alone(Taking(1, None), [], {}));
  }

  /** The first allocation claims a slot. */
  lemma ClaimsSlot(slot: set<nat>)
    requires IsSlot(slot)
    ensures Reaches(2, Alone(Taking(1, None), [Claim(0, 1)], slot))
  {
    Begins();
    NothingFits();
    OneSlot(slot);
    var st, st' := Alone(Taking(1, None), [], {}), Alone(Taking(1, None), [Claim(0, 1)], slot);
    assert Step(st, Go(0)) == ClaimStep(st, 0);
    assert {} + slot == slot;
    assert ClaimStep(st, 0).value.threads[0] == st'.threads[0];
    Then(2, st, Go(0), st');
  }

  lemma Allocates(slot: set<nat>)
    requires IsSlot(slot)
    ensures Reaches(2, Two(slot, Live, {}, Inserting(0), {}))
  {
    ClaimsSlot(slot);
    OneByte(slot);
    var st, st' := Alone(Taking(1, None), [Claim(0, 1)], slot), Two(slot, Live, {}, Inserting(0), {});
    assert Step(st, Go(0)) == WriteStep(st, 0, 0);
    assert WriteStep(st, 0, 0).value.threads[0] == st'.threads[0];
    Then(2, st, Go(0), st');
  }

  lemma Found(slot: set<nat>, mine: set<nat>, pc: Pc, mapped: set<nat>)
    requires Handling(pc).None?
    ensures Find(Two(slot, Live, mine, pc, mapped), 0) == Some(0) && Usable(Two(slot, Live, mine, pc, mapped), 0, 0)
  {
  }

  lemma Inserts(slot: set<nat>)
    requires IsSlot(slot)
    ensures Reaches(2, Two(slot, Live, {0}, Resting, {}))
  {
    Allocates(slot);
    var st, st' := Two(slot, Live, {}, Inserting(0), {}), Two(slot, Live, {0}, Resting, {});
    assert {} + {0} == {0};
    assert InsertStep(st, 0, 0).value.threads[0] == st'.threads[0];
    Then(2, st, Go(0), st');
  }

  lemma Mapped(slot: set<nat>)
    requires IsSlot(slot)
    ensures Reaches(2, Two(slot, Live, {0}, Resting, {0}))
  {
    Inserts(slot);
    Found(slot, {0}, Resting, {});
    var st, st' := Two(slot, Live, {0}, Resting, {}), Two(slot, Live, {0}, Resting, {0});
    assert InsertStep(st, 1, 0).value.threads[1] == st'.threads[1];
    Then(2, st, Map(1, 0), st');
  }

  lemma Releases(slot: set<nat>)
    requires IsSlot(slot)
    ensures Reaches(2, Two(slot, Live, {0}, Freeing(0), {0}))
  {
    Mapped(slot);
    Found(slot, {0}, Resting, {0});
    Then(2, Two(slot, Live, {0}, Resting, {0}), Release(0, 0), Two(slot, Live, {0}, Freeing(0), {0}));
  }

  lemma Removes(slot: set<nat>)
    requires IsSlot(slot)
    ensures Reaches(2, Two(slot, Live, {}, Releasing(0), {0}))
  {
    Releases(slot);
    var st, st' := Two(slot, Live, {0}, Freeing(0), {0}), Two(slot, Live, {}, Releasing(0), {0});
    assert {0} - {0} == {};
    assert RemoveStep(st, 0, 0, Releasing(0)).value.threads[0] == st'.threads[0];
    Then(2, st, Go(0), st');
  }

  /** A range that thread 0 has freed and thread 1 has still mapped. */
  lemma Waiting(slot: set<nat>)
    requires IsSlot(slot)
    ensures Reaches(2, Two(slot, Free, {}, Resting, {0}))
  {
    Removes(slot);
    Then(2, Two(slot, Live, {}, Releasing(0), {0}), Go(0), Two(slot, Free, {}, Resting, {0}));
  }

  /** `focus` on thread 0 takes the range for free. */
  lemma Focuses(slot: set<nat>)
    requires IsSlot(slot)
    ensures Rebuilt(Two(slot, Free, {}, Resting, {0}), 0, slot)
  {
    var st := Two(slot, Free, {}, Resting, {0});
    forall x: nat ensures x in slot <==> OwnerOf(st.claims, x) == Some(0) && !LiveAt(st, 0, x) {
    }
  }

  /** Thread 0 starts an allocation of one byte and takes `n` steps of it. */
  function Allocating(st: State, n: nat): Option<State> {
    if |st.threads| == 0 then None
    else if n == 0 then Step(st, Allocate(0, 1))
    else
      var r := Allocating(st, n - 1);
      if r.None? || |r.value.threads| == 0 then None else Step(r.value, Go(0))
  }

  /** Its descriptor is skipped, because thread 1 has it in its hazard array. */
  lemma Skips(slot: set<nat>, st: State)
    requires st == SetFree(Two(slot, Free, {}, Resting, {0}), 0, slot)
    ensures var r := Allocating(st, 3);
            r.Some? && r.value == SetPc(st, 0, Taking(1, None))
  {
    assert Allocating(st, 0) == Some(SetPc(st, 0, Reusing(1, 0, 0, None)));
    assert Allocating(st, 1).value.threads == SetPc(st, 0, Reusing(1, 0, 1, None)).threads;
    assert Allocating(st, 2).value.threads == SetPc(st, 0, Reusing(1, 1, 0, None)).threads;
    assert Allocating(st, 3).value.threads == SetPc(st, 0, Taking(1, None)).threads;
  }

  /** And the first range that fits is its range. */
  lemma Takes(slot: set<nat>, st: State) returns (st': State)
    requires IsSlot(slot) && st == SetFree(Two(slot, Free, {}, Resting, {0}), 0, slot)
    ensures Allocating(st, 4) == Some(st')
    ensures st'.descs == [Desc(0, 0, 1, Free), Desc(0, 0, 1, Live)] && |st'.threads| == 2
    ensures st'.threads[1].hazards == {0}
  {
    Skips(slot, st);
    OneByte(slot);
    var st1 := SetPc(st, 0, Taking(1, None));
    assert Step(st1, Go(0)) == WriteStep(st1, 0, 0);
    st' := WriteStep(st1, 0, 0).value;
  }

  lemma SlotExists(n: nat) returns (slot: set<nat>)
    requires n == SLOT_SIZE
    ensures IsSlot(slot)
  {
    slot := Range(0, n);
  }

  /** Thread 0 restarts after that run, and allocates: it is given the range that thread 1 has mapped. */
  lemma HandsOutMapped() returns (st: State, free: set<nat>, st': State)
    ensures Reaches(2, st) && |st.threads| == 2 && Rebuilt(st, 0, free)
    ensures Allocating(SetFree(st, 0, free), 4) == Some(st')
    ensures |st'.descs| == 2 && Is(st'.descs, 0, Free) && Is(st'.descs, 1, Live) && Overlap(st'.descs[0], st'.descs[1])
    ensures |st'.threads| == 2 && st'.descs[0].offset in st'.threads[1].hazards
  {
    free := SlotExists(SLOT_SIZE);
    st := Two(free, Free, {}, Resting, {0});
    Waiting(free);
    Focuses(free);
    st' := Takes(free, SetFree(st, 0, free));
  }
}
