/** Claims of consecutive slots, laid out one after the other from slot 0. */
module Claims {
  import opened Options

  type Tid = nat

  const SLOT_SIZE := 0x4000_0000

  datatype Claim = Claim(id: Tid, count: nat)

  /** How many slots it takes to hold `size` bytes. */
  function SlotCount(size: nat): (n: nat)
    ensures size <= n * SLOT_SIZE < size + SLOT_SIZE
  {
    (size + SLOT_SIZE - 1) / SLOT_SIZE
  }

  /** All claims but the last. */
  function Front(claims: seq<Claim>): seq<Claim>
    requires claims != []
  {
    claims[..|claims| - 1]
  }

  /** The number of slots claimed. */
  function Total(claims: seq<Claim>): nat {
    if claims == [] then 0 else Total(Front(claims)) + claims[|claims| - 1].count
  }

  /** The claim that starts at slot `i`, when claims are laid out one after the other. */
  function At(claims: seq<Claim>, i: nat): Option<Claim> {
    if claims == [] then None
    else if i == Total(Front(claims)) then Some(claims[|claims| - 1])
    else At(Front(claims), i)
  }

  /** `b` is where some claim starts or where the last one ends. */
  predicate OnBoundary(claims: seq<Claim>, b: nat) {
    b == Total(claims) || (claims != [] && OnBoundary(Front(claims), b))
  }

  predicate Positive(claims: seq<Claim>) {
    forall k :: 0 <= k < |claims| ==> claims[k].count > 0
  }

  lemma {:induction false} BoundaryIn(claims: seq<Claim>, b: nat)
    requires Positive(claims) && OnBoundary(claims, b)
    ensures b <= Total(claims)
    ensures b < Total(claims) ==> At(claims, b).Some? && OnBoundary(claims, b + At(claims, b).value.count)
    ensures b == Total(claims) ==> At(claims, b).None?
    decreases |claims|
  {
    if claims != [] {
      var f := Front(claims);
      if b == Total(claims) {
        AtBeyond(claims, b);
      } else {
        BoundaryIn(f, b);
        assert OnBoundary(claims, Total(claims));
      }
    }
  }

  lemma {:induction false} AtBeyond(claims: seq<Claim>, i: nat)
    requires Positive(claims) && i >= Total(claims)
    ensures At(claims, i).None?
    decreases |claims|
  {
    if claims != [] {
      AtBeyond(Front(claims), i);
    }
  }

  lemma {:induction false} BoundaryGrows(claims: seq<Claim>, c: Claim, b: nat)
    requires OnBoundary(claims, b)
    ensures OnBoundary(claims + [c], b)
  {
    assert Front(claims + [c]) == claims;
  }

  /** The claim covering slot `s`, if any. */
  function Covering(claims: seq<Claim>, s: nat): (c: Option<Claim>)
    ensures c.Some? <==> s < Total(claims)
  {
    if claims == [] || s >= Total(claims) then None
    else if s >= Total(Front(claims)) then Some(claims[|claims| - 1])
    else Covering(Front(claims), s)
  }

  /** The last claim that starts at or below slot `s`. */
  function Below(claims: seq<Claim>, s: nat): Option<Claim> {
    if claims == [] then None
    else if s >= Total(Front(claims)) then Some(claims[|claims| - 1])
    else Below(Front(claims), s)
  }

  lemma {:induction false} BelowStep(claims: seq<Claim>, s: nat)
    requires Positive(claims)
    ensures At(claims, s).Some? ==> Below(claims, s) == At(claims, s)
    ensures At(claims, s).None? ==> Below(claims, s) == if s == 0 then None else Below(claims, s - 1)
    decreases |claims|
  {
    if claims != [] {
      BelowStep(Front(claims), s);
      if s > Total(Front(claims)) {
        AtBeyond(Front(claims), s);
      }
    }
  }

  /** A slot below the end of the claims is covered, and by the last claim that starts at or below it. */
  lemma {:induction false} BelowCovers(claims: seq<Claim>, s: nat)
    requires s < Total(claims)
    ensures Covering(claims, s).Some? && Below(claims, s) == Covering(claims, s)
    decreases |claims|
  {
    if s < Total(Front(claims)) {
      BelowCovers(Front(claims), s);
    }
  }

  /** Past the end of the claims, looking down finds the last claim although nobody covers the slot. */
  lemma BelowBeyond(claims: seq<Claim>, s: nat)
    requires s >= Total(claims) && claims != []
    ensures Covering(claims, s).None? && Below(claims, s) == Some(claims[|claims| - 1])
  {
  }
}

/**
Slots of the huge region: a fixed array in which threads claim consecutive slots without locks. A claimer starts at a
hint that may be out of date, tries to put its claim on that slot, and on losing hops over the claim it found there.

Every load, compare-and-swap and store is one step. `claims` is auxiliary: the successful claims in order.
*/
module HugeSlots {
  import opened Options
  import opened Claims

  datatype Pc =
    | Idle
    | Probing(i: nat, count: nat)
    | Publishing(next: nat)
    | Exhausted

  datatype State = State(slots: seq<Option<Claim>>, hint: nat, pcs: seq<Pc>, claims: seq<Claim>)

  datatype Action = Start(t: Tid, size: nat) | Continue(t: Tid)

  /** One step of a thread; `None` when the action does not apply. */
  function Step(st: State, a: Action): Option<State> {
    if a.t >= |st.pcs| then None else
    var pc := st.pcs[a.t];
    match a
    case Start(t, size) =>
      if !pc.Idle? || size == 0 then None
      else Some(st.(pcs := st.pcs[t := Probing(st.hint, SlotCount(size))]))
    case Continue(t) =>
      if pc.Publishing? then Some(st.(hint := pc.next, pcs := st.pcs[t := Idle]))
      else if !pc.Probing? then None
      else if pc.i + pc.count > |st.slots| || pc.i >= |st.slots| then Some(st.(pcs := st.pcs[t := Exhausted]))
      else match st.slots[pc.i]
           case None =>
             var c := Claim(t, pc.count);
             Some(st.(slots := st.slots[pc.i := Some(c)], claims := st.claims + [c],
                      pcs := st.pcs[t := Publishing(pc.i + pc.count)]))
           case Some(c) => Some(st.(pcs := st.pcs[t := Probing(pc.i + c.count, pc.count)]))
  }

  function Init(slots: nat, threads: nat): State {
    State(seq(slots, _ => None), 0, seq(threads, _ => Idle), [])
  }

  // What the slots say about the claims

  /** The slot array holds exactly the claims, end to end from slot 0. */
  ghost predicate Tiles(slots: seq<Option<Claim>>, claims: seq<Claim>) {
    && Positive(claims)
    && Total(claims) <= |slots|
    && forall i :: 0 <= i < |slots| ==> slots[i] == At(claims, i)
  }

  ghost predicate PcOK(pc: Pc, claims: seq<Claim>) {
    && (pc.Probing? ==> pc.count > 0 && OnBoundary(claims, pc.i))
    && (pc.Publishing? ==> OnBoundary(claims, pc.next))
  }

  ghost predicate Inv(st: State) {
    && Tiles(st.slots, st.claims)
    && OnBoundary(st.claims, st.hint)
    && forall t :: 0 <= t < |st.pcs| ==> PcOK(st.pcs[t], st.claims)
  }

  /** A claim succeeds only at the end of the claims there are, and keeps them tiled. */
  lemma ClaimTiles(slots: seq<Option<Claim>>, claims: seq<Claim>, c: Claim, i: nat)
    requires Tiles(slots, claims) && OnBoundary(claims, i) && i + c.count <= |slots| && i < |slots|
    requires c.count > 0 && slots[i].None?
    ensures i == Total(claims)
    ensures Tiles(slots[i := Some(c)], claims + [c]) && OnBoundary(claims + [c], i + c.count)
  {
    BoundaryIn(claims, i);
    assert Front(claims + [c]) == claims;
  }

  lemma StepKeeps(st: State, a: Action)
    requires Inv(st) && Step(st, a).Some?
    ensures Inv(Step(st, a).value)
  {
    var st' := Step(st, a).value;
    var pc := st.pcs[a.t];
    assert PcOK(pc, st.claims);
    if st'.claims != st.claims {
      var c := Claim(a.t, pc.count);
      ClaimTiles(st.slots, st.claims, c, pc.i);
      BoundaryGrows(st.claims, c, st.hint);
      forall t | 0 <= t < |st'.pcs| && t != a.t ensures PcOK(st'.pcs[t], st'.claims) {
        assert PcOK(st.pcs[t], st.claims);
        if st.pcs[t].Probing? {
          BoundaryGrows(st.claims, c, st.pcs[t].i);
        } else if st.pcs[t].Publishing? {
          BoundaryGrows(st.claims, c, st.pcs[t].next);
        }
      }
    } else if pc.Probing? && a.Continue? && pc.i < |st.slots| {
      BoundaryIn(st.claims, pc.i);
      AtBeyond(st.claims, Total(st.claims));
    }
  }

  ghost predicate IsRun(states: seq<State>, acts: seq<Action>, slots: nat, threads: nat) {
    && |states| == |acts| + 1
    && states[0] == Init(slots, threads)
    && forall n :: 0 <= n < |acts| ==> Step(states[n], acts[n]) == Some(states[n + 1])
  }

  /** In every reachable state the claims tile a prefix of the slots, and the hint and every cursor is on a boundary. */
  lemma {:induction false} RunsTile(states: seq<State>, acts: seq<Action>, slots: nat, threads: nat, n: nat)
    requires IsRun(states, acts, slots, threads) && n < |states|
    ensures Inv(states[n]) && |states[n].slots| == slots
  {
    if n > 0 {
      var m := n - 1;
      RunsTile(states, acts, slots, threads, m);
      assert Step(states[m], acts[m]) == Some(states[m + 1]);
      StepKeeps(states[m], acts[m]);
    }
  }

  /**
  Claiming is atomic: a step either leaves the claims alone or appends one claim of the stepping thread, whose first
  slot is the end of those before.
  */
  lemma ClaimRefines(st: State, a: Action)
    requires Inv(st) && Step(st, a).Some?
    ensures var st' := Step(st, a).value;
            || (st'.claims == st.claims && st'.slots == st.slots)
            || (&& st.pcs[a.t].Probing? && st.pcs[a.t].i == Total(st.claims)
                && st'.claims == st.claims + [Claim(a.t, st.pcs[a.t].count)]
                && Total(st'.claims) <= |st'.slots|)
  {
    var st' := Step(st, a).value;
    var pc := st.pcs[a.t];
    assert PcOK(pc, st.claims);
    if st'.claims != st.claims {
      ClaimTiles(st.slots, st.claims, Claim(a.t, pc.count), pc.i);
    }
  }

  // A claim, from its start to its end

  /** Between state `m`, where thread `t` starts to claim `size` bytes, and state `n` the thread has not been idle. */
  ghost predicate Claiming(states: seq<State>, acts: seq<Action>, t: Tid, size: nat, m: nat, n: nat) {
    && m < n < |states| == |acts| + 1 && acts[m] == Start(t, size)
    && forall j :: m < j < n ==> t < |states[j].pcs| && !states[j].pcs[t].Idle?
  }

  /** The claims thread `t` has appended in steps `m` up to `n`. */
  ghost function Appended(states: seq<State>, acts: seq<Action>, t: Tid, m: nat, n: nat): seq<Claim>
    requires m <= n < |states| == |acts| + 1
  {
    if n == m then []
    else
      var j := n - 1;
      Appended(states, acts, t, m, j) +
      if acts[j].t == t && |states[j].claims| < |states[n].claims| then states[n].claims[|states[j].claims|..] else []
  }

  /** Where a claim of thread `t` for `count` slots is, started when the hint was `hint`. */
  ghost predicate ClaimAt(st: State, t: Tid, count: nat, hint: nat, appended: seq<Claim>) {
    && t < |st.pcs|
    && match st.pcs[t]
       case Probing(i, n) => n == count && hint <= i && appended == []
       case Publishing(next) => appended == [Claim(t, count)] && hint + count <= next
       case Exhausted => appended == [] && Total(st.claims) + count > |st.slots|
       case Idle => appended == [Claim(t, count)]
  }

  lemma ClaimStepsOwn(st: State, t: Tid, count: nat, hint: nat, appended: seq<Claim>)
    requires Inv(st) && Step(st, Continue(t)).Some? && ClaimAt(st, t, count, hint, appended) && !st.pcs[t].Idle?
    ensures var st' := Step(st, Continue(t)).value;
            if |st.claims| < |st'.claims| then
              && st'.claims[|st.claims|..] == [Claim(t, count)] && appended == []
              && ClaimAt(st', t, count, hint, [Claim(t, count)])
            else ClaimAt(st', t, count, hint, appended)
  {
    assert PcOK(st.pcs[t], st.claims);
    if st.pcs[t].Probing? {
      BoundaryIn(st.claims, st.pcs[t].i);
    }
  }

  lemma ClaimStepsOther(st: State, a: Action, t: Tid, count: nat, hint: nat, appended: seq<Claim>)
    requires Inv(st) && Step(st, a).Some? && a.t != t && ClaimAt(st, t, count, hint, appended)
    ensures ClaimAt(Step(st, a).value, t, count, hint, appended)
  {
    var st' := Step(st, a).value;
    if st'.claims != st.claims {
      assert Front(st'.claims) == st.claims;
    }
  }

  /**
  From start to end a claim for `size` bytes appends nothing, or once the claim `Huge.ClaimStep` appends: as many slots
  as the bytes need and no more. It does so by the time the thread is idle again, and otherwise has given up for want of
  room; no slot below the hint is tried.
  */
  lemma {:induction false} ClaimsSize(states: seq<State>, acts: seq<Action>, slots: nat, threads: nat, t: Tid,
                                      size: nat, m: nat, n: nat)
    requires IsRun(states, acts, slots, threads) && Claiming(states, acts, t, size, m, n)
    ensures ClaimAt(states[n], t, SlotCount(size), states[m].hint, Appended(states, acts, t, m, n))
    ensures size <= SlotCount(size) * SLOT_SIZE < size + SLOT_SIZE
    decreases n
  {
    var j := n - 1;
    RunsTile(states, acts, slots, threads, j);
    assert Step(states[j], acts[j]) == Some(states[j + 1]);
    if j == m {
      assert Appended(states, acts, t, m, m) == [];
    } else {
      ClaimsSize(states, acts, slots, threads, t, size, m, j);
      var sofar := Appended(states, acts, t, m, j);
      assert sofar + [] == sofar && [] + [Claim(t, SlotCount(size))] == [Claim(t, SlotCount(size))];
      if acts[j].t == t {
        assert acts[j] == Continue(t);
        ClaimStepsOwn(states[j], t, SlotCount(size), states[m].hint, sofar);
      } else {
        ClaimStepsOther(states[j], acts[j], t, SlotCount(size), states[m].hint, sofar);
      }
    }
  }

  /** The hint that is published is the end of the claim. */
  lemma HintIsEnd(st: State, a: Action)
    requires Inv(st) && Step(st, a).Some? && |st.claims| < |Step(st, a).value.claims|
    ensures Step(st, a).value.pcs[a.t] == Publishing(Total(Step(st, a).value.claims))
  {
    ClaimRefines(st, a);
    assert Front(Step(st, a).value.claims) == st.claims;
  }

  /** A claimer gives up only when there really is no room behind the claims it has seen. */
  lemma GivesUp(st: State, a: Action)
    requires Inv(st) && a.Continue? && Step(st, a).Some? && st.pcs[a.t].Probing?
    requires Step(st, a).value.pcs[a.t].Exhausted?
    ensures Total(st.claims) + st.pcs[a.t].count > |st.slots|
  {
    assert PcOK(st.pcs[a.t], st.claims);
    BoundaryIn(st.claims, st.pcs[a.t].i);
  }

  // Looking up the owner of a slot

  /** `Shared::find`: walk down from the slot of the offset to the first claimed slot. */
  method Find(slots: seq<Option<Claim>>, offset: nat, ghost claims: seq<Claim>) returns (owner: Option<Tid>)
    requires Tiles(slots, claims)
    ensures offset / SLOT_SIZE >= |slots| ==> owner == None
    ensures offset / SLOT_SIZE < Total(claims) ==> owner == Some(Covering(claims, offset / SLOT_SIZE).value.id)
    ensures Total(claims) <= offset / SLOT_SIZE < |slots| ==>
              owner == if claims == [] then None else Some(claims[|claims| - 1].id)
  {
    var slot: nat := offset / SLOT_SIZE;
    ghost var s := slot;
    if slot >= |slots| {
      return None;
    }
    if slot < Total(claims) {
      BelowCovers(claims, slot);
    }
    BelowStep(claims, slot);
    while slots[slot].None?
      invariant slot < |slots|
      invariant Below(claims, slot) == Below(claims, s)
      decreases slot
    {
      BelowStep(claims, slot);
      if slot == 0 {
        return None;
      }
      slot := slot - 1;
    }
    BelowStep(claims, slot);
    owner := Some(slots[slot].value.id);
  }
}
