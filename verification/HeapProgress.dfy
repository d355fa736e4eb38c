/**
Progress. A thread that runs alone finishes whatever it is doing, from every state of every run, after a number of steps
that its place and the cells it looks at give. Another thread adds to that number only by an update that takes effect.
*/
module HeapProgress {
  import opened Options
  import opened Chains
  import opened Heap
  import opened HeapInvariant
  import opened HeapSteps
  import opened HeapRuns
  import opened HeapTheorems

  /** The steps it takes to link a bumped range and hand out a block of it. */
  function Linking(k: Config): nat {
    6 + 2 * k.bumpBatch
  }

  /** How many steps of its own thread `t` needs at most, as things are: one round more for a cell that has changed. */
  function Rank(k: Config, st: State, t: Tid): nat
    requires t < |st.threads|
  {
    var all := Linking(k);
    match st.threads[t].pc
    case Idle => 0
    case Disown(_, _) => 1
    case Detach(_, _, _) => 2
    case Take(_) => 3
    case Refill(_) => 4
    case GlobalSet(_, _) => 5
    case GlobalLink(_, _) => 6
    case GlobalOwn(_, _) => 7
    case BumpSet(_, _) => 5
    case BumpNext(_, _, i) => if i < k.bumpBatch then 5 + 2 * (k.bumpBatch - i) else 0
    case BumpOwn(_, _, i) => if i < k.bumpBatch then 6 + 2 * (k.bumpBatch - i) else 0
    case BumpCas(_, seen) => if st.bump == seen then all + 1 else all + 2
    case BumpLoad(_) => all + 3
    case GlobalCas(_, seen, _) => if st.head == seen then all + 4 else all + 6
    case GlobalNext(_, seen) => if st.head == seen then all + 5 else all + 7
    case GlobalLoad(_) => all + 8
    case GlobalEmpty(_) => all + 9
    case PushCas(_, seen) => if st.head == seen then 1 else 3
    case PushLink(_, seen) => if st.head == seen then 2 else 4
    case PushLoad(_) => 5
    case Spill => 6
    case ClaimSet(_) => 7
    case ClaimLink(_) => 8
    case ClaimSteal(_) => 9
    case Unsize(_, _) => 7
    case FreeLocal(_, _) => 8
    case RemoteDone(_) => 1
    case RemoteCas(s, _, seen) => if s < |st.slabs| && st.slabs[s].remote == seen then 10 else 11
    case RemoteLoad(_, _) => 12
    case FreeOwner(_, _) => 13
  }

  ghost predicate Descends(k: Config, st: State, r: Option<State>, t: Tid)
    requires t < |st.threads|
  {
    r.Some? ==> t < |r.value.threads| && Rank(k, r.value, t) < Rank(k, st, t)
  }

  lemma PopDescends(k: Config, st: State, t: Tid)
    requires Shaped(k, st) && t < |st.threads| && IsPopping(st.threads[t].pc)
    ensures Descends(k, st, StepPop(st, t), t)
  {}

  lemma AdoptDescends(k: Config, st: State, t: Tid)
    requires Shaped(k, st) && t < |st.threads| && IsAdopting(st.threads[t].pc)
    ensures Descends(k, st, StepAdopt(k, st, t), t)
  {}

  lemma ClaimDescends(k: Config, st: State, t: Tid)
    requires Shaped(k, st) && t < |st.threads| && IsClaiming(st.threads[t].pc)
    ensures Descends(k, st, StepClaim(st, t), t)
  {}

  lemma BumpIndex(k: Config, st: State, t: Tid)
    requires Inv(k, st) && t < |st.threads| && (st.threads[t].pc.BumpOwn? || st.threads[t].pc.BumpNext?)
    ensures st.threads[t].pc.i < k.bumpBatch
  {
    Self(k, st, t);
  }

  lemma BumpDescends(k: Config, st: State, t: Tid)
    requires Shaped(k, st) && t < |st.threads| && IsBumping(st.threads[t].pc)
    requires var pc := st.threads[t].pc; pc.BumpOwn? || pc.BumpNext? ==> pc.i < k.bumpBatch
    ensures Descends(k, st, StepBump(k, st, t), t)
  {}

  lemma ServeDescends(k: Config, st: State, t: Tid)
    requires Shaped(k, st) && t < |st.threads| && IsServing(st.threads[t].pc)
    ensures Descends(k, st, StepServe(k, st, t), t)
  {}

  lemma LetGoDescends(k: Config, st: State, t: Tid)
    requires Shaped(k, st) && t < |st.threads| && IsLettingGo(st.threads[t].pc)
    ensures Descends(k, st, StepLetGo(k, st, t), t)
  {}

  lemma RankFixed(k: Config, st: State, t: Tid)
    requires t < |st.threads|
    ensures var pc, rank := st.threads[t].pc, Rank(k, st, t);
            && (pc.Idle? ==> rank == 0) && (pc.PushLoad? ==> rank == 5) && (pc.Spill? ==> rank == 6)
            && (pc.Unsize? ==> rank == 7) && (pc.FreeLocal? ==> rank == 8) && (pc.RemoteLoad? ==> rank == 12)
            && (pc.FreeOwner? ==> rank == 13)
  {
  }

  lemma ReturnGoes(k: Config, st: State, t: Tid)
    requires Shaped(k, st) && t < |st.threads| && IsReturning(st.threads[t].pc) && StepReturn(k, st, t).Some?
    ensures var st' := StepReturn(k, st, t).value;
            && |st'.threads| == |st.threads|
            && var pc, pc' := st.threads[t].pc, st'.threads[t].pc;
               && (pc.FreeOwner? ==> pc'.FreeLocal? || pc'.RemoteLoad?)
               && (pc.FreeLocal? ==> pc'.Unsize? || pc'.Idle?) && (pc.Unsize? ==> pc'.Spill?)
  {
  }

  lemma ReturnDescends(k: Config, st: State, t: Tid)
    requires Shaped(k, st) && t < |st.threads| && IsReturning(st.threads[t].pc)
    ensures Descends(k, st, StepReturn(k, st, t), t)
  {
    if StepReturn(k, st, t).Some? {
      ReturnGoes(k, st, t);
      RankFixed(k, st, t);
      RankFixed(k, StepReturn(k, st, t).value, t);
    }
  }

  lemma RemoteDescends(k: Config, st: State, t: Tid)
    requires Shaped(k, st) && t < |st.threads| && IsCountingOff(st.threads[t].pc)
    ensures Descends(k, st, StepRemote(st, t), t)
  {}

  lemma SpillGoes(k: Config, st: State, t: Tid)
    requires Shaped(k, st) && t < |st.threads| && StepSpill(k, st, t).Some?
    ensures var st' := StepSpill(k, st, t).value;
            |st'.threads| == |st.threads| && (st'.threads[t].pc.Idle? || st'.threads[t].pc.PushLoad?)
  {
    if st.threads[t].unsized.len > k.cacheSlabs {
      var st' := StepSpill(k, st, t).value;
      assert st'.threads[t].pc == PushLoad(Trace(st.next, st.threads[t].unsized.head, k.pushBatch));
    }
  }

  lemma SpillDescends(k: Config, st: State, t: Tid)
    requires Shaped(k, st) && t < |st.threads| && st.threads[t].pc.Spill?
    ensures Descends(k, st, StepSpill(k, st, t), t)
  {
    if StepSpill(k, st, t).Some? {
      SpillGoes(k, st, t);
      RankFixed(k, StepSpill(k, st, t).value, t);
    }
  }

  lemma PushDescends(k: Config, st: State, t: Tid)
    requires Shaped(k, st) && t < |st.threads|
    requires var pc := st.threads[t].pc; pc.Spill? || pc.PushLoad? || pc.PushLink? || pc.PushCas?
    ensures Descends(k, st, StepPush(k, st, t), t)
  {
    if st.threads[t].pc.Spill? { SpillDescends(k, st, t); }
  }

  /** Every step of its own brings a thread nearer to the end of its operation. */
  lemma ThreadDescends(k: Config, st: State, t: Tid)
    requires Inv(k, st) && t < |st.threads| && !st.threads[t].pc.Idle?
    ensures Descends(k, st, StepThread(k, st, t), t)
  {
    var pc := st.threads[t].pc;
    if IsPopping(pc) { PopDescends(k, st, t); }
    else if IsAdopting(pc) { AdoptDescends(k, st, t); }
    else if IsClaiming(pc) { ClaimDescends(k, st, t); }
    else if IsBumping(pc) {
      if pc.BumpOwn? || pc.BumpNext? { BumpIndex(k, st, t); }
      BumpDescends(k, st, t);
    }
    else if IsServing(pc) { ServeDescends(k, st, t); }
    else if IsLettingGo(pc) { LetGoDescends(k, st, t); }
    else if IsReturning(pc) { ReturnDescends(k, st, t); }
    else if IsCountingOff(pc) { RemoteDescends(k, st, t); }
    else { PushDescends(k, st, t); }
  }

  /** Thread `t` alone moves in steps `i` up to the end. */
  ghost predicate AloneFrom(actions: seq<Action>, t: Tid, i: nat) {
    forall j :: i <= j < |actions| ==> actions[j] == Continue(t)
  }

  lemma AloneStep(k: Config, n: nat, states: seq<State>, actions: seq<Action>, t: Tid, i: nat)
    requires ValidConfig(k) && IsRun(k, n, states, actions) && NoStalePop(states, actions)
    requires i < |actions| && actions[i] == Continue(t) && t < |states[i].threads| && !states[i].threads[t].pc.Idle?
    ensures t < |states[i + 1].threads| && Rank(k, states[i + 1], t) < Rank(k, states[i], t)
  {
    RunsKeep(k, n, states, actions, i);
    assert Leads(k, states[i], actions[i], states[i + 1]);
    ThreadDescends(k, states[i], t);
  }

  /** A thread that runs alone from any state of a run on is idle after at most as many steps as its rank. */
  lemma {:induction false} AloneFinishes(k: Config, n: nat, states: seq<State>, actions: seq<Action>, t: Tid, i: nat)
    returns (j: nat)
    requires ValidConfig(k) && IsRun(k, n, states, actions) && NoStalePop(states, actions)
    requires i <= |actions| && AloneFrom(actions, t, i) && t < |states[i].threads|
    requires |actions| - i >= Rank(k, states[i], t)
    ensures i <= j <= i + Rank(k, states[i], t) <= |actions| && t < |states[j].threads| && states[j].threads[t].pc.Idle?
    decreases |actions| - i
  {
    if states[i].threads[t].pc.Idle? {
      j := i;
    } else {
      BusyRank(k, n, states, actions, t, i);
      AloneStep(k, n, states, actions, t, i);
      j := AloneFinishes(k, n, states, actions, t, i + 1);
    }
  }

  /** A thread in the middle of an operation has steps left. */
  lemma BusyRank(k: Config, n: nat, states: seq<State>, actions: seq<Action>, t: Tid, i: nat)
    requires ValidConfig(k) && IsRun(k, n, states, actions) && NoStalePop(states, actions)
    requires i < |states| && t < |states[i].threads| && !states[i].threads[t].pc.Idle?
    ensures Rank(k, states[i], t) > 0
  {
    RunsKeep(k, n, states, actions, i);
    Self(k, states[i], t);
  }

  /** The cells on which the rank of a thread depends. */
  predicate SameCells(st: State, st': State) {
    && st'.head == st.head && st'.bump == st.bump && |st.slabs| <= |st'.slabs|
    && forall s :: 0 <= s < |st.slabs| ==> st'.slabs[s].remote == st.slabs[s].remote
  }

  lemma RankSame(k: Config, st: State, st': State, t: Tid)
    requires t < |st.threads| && t < |st'.threads| && st'.threads[t] == st.threads[t] && SameCells(st, st')
    requires st.threads[t].pc.RemoteCas? ==> st.threads[t].pc.s < |st.slabs|
    ensures Rank(k, st', t) == Rank(k, st, t)
  {
  }

  lemma OtherStays(k: Config, st: State, a: Action, t: Tid)
    requires Shaped(k, st) && Enabled(k, st, a) && a.t != t && t < |st.threads| && Step(k, st, a).Some?
    ensures t < |Step(k, st, a).value.threads| && Step(k, st, a).value.threads[t] == st.threads[t]
  {
    if a.Continue? { ThreadSame(k, st, a.t); }
  }

  lemma CountedIsThere(k: Config, st: State, t: Tid)
    requires Inv(k, st) && t < |st.threads| && st.threads[t].pc.RemoteCas?
    ensures st.threads[t].pc.s < |st.slabs|
  {
    Self(k, st, t);
  }

  /** Another thread's step adds to the work of thread `t` only by writing one of the cells. */
  lemma OthersLeaveRank(k: Config, st: State, a: Action, t: Tid)
    requires Inv(k, st) && Enabled(k, st, a) && a.t != t && t < |st.threads| && Step(k, st, a).Some?
    requires SameCells(st, Step(k, st, a).value)
    ensures t < |Step(k, st, a).value.threads| && Rank(k, Step(k, st, a).value, t) == Rank(k, st, t)
  {
    OtherStays(k, st, a, t);
    if st.threads[t].pc.RemoteCas? { CountedIsThere(k, st, t); }
    RankSame(k, st, Step(k, st, a).value, t);
  }
}
