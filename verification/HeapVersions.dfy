/** Where fresh tags come from: announcements that no older tag has disturbed. */
module HeapVersions {
  import opened Options
  import opened Heap
  import opened HeapInvariant
  import opened HeapRuns
  import opened HeapTheorems
  import opened HeapTags
  import Cas = DetectableCas

  /** Thread `t` starts an update. */
  predicate Announcing(pc: Pc) {
    pc.GlobalLoad? || pc.BumpLoad? || pc.PushLoad? || pc.RemoteLoad?
  }

  /** It does so with the entry its last announcement left, and before versions wrap around. */
  predicate InTurn(th: Thread) {
    th.entry == th.version && th.version + 1 < Cas.VERSIONS
  }

  /** Every announcement of the run is made in turn (see Announcements.DifferentIff). */
  ghost predicate AllInTurn(states: seq<State>, actions: seq<Action>)
    requires |states| == |actions| + 1
  {
    forall i :: 0 <= i < |actions| && actions[i].Continue? && actions[i].t < |states[i].threads|
                && Announcing(states[i].threads[actions[i].t].pc) ==>
      InTurn(states[i].threads[actions[i].t])
  }

  /** An update of the head that has not taken effect. */
  predicate Swapping(pc: Pc) {
    pc.GlobalNext? || pc.GlobalCas? || pc.PushLink? || pc.PushCas?
  }

  /** A tag of a thread is not newer than its version, and older while the thread is swapping the head. */
  ghost predicate TagOld(threads: seq<Thread>, cell: Head) {
    cell.id.Some? && cell.id.value < |threads| ==>
      var th := threads[cell.id.value];
      cell.version <= th.version && (Swapping(th.pc) ==> cell.version < th.version)
  }

  ghost predicate TagsOld(st: State) {
    && TagOld(st.threads, st.head)
    && forall u :: 0 <= u < |st.threads| && Swapping(st.threads[u].pc) ==> TagOld(st.threads, st.threads[u].pc.seen)
  }

  /** What a step does to the moving thread's version, place and memory of the head. */
  ghost predicate Turns(st: State, r: Option<State>, t: Tid)
    requires t < |st.threads|
  {
    r.Some? ==>
      && t < |r.value.threads|
      && var th, th' := st.threads[t], r.value.threads[t];
         && (!Announcing(th.pc) ==> th'.version == th.version && (Swapping(th'.pc) ==> Swapping(th.pc)))
         && (Announcing(th.pc) && InTurn(th) ==> th'.version == th.version + 1)
         && (Swapping(th'.pc) ==> th'.pc.seen == st.head || (Swapping(th.pc) && th'.pc.seen == th.pc.seen))
  }

  lemma NextInTurn(th: Thread)
    requires InTurn(th)
    ensures Announce(th).version == th.version + 1
  {
  }

  lemma PopTurns(st: State, t: Tid)
    requires t < |st.threads|
    ensures Turns(st, StepPop(st, t), t)
  {
    if InTurn(st.threads[t]) { NextInTurn(st.threads[t]); }
  }

  lemma AdoptTurns(k: Config, st: State, t: Tid)
    requires t < |st.threads|
    ensures Turns(st, StepAdopt(k, st, t), t)
  {}

  lemma ClaimTurns(st: State, t: Tid)
    requires t < |st.threads|
    ensures Turns(st, StepClaim(st, t), t)
  {}

  lemma BumpTurns(k: Config, st: State, t: Tid)
    requires t < |st.threads|
    ensures Turns(st, StepBump(k, st, t), t)
  {
    if InTurn(st.threads[t]) { NextInTurn(st.threads[t]); }
  }

  lemma ServeTurns(k: Config, st: State, t: Tid)
    requires Shaped(k, st) && t < |st.threads|
    ensures Turns(st, StepServe(k, st, t), t)
  {}

  lemma LetGoTurns(k: Config, st: State, t: Tid)
    requires Shaped(k, st) && t < |st.threads|
    ensures Turns(st, StepLetGo(k, st, t), t)
  {}

  lemma ReturnTurns(k: Config, st: State, t: Tid)
    requires Shaped(k, st) && t < |st.threads|
    ensures Turns(st, StepReturn(k, st, t), t)
  {}

  lemma RemoteTurns(st: State, t: Tid)
    requires t < |st.threads|
    ensures Turns(st, StepRemote(st, t), t)
  {
    if InTurn(st.threads[t]) { NextInTurn(st.threads[t]); }
  }

  lemma PushTurns(k: Config, st: State, t: Tid)
    requires Shaped(k, st) && t < |st.threads|
    ensures Turns(st, StepPush(k, st, t), t)
  {
    if InTurn(st.threads[t]) { NextInTurn(st.threads[t]); }
  }

  lemma ThreadTurns(k: Config, st: State, t: Tid)
    requires Shaped(k, st) && t < |st.threads|
    ensures Turns(st, StepThread(k, st, t), t)
  {
    var pc := st.threads[t].pc;
    if IsPopping(pc) { PopTurns(st, t); }
    else if IsAdopting(pc) { AdoptTurns(k, st, t); }
    else if IsClaiming(pc) { ClaimTurns(st, t); }
    else if IsBumping(pc) { BumpTurns(k, st, t); }
    else if IsServing(pc) { ServeTurns(k, st, t); }
    else if IsLettingGo(pc) { LetGoTurns(k, st, t); }
    else if IsReturning(pc) { ReturnTurns(k, st, t); }
    else if IsCountingOff(pc) { RemoteTurns(st, t); }
    else if !pc.Idle? { PushTurns(k, st, t); }
  }

  /** The head stays, or gets the version of a thread that is swapping no longer. */
  lemma HeadTurns(k: Config, st: State, t: Tid)
    requires Shaped(k, st) && t < |st.threads| && StepThread(k, st, t).Some?
    ensures var st' := StepThread(k, st, t).value;
            if WinsHead(st, t) then
              && t < |st'.threads| && st'.head.id == Some(t) && st'.head.version == st.threads[t].version
              && !Swapping(st'.threads[t].pc)
            else st'.head == st.head
  {
    if !WinsHead(st, t) {
      GlobalRests(k, st, t);
    } else if st.threads[t].pc.GlobalCas? {
      PopTakes(st, t);
    } else {
      PushPrepends(k, st, t);
      assert StepPush(k, st, t).value.threads[t].pc.Idle?;
    }
  }

  lemma TagStays(st: State, st': State, t: Tid, cell: Head)
    requires OnlyOne(st, st', t) && Turns(st, Some(st'), t) && TagOld(st.threads, cell)
    requires Announcing(st.threads[t].pc) ==> InTurn(st.threads[t])
    ensures TagOld(st'.threads, cell)
  {
  }

  lemma ThreadTags(k: Config, st: State, t: Tid)
    requires Shaped(k, st) && t < |st.threads| && StepThread(k, st, t).Some? && TagsOld(st)
    requires Announcing(st.threads[t].pc) ==> InTurn(st.threads[t])
    ensures TagsOld(StepThread(k, st, t).value)
  {
    var st' := StepThread(k, st, t).value;
    ThreadSame(k, st, t);
    ThreadTurns(k, st, t);
    HeadTurns(k, st, t);
    TagStays(st, st', t, st.head);
    forall u | 0 <= u < |st'.threads| && Swapping(st'.threads[u].pc)
      ensures TagOld(st'.threads, st'.threads[u].pc.seen)
    {
      if Swapping(st.threads[u].pc) { TagStays(st, st', t, st.threads[u].pc.seen); }
    }
  }

  lemma StepTags(k: Config, st: State, a: Action)
    requires Shaped(k, st) && Enabled(k, st, a) && Step(k, st, a).Some? && TagsOld(st)
    requires a.Continue? && Announcing(st.threads[a.t].pc) ==> InTurn(st.threads[a.t])
    ensures TagsOld(Step(k, st, a).value)
  {
    if a.Continue? { ThreadTags(k, st, a.t); }
  }

  lemma {:induction false} RunsTags(k: Config, n: nat, states: seq<State>, actions: seq<Action>, i: nat)
    requires IsRun(k, n, states, actions) && AllInTurn(states, actions) && i < |states|
    ensures TagsOld(states[i])
  {
    if i > 0 {
      RunsTags(k, n, states, actions, i - 1);
      assert Leads(k, states[i - 1], actions[i - 1], states[i]);
      StepTags(k, states[i - 1], actions[i - 1]);
    }
  }

  /** If every announcement is made in turn, every write of the head carries a fresh tag. */
  lemma InTurnIsFresh(k: Config, n: nat, states: seq<State>, actions: seq<Action>)
    requires IsRun(k, n, states, actions) && AllInTurn(states, actions)
    ensures FreshTags(states, actions)
  {
    forall i | 0 <= i < |actions| && actions[i].Continue? && WinsHead(states[i], actions[i].t)
      ensures FreshTag(states[i], actions[i].t)
    {
      RunsTags(k, n, states, actions, i);
    }
  }

  /** So that the whole run is in order. */
  lemma InTurnRunsKeep(k: Config, n: nat, states: seq<State>, actions: seq<Action>, i: nat)
    requires ValidConfig(k) && IsRun(k, n, states, actions) && AllInTurn(states, actions) && i < |states|
    ensures Inv(k, states[i])
  {
    InTurnIsFresh(k, n, states, actions);
    FreshRunsKeep(k, n, states, actions, i);
  }
}
