/** Building runs step by step: which states are reached from empty memory without an outdated pop. */
module HeapReach {
  import opened Options
  import opened Heap
  import opened HeapInvariant
  import opened HeapRuns
  import opened HeapTheorems

  /** Some run of `n` threads without an outdated pop ends in `st`. */
  ghost predicate Reaches(k: Config, n: nat, st: State) {
    exists states, actions :: IsRun(k, n, states, actions) && NoStalePop(states, actions) && states[|actions|] == st
  }

  lemma Start(k: Config, n: nat)
    ensures Reaches(k, n, Init(k, n))
  {
    assert IsRun(k, n, [Init(k, n)], []) && NoStalePop([Init(k, n)], []);
  }

  lemma Extend(k: Config, n: nat, states: seq<State>, actions: seq<Action>, a: Action, st': State)
    requires IsRun(k, n, states, actions) && Shaped(k, states[|actions|]) && Enabled(k, states[|actions|], a)
    requires Step(k, states[|actions|], a) == Some(st')
    ensures IsRun(k, n, states + [st'], actions + [a])
    ensures NoStalePop(states, actions) && !Stale(states[|actions|], a) ==> NoStalePop(states + [st'], actions + [a])
  {
    var states', actions' := states + [st'], actions + [a];
    forall i | 0 <= i < |actions'|
      ensures Shaped(k, states'[i]) && Enabled(k, states'[i], actions'[i])
      ensures Step(k, states'[i], actions'[i]) == Some(states'[i + 1])
    {
      if i < |actions| {
        assert states'[i] == states[i] && states'[i + 1] == states[i + 1] && actions'[i] == actions[i];
      }
    }
  }

  /** Any enabled action of a state that is reached goes through, also an outdated pop. */
  lemma Beyond(k: Config, n: nat, st: State, a: Action) returns (states: seq<State>, actions: seq<Action>)
    requires ValidConfig(k) && Reaches(k, n, st) && Enabled(k, st, a)
    ensures IsRun(k, n, states, actions)
    ensures Shaped(k, st) && Step(k, st, a) == Some(states[|actions|])
  {
    states, actions :| IsRun(k, n, states, actions) && NoStalePop(states, actions) && states[|actions|] == st;
    RunsKeep(k, n, states, actions, |actions|);
    StepKeeps(k, st, a);
    var st' := Step(k, st, a).value;
    Extend(k, n, states, actions, a, st');
    states, actions := states + [st'], actions + [a];
  }

  lemma Then(k: Config, n: nat, st: State, a: Action) returns (st': State)
    requires ValidConfig(k) && Reaches(k, n, st) && Enabled(k, st, a) && !Stale(st, a)
    ensures Shaped(k, st) && Step(k, st, a) == Some(st') && Reaches(k, n, st') && Shaped(k, st')
  {
    var states, actions :| IsRun(k, n, states, actions) && NoStalePop(states, actions) && states[|actions|] == st;
    RunsKeep(k, n, states, actions, |actions|);
    StepKeeps(k, st, a);
    st' := Step(k, st, a).value;
    Extend(k, n, states, actions, a, st');
    assert (states + [st'])[|actions + [a]|] == st';
  }

  ghost predicate Ready(k: Config, n: nat, st: State, t: Tid) {
    ValidConfig(k) && Reaches(k, n, st) && t < |st.threads|
  }

  /** The next step of thread `t`, which does not touch the records of the others. */
  lemma Go(k: Config, n: nat, st: State, t: Tid) returns (st': State)
    requires Ready(k, n, st, t) && !Outdated(st, t)
    ensures Ready(k, n, st', t) && Shaped(k, st) && StepThread(k, st, t) == Some(st') && Shaped(k, st')
    ensures OnlyOne(st, st', t)
  {
    st' := Then(k, n, st, Continue(t));
    ThreadSame(k, st, t);
  }

  // One step at a time: the step a thread takes is the one its program counter names

  lemma GoGlobalEmpty(k: Config, n: nat, st: State, t: Tid) returns (st': State)
    requires Ready(k, n, st, t) && st.threads[t].pc.GlobalEmpty?
    ensures StepGlobalEmpty(st, t, st.threads[t].pc.cls) == Some(st') && Ready(k, n, st', t)
  {
    st' := Go(k, n, st, t);
  }

  lemma GoGlobalLoad(k: Config, n: nat, st: State, t: Tid) returns (st': State)
    requires Ready(k, n, st, t) && st.threads[t].pc.GlobalLoad?
    ensures StepGlobalLoad(st, t, st.threads[t].pc.cls) == Some(st') && Ready(k, n, st', t)
  {
    st' := Go(k, n, st, t);
  }

  lemma GoGlobalNext(k: Config, n: nat, st: State, t: Tid) returns (st': State)
    requires Ready(k, n, st, t) && st.threads[t].pc.GlobalNext?
    ensures StepGlobalNext(st, t, st.threads[t].pc.cls, st.threads[t].pc.seen) == Some(st') && Ready(k, n, st', t)
  {
    st' := Go(k, n, st, t);
  }

  lemma GoGlobalCas(k: Config, n: nat, st: State, t: Tid) returns (st': State)
    requires Ready(k, n, st, t) && st.threads[t].pc.GlobalCas? && !Outdated(st, t)
    ensures StepGlobalCas(st, t, st.threads[t].pc.cls, st.threads[t].pc.seen, st.threads[t].pc.next) == Some(st')
    ensures Ready(k, n, st', t)
  {
    st' := Go(k, n, st, t);
  }

  lemma GoGlobalOwn(k: Config, n: nat, st: State, t: Tid) returns (st': State)
    requires Ready(k, n, st, t) && st.threads[t].pc.GlobalOwn?
    ensures StepGlobalOwn(k, st, t, st.threads[t].pc.cls, st.threads[t].pc.s) == Some(st') && Ready(k, n, st', t)
  {
    st' := Go(k, n, st, t);
  }

  lemma GoGlobalLink(k: Config, n: nat, st: State, t: Tid) returns (st': State)
    requires Ready(k, n, st, t) && st.threads[t].pc.GlobalLink?
    ensures StepLink(st, t, st.threads[t].pc.s, GlobalSet(st.threads[t].pc.cls, st.threads[t].pc.s)) == Some(st')
    ensures Ready(k, n, st', t)
  {
    st' := Go(k, n, st, t);
  }

  lemma GoGlobalSet(k: Config, n: nat, st: State, t: Tid) returns (st': State)
    requires Ready(k, n, st, t) && st.threads[t].pc.GlobalSet?
    ensures StepSet(st, t, st.threads[t].pc.s, Refill(st.threads[t].pc.cls)) == Some(st') && Ready(k, n, st', t)
  {
    st' := Go(k, n, st, t);
  }

  lemma GoBumpLoad(k: Config, n: nat, st: State, t: Tid) returns (st': State)
    requires Ready(k, n, st, t) && st.threads[t].pc.BumpLoad?
    ensures StepBumpLoad(st, t, st.threads[t].pc.cls) == Some(st') && Ready(k, n, st', t)
  {
    st' := Go(k, n, st, t);
  }

  lemma GoBumpCas(k: Config, n: nat, st: State, t: Tid) returns (st': State)
    requires Ready(k, n, st, t) && st.threads[t].pc.BumpCas?
    ensures StepBumpCas(k, st, t, st.threads[t].pc.cls, st.threads[t].pc.seenBump) == Some(st') && Ready(k, n, st', t)
  {
    st' := Go(k, n, st, t);
  }

  lemma GoBumpOwn(k: Config, n: nat, st: State, t: Tid) returns (st': State)
    requires Ready(k, n, st, t) && st.threads[t].pc.BumpOwn?
    ensures StepBumpOwn(k, st, t, st.threads[t].pc.cls, st.threads[t].pc.start, st.threads[t].pc.i) == Some(st')
    ensures Ready(k, n, st', t)
  {
    st' := Go(k, n, st, t);
  }

  lemma GoBumpNext(k: Config, n: nat, st: State, t: Tid) returns (st': State)
    requires Ready(k, n, st, t) && st.threads[t].pc.BumpNext?
    ensures StepBumpNext(k, st, t, st.threads[t].pc.cls, st.threads[t].pc.start, st.threads[t].pc.i) == Some(st')
    ensures Ready(k, n, st', t)
  {
    st' := Go(k, n, st, t);
  }

  lemma GoBumpSet(k: Config, n: nat, st: State, t: Tid) returns (st': State)
    requires Ready(k, n, st, t) && st.threads[t].pc.BumpSet?
    ensures StepBumpSet(k, st, t, st.threads[t].pc.cls, st.threads[t].pc.start) == Some(st') && Ready(k, n, st', t)
  {
    st' := Go(k, n, st, t);
  }

  lemma GoFreeOwner(k: Config, n: nat, st: State, t: Tid) returns (st': State)
    requires Ready(k, n, st, t) && st.threads[t].pc.FreeOwner?
    ensures StepFreeOwner(st, t, st.threads[t].pc.s, st.threads[t].pc.b) == Some(st') && Ready(k, n, st', t)
  {
    st' := Go(k, n, st, t);
  }

  lemma GoPushLoad(k: Config, n: nat, st: State, t: Tid) returns (st': State)
    requires Ready(k, n, st, t) && st.threads[t].pc.PushLoad?
    ensures StepPushLoad(st, t, st.threads[t].pc.batch) == Some(st') && Ready(k, n, st', t)
  {
    st' := Go(k, n, st, t);
  }

  lemma GoPushLink(k: Config, n: nat, st: State, t: Tid) returns (st': State)
    requires Ready(k, n, st, t) && st.threads[t].pc.PushLink?
    ensures StepPushLink(st, t, st.threads[t].pc.batch, st.threads[t].pc.seen) == Some(st') && Ready(k, n, st', t)
  {
    st' := Go(k, n, st, t);
  }

  lemma GoPushCas(k: Config, n: nat, st: State, t: Tid) returns (st': State)
    requires Ready(k, n, st, t) && st.threads[t].pc.PushCas?
    ensures StepPushCas(st, t, st.threads[t].pc.batch, st.threads[t].pc.seen) == Some(st') && Ready(k, n, st', t)
  {
    st' := Go(k, n, st, t);
  }

  lemma GoRemoteLoad(k: Config, n: nat, st: State, t: Tid) returns (st': State)
    requires Ready(k, n, st, t) && st.threads[t].pc.RemoteLoad?
    ensures StepRemoteLoad(st, t, st.threads[t].pc.s, st.threads[t].pc.b) == Some(st') && Ready(k, n, st', t)
  {
    st' := Go(k, n, st, t);
  }

  lemma GoRemoteCas(k: Config, n: nat, st: State, t: Tid) returns (st': State)
    requires Ready(k, n, st, t) && st.threads[t].pc.RemoteCas?
    ensures StepRemoteCas(st, t, st.threads[t].pc.s, st.threads[t].pc.b, st.threads[t].pc.seenRemote) == Some(st')
    ensures Ready(k, n, st', t)
  {
    st' := Go(k, n, st, t);
  }

  lemma GoRefill(k: Config, n: nat, st: State, t: Tid) returns (st': State)
    requires Ready(k, n, st, t) && st.threads[t].pc.Refill?
    ensures Shaped(k, st) && st.threads[t].pc.cls < |k.counts|
    ensures StepRefill(k, st, t, st.threads[t].pc.cls) == Some(st') && Ready(k, n, st', t)
  {
    st' := Go(k, n, st, t);
  }

  lemma GoTake(k: Config, n: nat, st: State, t: Tid) returns (st': State)
    requires Ready(k, n, st, t) && st.threads[t].pc.Take?
    ensures Shaped(k, st) && st.threads[t].pc.cls < |k.counts| && StepTake(k, st, t, st.threads[t].pc.cls) == Some(st')
    ensures Ready(k, n, st', t)
  {
    st' := Go(k, n, st, t);
  }

  lemma GoDetach(k: Config, n: nat, st: State, t: Tid) returns (st': State)
    requires Ready(k, n, st, t) && st.threads[t].pc.Detach?
    ensures Shaped(k, st) && st.threads[t].pc.cls < |k.counts|
    ensures StepDetach(k, st, t, st.threads[t].pc.cls, st.threads[t].pc.s, st.threads[t].pc.b) == Some(st')
    ensures Ready(k, n, st', t)
  {
    st' := Go(k, n, st, t);
  }

  lemma GoUnsize(k: Config, n: nat, st: State, t: Tid) returns (st': State)
    requires Ready(k, n, st, t) && st.threads[t].pc.Unsize?
    ensures Shaped(k, st) && st.threads[t].pc.cls < |k.counts|
    ensures StepUnsize(k, st, t, st.threads[t].pc.cls, st.threads[t].pc.s) == Some(st') && Ready(k, n, st', t)
  {
    st' := Go(k, n, st, t);
  }

  lemma GoFreeLocal(k: Config, n: nat, st: State, t: Tid) returns (st': State)
    requires Ready(k, n, st, t) && st.threads[t].pc.FreeLocal?
    ensures Shaped(k, st) && StepFreeLocal(k, st, t, st.threads[t].pc.s, st.threads[t].pc.b) == Some(st')
    ensures Ready(k, n, st', t)
  {
    st' := Go(k, n, st, t);
  }

  lemma GoSpill(k: Config, n: nat, st: State, t: Tid) returns (st': State)
    requires Ready(k, n, st, t) && st.threads[t].pc.Spill?
    ensures Shaped(k, st) && StepSpill(k, st, t) == Some(st') && Ready(k, n, st', t)
  {
    st' := Go(k, n, st, t);
  }

}
