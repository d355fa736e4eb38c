/** A free releases its block exactly once, whatever other threads do meanwhile, also when it is started over. */
module HeapFrees {
  import opened Options
  import opened Chains
  import opened Heap
  import opened HeapInvariant
  import opened HeapTheorems
  import opened HeapLive
  import opened Recovery

  /** States and the actions between them, from any state on. */
  ghost predicate RunFrom(k: Config, states: seq<State>, actions: seq<Action>) {
    && |states| == |actions| + 1
    && forall i :: 0 <= i < |actions| ==>
         && Shaped(k, states[i]) && Enabled(k, states[i], actions[i])
         && Step(k, states[i], actions[i]) == Some(states[i + 1])
  }

  /** Thread `t` is freeing block `b` of slab `s` and has not released it. */
  predicate Frees(pc: Pc, s: Idx, b: Block) {
    (pc.FreeOwner? || pc.FreeLocal? || pc.RemoteLoad? || pc.RemoteCas?) && pc.s == s && pc.b == b
  }

  /** It has, and the operation goes on or is over. */
  predicate Freed(pc: Pc) {
    || pc.Idle? || pc.RemoteDone? || IsClaiming(pc) || pc.Unsize?
    || pc.Spill? || pc.PushLoad? || pc.PushLink? || pc.PushCas?
  }

  /** The events of a step that belongs to a free. */
  ghost predicate FreesStep(k: Config, st: State, r: Option<State>, t: Tid, s: Idx, b: Block)
    requires Shaped(k, st) && t < |st.threads|
  {
    r.Some? ==>
      && t < |r.value.threads|
      && var pc, pc', e := st.threads[t].pc, r.value.threads[t].pc, EventOf(k, st, Continue(t));
         && (Frees(pc, s, b) && e.Quiet? ==> Frees(pc', s, b))
         && (Frees(pc, s, b) && !e.Quiet? ==> e == Released(s, b) && Freed(pc'))
         && (Freed(pc) ==> e.Quiet? && Freed(pc'))
  }

  lemma ReturnFrees(k: Config, st: State, t: Tid, s: Idx, b: Block)
    requires Shaped(k, st) && t < |st.threads| && IsReturning(st.threads[t].pc)
    ensures FreesStep(k, st, StepReturn(k, st, t), t, s, b)
  {}

  lemma RemoteFrees(k: Config, st: State, t: Tid, s: Idx, b: Block)
    requires Shaped(k, st) && t < |st.threads| && IsCountingOff(st.threads[t].pc)
    ensures FreesStep(k, st, StepRemote(st, t), t, s, b)
  {}

  lemma ClaimFrees(k: Config, st: State, t: Tid, s: Idx, b: Block)
    requires Shaped(k, st) && t < |st.threads| && IsClaiming(st.threads[t].pc)
    ensures FreesStep(k, st, StepClaim(st, t), t, s, b)
  {}

  lemma PushFrees(k: Config, st: State, t: Tid, s: Idx, b: Block)
    requires Shaped(k, st) && t < |st.threads|
    requires var pc := st.threads[t].pc; pc.Spill? || pc.PushLoad? || pc.PushLink? || pc.PushCas?
    ensures FreesStep(k, st, StepPush(k, st, t), t, s, b)
  {}

  lemma ThreadFrees(k: Config, st: State, t: Tid, s: Idx, b: Block)
    requires Shaped(k, st) && t < |st.threads| && (Frees(st.threads[t].pc, s, b) || Freed(st.threads[t].pc))
    ensures FreesStep(k, st, StepThread(k, st, t), t, s, b)
  {
    var pc := st.threads[t].pc;
    if IsReturning(pc) { ReturnFrees(k, st, t, s, b); }
    else if IsCountingOff(pc) { RemoteFrees(k, st, t, s, b); }
    else if IsClaiming(pc) { ClaimFrees(k, st, t, s, b); }
    else if !pc.Idle? { PushFrees(k, st, t, s, b); }
  }

  /** How often thread `t` releases a block in the first `i` steps. */
  ghost function Releases(k: Config, states: seq<State>, actions: seq<Action>, t: Tid, i: nat): nat
    requires RunFrom(k, states, actions) && i <= |actions|
  {
    if i == 0 then 0
    else
      var j := i - 1;
      assert Enabled(k, states[j], actions[j]);
      Releases(k, states, actions, t, j) +
      if actions[j].t == t && EventOf(k, states[j], actions[j]).Released? then 1 else 0
  }

  /** Up to state `i` the free has released nothing, or its block, once. */
  ghost predicate Once(k: Config, states: seq<State>, actions: seq<Action>, t: Tid, s: Idx, b: Block, i: nat)
    requires RunFrom(k, states, actions) && i <= |actions|
  {
    && t < |states[i].threads|
    && var pc, n := states[i].threads[t].pc, Releases(k, states, actions, t, i);
       (Frees(pc, s, b) && n == 0) || (Freed(pc) && n == 1)
  }

  lemma OnceStep(k: Config, states: seq<State>, actions: seq<Action>, t: Tid, s: Idx, b: Block, j: nat)
    requires RunFrom(k, states, actions) && j < |actions| && Once(k, states, actions, t, s, b, j)
    requires !states[j].threads[t].pc.Idle?
    ensures Once(k, states, actions, t, s, b, j + 1)
    ensures actions[j].t == t && EventOf(k, states[j], actions[j]).Released? ==>
              EventOf(k, states[j], actions[j]) == Released(s, b)
  {
    var st, a := states[j], actions[j];
    assert Step(k, st, a) == Some(states[j + 1]);
    if a.Continue? {
      ThreadSame(k, st, a.t);
      if a.t == t { ThreadFrees(k, st, t, s, b); }
    }
  }

  /**
  Until it is over, and on any continuation with any steps of the other threads, a free releases at most one block, its
  own; when it is over it has released it exactly once.
  */
  lemma {:induction false} FreesOnce(k: Config, states: seq<State>, actions: seq<Action>, t: Tid, s: Idx, b: Block,
                                     i: nat)
    requires RunFrom(k, states, actions) && i <= |actions|
    requires t < |states[0].threads| && Frees(states[0].threads[t].pc, s, b)
    requires forall j :: 0 <= j < i ==> t < |states[j].threads| && !states[j].threads[t].pc.Idle?
    ensures Once(k, states, actions, t, s, b, i)
    ensures forall j :: 0 <= j < i && actions[j].t == t && EventOf(k, states[j], actions[j]).Released? ==>
              EventOf(k, states[j], actions[j]) == Released(s, b)
  {
    if i > 0 {
      FreesOnce(k, states, actions, t, s, b, i - 1);
      OnceStep(k, states, actions, t, s, b, i - 1);
    }
  }

  /** A free that recovery starts over releases the block exactly once on every continuation. */
  lemma RecoveredFreesOnce(k: Config, st: State, t: Tid, i: Idx, v: nat, last: bool, b: Block,
                           states: seq<State>, actions: seq<Action>)
    requires Inv(k, st) && LogsOK(k, st) && t < |st.threads| && st.threads[t].log == Some(Remote(i, v, last))
    requires !st.threads[t].took && (st.threads[t].pc.RemoteCas? ==> b == st.threads[t].pc.b)
    requires st.threads[t].entry == v
    requires RunFrom(k, states, actions) && Recover(k, st, t, false, b) == Some(states[0])
    requires forall j :: 0 <= j < |actions| ==> t < |states[j].threads| && !states[j].threads[t].pc.Idle?
    ensures i < |st.slabs| && b in st.slabs[i].blocks
    ensures Once(k, states, actions, t, i, b, |actions|)
    ensures states[|actions|].threads[t].pc.Idle? ==> Releases(k, states, actions, t, |actions|) == 1
  {
    RecoverFree(k, st, t, i, v, last, b);
    FreesOnce(k, states, actions, t, i, b, |actions|);
  }
}
