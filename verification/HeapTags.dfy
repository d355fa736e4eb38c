/**
Version tags against outdated pops. A pop compares the whole head, tag and value, with what it read before it
followed the link. If no compare-and-swap of the run writes a tag that a pop in between still remembers, no pop
is ever outdated, and every state of the run is in order.
*/
module HeapTags {
  import opened Options
  import opened Chains
  import opened Heap
  import opened HeapInvariant
  import opened HeapRuns
  import opened HeapTheorems

  /** Thread `t` is about to write the head. */
  predicate WinsHead(st: State, t: Tid) {
    t < |st.threads| && (st.threads[t].pc.GlobalCas? || st.threads[t].pc.PushCas?) && st.head == st.threads[t].pc.seen
  }

  /** The tag thread `t` writes is not the tag of a head that another pop has followed already. */
  ghost predicate FreshTag(st: State, t: Tid)
    requires t < |st.threads|
  {
    forall u :: 0 <= u < |st.threads| && u != t && st.threads[u].pc.GlobalCas? ==>
      !(st.threads[u].pc.seen.id == Some(t) && st.threads[u].pc.seen.version == st.threads[t].version)
  }

  /** The hypothesis under which tags do their work: every write of the head carries a fresh one. */
  ghost predicate FreshTags(states: seq<State>, actions: seq<Action>)
    requires |states| == |actions| + 1
  {
    forall i :: 0 <= i < |actions| && actions[i].Continue? && WinsHead(states[i], actions[i].t) ==>
      FreshTag(states[i], actions[i].t)
  }

  /** No thread would pop with an outdated link now. */
  ghost predicate AllCurrent(st: State) {
    forall u :: 0 <= u < |st.threads| ==> !Outdated(st, u)
  }

  /** A step that does not write the head leaves the link of its slab alone. */
  lemma LinkRests(k: Config, st: State, st': State)
    requires Inv(k, st) && Inv(k, st') && st'.head == st.head && st'.global == st.global && st.head.inner.Some?
    ensures var s := st.head.inner.value; s < |st.next| && s < |st'.next| && st'.next[s] == st.next[s]
  {
    var q := st.global;
    assert q != [] && st.head.inner == Some(q[0]);
    assert st.next[q[0]] == LinkAt(q, None, 0);
    assert st'.next[q[0]] == LinkAt(q, None, 0);
  }

  // Only reading the link brings a thread to where it may pop

  predicate Elsewhere(r: Option<State>, t: Tid) {
    r.Some? && t < |r.value.threads| ==> !r.value.threads[t].pc.GlobalCas?
  }

  lemma PopElsewhere(st: State, t: Tid)
    requires t < |st.threads| && !st.threads[t].pc.GlobalNext?
    ensures Elsewhere(StepPop(st, t), t)
  {}

  lemma AdoptElsewhere(k: Config, st: State, t: Tid)
    requires t < |st.threads|
    ensures Elsewhere(StepAdopt(k, st, t), t)
  {}

  lemma ClaimElsewhere(st: State, t: Tid)
    requires t < |st.threads|
    ensures Elsewhere(StepClaim(st, t), t)
  {}

  lemma BumpElsewhere(k: Config, st: State, t: Tid)
    requires t < |st.threads|
    ensures Elsewhere(StepBump(k, st, t), t)
  {}

  lemma ServeElsewhere(k: Config, st: State, t: Tid)
    requires Shaped(k, st) && t < |st.threads|
    ensures Elsewhere(StepServe(k, st, t), t)
  {}

  lemma LetGoElsewhere(k: Config, st: State, t: Tid)
    requires Shaped(k, st) && t < |st.threads|
    ensures Elsewhere(StepLetGo(k, st, t), t)
  {}

  lemma ReturnElsewhere(k: Config, st: State, t: Tid)
    requires Shaped(k, st) && t < |st.threads|
    ensures Elsewhere(StepReturn(k, st, t), t)
  {}

  lemma RemoteElsewhere(st: State, t: Tid)
    requires t < |st.threads|
    ensures Elsewhere(StepRemote(st, t), t)
  {}

  lemma PushElsewhere(k: Config, st: State, t: Tid)
    requires Shaped(k, st) && t < |st.threads|
    ensures Elsewhere(StepPush(k, st, t), t)
  {}

  lemma ThreadElsewhere(k: Config, st: State, t: Tid)
    requires Shaped(k, st) && t < |st.threads| && !st.threads[t].pc.GlobalNext?
    ensures Elsewhere(StepThread(k, st, t), t)
  {
    var pc := st.threads[t].pc;
    if IsPopping(pc) { PopElsewhere(st, t); }
    else if IsAdopting(pc) { AdoptElsewhere(k, st, t); }
    else if IsClaiming(pc) { ClaimElsewhere(st, t); }
    else if IsBumping(pc) { BumpElsewhere(k, st, t); }
    else if IsServing(pc) { ServeElsewhere(k, st, t); }
    else if IsLettingGo(pc) { LetGoElsewhere(k, st, t); }
    else if IsReturning(pc) { ReturnElsewhere(k, st, t); }
    else if IsCountingOff(pc) { RemoteElsewhere(st, t); }
    else if !pc.Idle? { PushElsewhere(k, st, t); }
  }

  /** After a step of its own a thread is not outdated: if it may pop now, it has just read the link. */
  lemma SelfCurrent(k: Config, st: State, t: Tid)
    requires Shaped(k, st) && t < |st.threads| && StepThread(k, st, t).Some?
    ensures !Outdated(StepThread(k, st, t).value, t)
  {
    if st.threads[t].pc.GlobalNext? { NextCurrent(st, t); } else { ThreadElsewhere(k, st, t); }
  }

  lemma NextCurrent(st: State, t: Tid)
    requires t < |st.threads| && st.threads[t].pc.GlobalNext? && StepPop(st, t).Some?
    ensures !Outdated(StepPop(st, t).value, t)
  {
  }

  // Fresh tags keep every pop current

  /** The head is written with a fresh tag: whoever remembers an earlier head will see that it is another. */
  lemma WriteCurrent(k: Config, st: State, t: Tid, u: Tid)
    requires Shaped(k, st) && WinsHead(st, t) && FreshTag(st, t) && u < |st.threads| && u != t
    requires StepThread(k, st, t).Some?
    ensures !Outdated(StepThread(k, st, t).value, u)
  {
    if st.threads[t].pc.GlobalCas? { PopTakes(st, t); } else { PushPrepends(k, st, t); }
  }

  lemma RestCurrent(k: Config, st: State, t: Tid, u: Tid)
    requires Inv(k, st) && t < |st.threads| && !WinsHead(st, t) && u < |st.threads| && u != t && !Outdated(st, u)
    requires StepThread(k, st, t).Some? && Inv(k, StepThread(k, st, t).value)
    ensures !Outdated(StepThread(k, st, t).value, u)
  {
    GlobalRests(k, st, t);
    if st.head.inner.Some? { LinkRests(k, st, StepThread(k, st, t).value); }
  }

  lemma StaysCurrent(k: Config, st: State, a: Action)
    requires Inv(k, st) && AllCurrent(st) && Enabled(k, st, a)
    requires a.Continue? && WinsHead(st, a.t) ==> FreshTag(st, a.t)
    ensures Step(k, st, a).Some? && Inv(k, Step(k, st, a).value) && AllCurrent(Step(k, st, a).value)
  {
    StepKeeps(k, st, a);
    var st' := Step(k, st, a).value;
    if a.Continue? {
      ThreadSame(k, st, a.t);
      forall u | 0 <= u < |st'.threads| ensures !Outdated(st', u) {
        if u == a.t { SelfCurrent(k, st, u); }
        else if WinsHead(st, a.t) { WriteCurrent(k, st, a.t, u); }
        else { RestCurrent(k, st, a.t, u); }
      }
    } else {
      forall u | 0 <= u < |st'.threads| ensures !Outdated(st', u) {
        assert !Outdated(st, u);
      }
    }
  }

  /** A run whose head is always written with fresh tags is in order throughout. */
  lemma {:induction false} FreshRunsKeep(k: Config, n: nat, states: seq<State>, actions: seq<Action>, i: nat)
    requires ValidConfig(k) && IsRun(k, n, states, actions) && FreshTags(states, actions) && i < |states|
    ensures Inv(k, states[i]) && AllCurrent(states[i])
  {
    if i == 0 {
      InitKeeps(k, n);
    } else {
      FreshRunsKeep(k, n, states, actions, i - 1);
      assert Leads(k, states[i - 1], actions[i - 1], states[i]);
      StaysCurrent(k, states[i - 1], actions[i - 1]);
    }
  }

  /** So no pop of it is outdated. */
  lemma FreshIsCurrent(k: Config, n: nat, states: seq<State>, actions: seq<Action>)
    requires ValidConfig(k) && IsRun(k, n, states, actions) && FreshTags(states, actions)
    ensures NoStalePop(states, actions)
  {
    forall i | 0 <= i < |actions| ensures !Stale(states[i], actions[i]) {
      FreshRunsKeep(k, n, states, actions, i);
    }
  }
}
