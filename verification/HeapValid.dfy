/**
The validation that validating builds make at the end of operations: a thread's stacks hold what they should and have
the lengths they say. All of it follows from the invariant but the lengths of the sized stacks.
*/
module HeapValid {
  import opened Options
  import opened Chains
  import opened Heap
  import opened HeapInvariant
  import opened HeapSteps
  import opened HeapRuns
  import opened HeapTheorems

  /** What `is_valid` finds of one stack (see SlabStacks.LocalStack.IsValid). */
  ghost predicate LengthRight(next: Nexts, stack: Stack) {
    exists q :: IsStack(next, stack.head, q) && |q| == stack.len
  }

  ghost predicate UnsizedValid(st: State, t: Tid)
    requires t < |st.threads|
  {
    && LengthRight(st.next, st.threads[t].unsized)
    && forall s :: 0 <= s < |st.slabs| && OnStack(st.next, st.threads[t].unsized.head, s) ==>
        st.slabs[s].owner == Some(t)
  }

  ghost predicate SizedValid(st: State, t: Tid, c: Class)
    requires t < |st.threads| && c < |st.threads[t].sized|
  {
    && LengthRight(st.next, st.threads[t].sized[c])
    && forall s :: 0 <= s < |st.slabs| && OnStack(st.next, st.threads[t].sized[c].head, s) ==>
         && st.slabs[s].free != {} && st.slabs[s].cls == c && st.slabs[s].owner == Some(t)
         && !OnStack(st.next, st.threads[t].unsized.head, s)
         && forall d :: 0 <= d < |st.threads[t].sized| && d != c ==> !OnStack(st.next, st.threads[t].sized[d].head, s)
  }

  /** `Owned::is_valid`. */
  ghost predicate OwnedValid(st: State, t: Tid)
    requires t < |st.threads|
  {
    UnsizedValid(st, t) && forall c :: 0 <= c < |st.threads[t].sized| ==> SizedValid(st, t, c)
  }

  /** By how much the recorded length of a sized stack exceeds its chain. */
  function Slack(th: Thread, c: Class): int
    requires c < |th.sized| && c < |th.schain|
  {
    th.sized[c].len - |th.schain[c]|
  }

  lemma UnsizedIsValid(k: Config, st: State, t: Tid)
    requires Inv(k, st) && t < |st.threads|
    ensures UnsizedValid(st, t)
  {
    Self(k, st, t);
    assert IsStack(st.next, st.threads[t].unsized.head, st.threads[t].uchain);
    forall s | 0 <= s < |st.slabs| && OnStack(st.next, st.threads[t].unsized.head, s)
      ensures st.slabs[s].owner == Some(t)
    {
      FoundAt(k, st, s, OnUnsized(t));
      assert SlabOK(k, st.threads, st.global, st.slabs[s], s);
    }
  }

  lemma SizedIsValid(k: Config, st: State, t: Tid, c: Class)
    requires Inv(k, st) && t < |st.threads| && c < |k.counts|
    ensures c < |st.threads[t].sized| == |st.threads[t].schain| && Slack(st.threads[t], c) >= 0
    ensures SizedValid(st, t, c) <==> Slack(st.threads[t], c) == 0
  {
    Self(k, st, t);
    var th := st.threads[t];
    assert SizedOK(st.next, st.slabs, th.sized[c], th.schain[c], t, c);
    forall q | IsStack(st.next, th.sized[c].head, q) ensures q == th.schain[c] {
      StackUnique(st.next, th.sized[c].head, q, th.schain[c]);
    }
    forall s | 0 <= s < |st.slabs| && OnStack(st.next, th.sized[c].head, s)
      ensures st.slabs[s].free != {} && st.slabs[s].cls == c && st.slabs[s].owner == Some(t)
      ensures !OnStack(st.next, th.unsized.head, s)
      ensures forall d :: 0 <= d < |th.sized| && d != c ==> !OnStack(st.next, th.sized[d].head, s)
    {
      SizedExactly(k, st, t, c, s);
      FoundAt(k, st, s, OnSized(t, c));
      forall d | 0 <= d < |th.sized| && d != c ensures !OnStack(st.next, th.sized[d].head, s) {
        if OnStack(st.next, th.sized[d].head, s) {
          FoundAt(k, st, s, OnSized(t, d));
        }
      }
    }
  }

  /** In every reachable state the validation succeeds exactly when no sized stack has slack. */
  lemma ValidIff(k: Config, st: State, t: Tid)
    requires Inv(k, st) && t < |st.threads|
    ensures |st.threads[t].sized| == |st.threads[t].schain| == |k.counts|
    ensures OwnedValid(st, t) <==> forall c :: 0 <= c < |k.counts| ==> Slack(st.threads[t], c) == 0
  {
    Self(k, st, t);
    UnsizedIsValid(k, st, t);
    forall c | 0 <= c < |k.counts| ensures SizedValid(st, t, c) <==> Slack(st.threads[t], c) == 0 {
      SizedIsValid(k, st, t, c);
    }
  }

  // Where slack comes from

  /** Thread `t` is about to take a slab out of the middle of sized stack `c`. */
  predicate FromMiddle(th: Thread, c: Class) {
    th.pc.Unsize? && th.pc.cls == c && c < |th.sized| && th.sized[c].head != Some(th.pc.s)
  }

  ghost predicate SlackKept(k: Config, st: State, st': State, u: Tid)
  {
    && u < |st.threads| == |st'.threads|
    && |st.threads[u].sized| == |st.threads[u].schain| == |st'.threads[u].sized| == |st'.threads[u].schain|
    && forall c :: 0 <= c < |st.threads[u].sized| ==> Slack(st'.threads[u], c) == Slack(st.threads[u], c)
  }

  lemma ServeSlack(k: Config, st: State, t: Tid)
    requires Inv(k, st) && t < |st.threads| && IsServing(st.threads[t].pc) && StepServe(k, st, t).Some?
    ensures SlackKept(k, st, StepServe(k, st, t).value, t)
  {
    Self(k, st, t);
    var th := st.threads[t];
    var c := th.pc.cls;
    assert SizedOK(st.next, st.slabs, th.sized[c], th.schain[c], t, c);
  }

  lemma UnsizeSlack(k: Config, st: State, t: Tid, c: Class, s: Idx)
    requires Inv(k, st) && t < |st.threads| && st.threads[t].pc == Unsize(c, s) && StepReturn(k, st, t).Some?
    ensures var th, th' := st.threads[t], StepReturn(k, st, t).value.threads[t];
            && |th.sized| == |th.schain| == |th'.sized| == |th'.schain| && c < |th.sized|
            && Slack(th', c) == Slack(th, c) + (if FromMiddle(th, c) then 1 else 0)
            && forall d :: 0 <= d < |th.sized| && d != c ==> Slack(th', d) == Slack(th, d)
  {
    Self(k, st, t);
    var th := st.threads[t];
    assert SizedOK(st.next, st.slabs, th.sized[c], th.schain[c], t, c);
    assert SlabOK(k, st.threads, st.global, st.slabs[s], s);
  }

  lemma ReturnSlack(k: Config, st: State, t: Tid)
    requires Inv(k, st) && t < |st.threads| && StepReturn(k, st, t).Some?
    requires st.threads[t].pc.FreeOwner? || st.threads[t].pc.FreeLocal?
    ensures SlackKept(k, st, StepReturn(k, st, t).value, t)
  {
    Self(k, st, t);
  }

  ghost predicate SlackGrows(st: State, st': State, t: Tid, c: Class) {
    && t < |st.threads| == |st'.threads|
    && c < |st.threads[t].sized| == |st.threads[t].schain| == |st'.threads[t].sized| == |st'.threads[t].schain|
    && Slack(st'.threads[t], c) == Slack(st.threads[t], c) + if FromMiddle(st.threads[t], c) then 1 else 0
  }

  lemma ThreadSlack(k: Config, st: State, t: Tid, c: Class)
    requires Inv(k, st) && t < |st.threads| && c < |k.counts| && StepThread(k, st, t).Some?
    ensures OnlyOne(st, StepThread(k, st, t).value, t) && SlackGrows(st, StepThread(k, st, t).value, t, c)
  {
    Self(k, st, t);
    ThreadSame(k, st, t);
    var pc := st.threads[t].pc;
    if IsServing(pc) {
      ServeSlack(k, st, t);
    } else if pc.Unsize? {
      UnsizeSlack(k, st, t, pc.cls, pc.s);
    } else if IsReturning(pc) {
      ReturnSlack(k, st, t);
    }
  }

  /**
  Over any step, a thread's slack stays as it is, except that taking a slab out of the middle of a sized stack adds
  one. Nothing takes it away again: from the first such removal on the validation fails for good.
  */
  lemma SlackSteps(k: Config, st: State, a: Action, u: Tid, c: Class)
    requires Inv(k, st) && Enabled(k, st, a) && Step(k, st, a).Some? && u < |st.threads| && c < |k.counts|
    ensures var st' := Step(k, st, a).value;
            && u < |st'.threads|
            && c < |st.threads[u].sized| == |st.threads[u].schain| == |st'.threads[u].sized| == |st'.threads[u].schain|
            && Slack(st'.threads[u], c) ==
               Slack(st.threads[u], c) + if a == Continue(u) && FromMiddle(st.threads[u], c) then 1 else 0
  {
    Self(k, st, u);
    match a
    case Alloc(t, cls) =>
    case Free(t, s, b) =>
    case Continue(t) => ThreadSlack(k, st, t, c);
  }

  // Along a run

  /** Action `j` of the run has thread `t` take a slab out of the middle of its sized stack `c`. */
  predicate Removes(states: seq<State>, actions: seq<Action>, t: Tid, c: Class, j: nat)
    requires |states| == |actions| + 1 && j < |actions|
  {
    actions[j] == Continue(t) && t < |states[j].threads| && FromMiddle(states[j].threads[t], c)
  }

  /** How often that has happened before state `i`. */
  function Removals(states: seq<State>, actions: seq<Action>, t: Tid, c: Class, i: nat): nat
    requires |states| == |actions| + 1 && i <= |actions|
  {
    if i == 0 then 0
    else Removals(states, actions, t, c, i - 1) + if Removes(states, actions, t, c, i - 1) then 1 else 0
  }

  lemma {:induction false} NoRemovals(states: seq<State>, actions: seq<Action>, t: Tid, c: Class, i: nat)
    requires |states| == |actions| + 1 && i <= |actions|
    ensures Removals(states, actions, t, c, i) == 0 <==> forall j :: 0 <= j < i ==> !Removes(states, actions, t, c, j)
  {
    if i > 0 {
      NoRemovals(states, actions, t, c, i - 1);
    }
  }

  ghost predicate SlackIs(k: Config, states: seq<State>, actions: seq<Action>, t: Tid, c: Class, i: nat)
    requires |states| == |actions| + 1 && i <= |actions|
  {
    && t < |states[i].threads| && c < |states[i].threads[t].sized| == |states[i].threads[t].schain| == |k.counts|
    && Slack(states[i].threads[t], c) == Removals(states, actions, t, c, i)
  }

  lemma SlackStarts(k: Config, n: nat, states: seq<State>, actions: seq<Action>, t: Tid, c: Class)
    requires IsRun(k, n, states, actions) && t < n && c < |k.counts|
    ensures SlackIs(k, states, actions, t, c, 0)
  {
    assert states[0].threads[t] == FreshThread(k);
  }

  /** The slack of a sized stack counts the slabs taken out of its middle. */
  lemma {:induction false} SlackCounts(k: Config, n: nat, states: seq<State>, actions: seq<Action>, t: Tid, c: Class,
                                       i: nat)
    requires ValidConfig(k) && IsRun(k, n, states, actions) && NoStalePop(states, actions)
    requires t < n && c < |k.counts| && i <= |actions|
    ensures SlackIs(k, states, actions, t, c, i)
  {
    if i == 0 {
      SlackStarts(k, n, states, actions, t, c);
    } else {
      SlackCounts(k, n, states, actions, t, c, i - 1);
      RunsKeep(k, n, states, actions, i - 1);
      assert Leads(k, states[i - 1], actions[i - 1], states[i]);
      SlackSteps(k, states[i - 1], actions[i - 1], t, c);
      RunsKeep(k, n, states, actions, i);
      Self(k, states[i], t);
    }
  }

  /** The validation of a thread succeeds up to the first time it takes a slab out of the middle, and never again. */
  lemma ValidAlong(k: Config, n: nat, states: seq<State>, actions: seq<Action>, t: Tid, i: nat)
    requires ValidConfig(k) && IsRun(k, n, states, actions) && NoStalePop(states, actions) && t < n && i <= |actions|
    ensures t < |states[i].threads|
    ensures OwnedValid(states[i], t) <==> forall j, c :: 0 <= j < i && 0 <= c < |k.counts| ==>
              !Removes(states, actions, t, c, j)
  {
    RunsKeep(k, n, states, actions, i);
    SameThreads(k, n, states, actions, i);
    ValidIff(k, states[i], t);
    forall c | 0 <= c < |k.counts|
      ensures Slack(states[i].threads[t], c) == 0 <==> forall j :: 0 <= j < i ==> !Removes(states, actions, t, c, j)
    {
      SlackCounts(k, n, states, actions, t, c, i);
      NoRemovals(states, actions, t, c, i);
    }
    if OwnedValid(states[i], t) {
      forall j, c | 0 <= j < i && 0 <= c < |k.counts| ensures !Removes(states, actions, t, c, j) {
        assert Slack(states[i].threads[t], c) == 0;
      }
    }
  }

  lemma {:induction false} SameThreads(k: Config, n: nat, states: seq<State>, actions: seq<Action>, i: nat)
    requires IsRun(k, n, states, actions) && i <= |actions|
    ensures |states[i].threads| == n
  {
    if i > 0 {
      SameThreads(k, n, states, actions, i - 1);
      assert Leads(k, states[i - 1], actions[i - 1], states[i]);
      if actions[i - 1].Continue? { ThreadSame(k, states[i - 1], actions[i - 1].t); }
    }
  }

  // The checks the validating build makes

  /** The action ends with a check of the thread's stacks. */
  predicate Checks(st: State, a: Action) {
    a.Continue? && a.t < |st.threads| && var pc := st.threads[a.t].pc; pc.Refill? || pc.Unsize? || pc.ClaimSet?
  }

  /** All checks along the run succeed. */
  ghost predicate ChecksPass(states: seq<State>, actions: seq<Action>)
    requires |states| == |actions| + 1
  {
    forall i :: 0 <= i < |actions| && Checks(states[i], actions[i]) ==>
      actions[i].t < |states[i + 1].threads| && OwnedValid(states[i + 1], actions[i].t)
  }

  /** Some thread takes a slab out of the middle of a sized stack. */
  ghost predicate SomeRemoves(k: Config, states: seq<State>, actions: seq<Action>, j: nat)
    requires |states| == |actions| + 1 && j < |actions|
  {
    exists c :: 0 <= c < |k.counts| && Removes(states, actions, actions[j].t, c, j)
  }

  lemma CheckPasses(k: Config, n: nat, states: seq<State>, actions: seq<Action>, i: nat)
    requires ValidConfig(k) && IsRun(k, n, states, actions) && NoStalePop(states, actions) && i < |actions|
    requires Checks(states[i], actions[i]) && forall j :: 0 <= j < |actions| ==> !SomeRemoves(k, states, actions, j)
    ensures actions[i].t < |states[i + 1].threads| && OwnedValid(states[i + 1], actions[i].t)
  {
    var t := actions[i].t;
    SameThreads(k, n, states, actions, i);
    ValidAlong(k, n, states, actions, t, i + 1);
    forall j, c | 0 <= j < i + 1 && 0 <= c < |k.counts| ensures !Removes(states, actions, t, c, j) {
      assert !SomeRemoves(k, states, actions, j);
    }
  }

  lemma CheckFails(k: Config, n: nat, states: seq<State>, actions: seq<Action>, i: nat)
    requires ValidConfig(k) && IsRun(k, n, states, actions) && NoStalePop(states, actions) && i < |actions|
    requires SomeRemoves(k, states, actions, i)
    ensures Checks(states[i], actions[i]) && actions[i].t < |states[i + 1].threads|
    ensures !OwnedValid(states[i + 1], actions[i].t)
  {
    var t := actions[i].t;
    var c :| 0 <= c < |k.counts| && Removes(states, actions, t, c, i);
    SameThreads(k, n, states, actions, i);
    ValidAlong(k, n, states, actions, t, i + 1);
  }

  /**
  The validating build goes through a run without failing a check if and only if nobody in it ever takes a slab out of
  the middle of a sized stack: the first such removal fails its own check.
  */
  lemma ChecksPassIff(k: Config, n: nat, states: seq<State>, actions: seq<Action>)
    requires ValidConfig(k) && IsRun(k, n, states, actions) && NoStalePop(states, actions)
    ensures ChecksPass(states, actions) <==> forall j :: 0 <= j < |actions| ==> !SomeRemoves(k, states, actions, j)
  {
    if forall j :: 0 <= j < |actions| ==> !SomeRemoves(k, states, actions, j) {
      forall i | 0 <= i < |actions| && Checks(states[i], actions[i])
        ensures actions[i].t < |states[i + 1].threads| && OwnedValid(states[i + 1], actions[i].t)
      {
        CheckPasses(k, n, states, actions, i);
      }
    } else {
      var i :| 0 <= i < |actions| && SomeRemoves(k, states, actions, i);
      CheckFails(k, n, states, actions, i);
    }
  }
}
