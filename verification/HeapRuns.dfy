/** Whole runs of the heap: which of them satisfy the invariant throughout, and that no step of those panics. */
module HeapRuns {
  import opened Options
  import opened Chains
  import opened Heap
  import opened HeapInvariant
  import opened HeapSteps

  ghost predicate Keeps(k: Config, r: Option<State>) {
    r.Some? && Inv(k, r.value)
  }

  /** A step on one slab that does its part keeps the invariant. */
  lemma Conclude(k: Config, st: State, r: Option<State>, t: Tid, s: Idx)
    requires Inv(k, st) && r.Some? && OneStep(k, st, r.value, t, s)
    ensures Keeps(k, r)
  {
    ChangeOne(k, st, r.value, t, s);
  }

  lemma PopGroup(k: Config, st: State, t: Tid)
    requires Inv(k, st) && t < |st.threads| && IsPopping(st.threads[t].pc)
    ensures StepPop(st, t).Some? && (Inv(k, StepPop(st, t).value) <==> !Outdated(st, t))
  {
    match st.threads[t].pc
    case GlobalEmpty(c) => GlobalEmptyKeeps(k, st, t, c);
    case GlobalLoad(c) => GlobalLoadKeeps(k, st, t, c);
    case GlobalNext(c, seen) => GlobalNextKeeps(k, st, t, c, seen);
    case GlobalCas(c, seen, n) =>
      if st.head == seen { PopKeeps(k, st, t, c, seen, n); } else { GlobalRetryKeeps(k, st, t, c, seen, n); }
  }

  lemma GlobalOwnKeeps(k: Config, st: State, t: Tid, c: Class, s: Idx)
    requires Inv(k, st) && t < |st.threads| && st.threads[t].pc == GlobalOwn(c, s)
    ensures Keeps(k, StepGlobalOwn(k, st, t, c, s))
  {
    Self(k, st, t);
    LocalView(k, st, t, s);
    GlobalOwnEffect(k, st, t, c, s);
    Conclude(k, st, StepGlobalOwn(k, st, t, c, s), t, s);
  }

  lemma LinkKeeps(k: Config, st: State, t: Tid, s: Idx, pc: Pc)
    requires Inv(k, st) && t < |st.threads| && (st.threads[t].pc.GlobalLink? || st.threads[t].pc.ClaimLink?)
    requires st.threads[t].pc.s == s
    requires pc == if st.threads[t].pc.GlobalLink? then GlobalSet(st.threads[t].pc.cls, s) else ClaimSet(s)
    ensures Keeps(k, StepLink(st, t, s, pc))
  {
    Self(k, st, t);
    LocalView(k, st, t, s);
    LinkEffect(k, st, t, s, pc);
    Conclude(k, st, StepLink(st, t, s, pc), t, s);
  }

  lemma SetKeeps(k: Config, st: State, t: Tid, s: Idx, pc: Pc)
    requires Inv(k, st) && t < |st.threads| && (st.threads[t].pc.GlobalSet? || st.threads[t].pc.ClaimSet?)
    requires st.threads[t].pc.s == s
    requires pc == if st.threads[t].pc.GlobalSet? then Refill(st.threads[t].pc.cls) else Spill
    ensures Keeps(k, StepSet(st, t, s, pc))
  {
    Self(k, st, t);
    LocalView(k, st, t, s);
    SetEffect(k, st, t, s, pc);
    Conclude(k, st, StepSet(st, t, s, pc), t, s);
  }

  lemma ClaimStealKeeps(k: Config, st: State, t: Tid, s: Idx)
    requires Inv(k, st) && t < |st.threads| && st.threads[t].pc == ClaimSteal(s)
    ensures Keeps(k, StepClaimSteal(st, t, s))
  {
    Self(k, st, t);
    LocalView(k, st, t, s);
    ClaimStealEffect(k, st, t, s);
    Conclude(k, st, StepClaimSteal(st, t, s), t, s);
  }

  lemma AdoptGroup(k: Config, st: State, t: Tid)
    requires Inv(k, st) && t < |st.threads| && IsAdopting(st.threads[t].pc)
    ensures Keeps(k, StepAdopt(k, st, t))
  {
    match st.threads[t].pc
    case GlobalOwn(c, s) => GlobalOwnKeeps(k, st, t, c, s);
    case GlobalLink(c, s) => LinkKeeps(k, st, t, s, GlobalSet(c, s));
    case GlobalSet(c, s) => SetKeeps(k, st, t, s, Refill(c));
  }

  lemma ClaimGroup(k: Config, st: State, t: Tid)
    requires Inv(k, st) && t < |st.threads| && IsClaiming(st.threads[t].pc)
    ensures Keeps(k, StepClaim(st, t))
  {
    match st.threads[t].pc
    case ClaimSteal(s) => ClaimStealKeeps(k, st, t, s);
    case ClaimLink(s) => LinkKeeps(k, st, t, s, ClaimSet(s));
    case ClaimSet(s) => SetKeeps(k, st, t, s, Spill);
  }

  lemma RangeSlab(k: Config, st: State, t: Tid)
    requires Inv(k, st) && t < |st.threads| && (st.threads[t].pc.BumpOwn? || st.threads[t].pc.BumpNext?)
    ensures st.threads[t].pc.start + st.threads[t].pc.i < |st.slabs|
  {
    Self(k, st, t);
  }

  lemma BumpOwnKeeps(k: Config, st: State, t: Tid, c: Class, start: Idx, i: nat)
    requires Inv(k, st) && t < |st.threads| && st.threads[t].pc == BumpOwn(c, start, i)
    ensures Keeps(k, StepBumpOwn(k, st, t, c, start, i))
  {
    var s := start + i;
    RangeSlab(k, st, t);
    LocalView(k, st, t, s);
    BumpOwnEffect(k, st, t, c, start, i, s);
    Conclude(k, st, StepBumpOwn(k, st, t, c, start, i), t, s);
  }

  lemma BumpNextKeeps(k: Config, st: State, t: Tid, c: Class, start: Idx, i: nat)
    requires Inv(k, st) && t < |st.threads| && st.threads[t].pc == BumpNext(c, start, i)
    ensures Keeps(k, StepBumpNext(k, st, t, c, start, i))
  {
    var s := start + i;
    RangeSlab(k, st, t);
    LocalView(k, st, t, s);
    BumpNextEffect(k, st, t, c, start, i, s);
    Conclude(k, st, StepBumpNext(k, st, t, c, start, i), t, s);
  }

  lemma BumpGroup(k: Config, st: State, t: Tid)
    requires Inv(k, st) && t < |st.threads| && IsBumping(st.threads[t].pc)
    ensures Keeps(k, StepBump(k, st, t))
  {
    match st.threads[t].pc
    case BumpLoad(c) => BumpLoadKeeps(k, st, t, c);
    case BumpCas(c, seen) =>
      if st.bump == seen { BumpCasKeeps(k, st, t, c, seen); } else { BumpLoadKeeps(k, st, t, c); }
    case BumpOwn(c, start, i) => BumpOwnKeeps(k, st, t, c, start, i);
    case BumpNext(c, start, i) => BumpNextKeeps(k, st, t, c, start, i);
    case BumpSet(c, start) => BumpSetKeeps(k, st, t, c, start);
  }

  lemma RefillKeeps(k: Config, st: State, t: Tid, c: Class)
    requires Inv(k, st) && t < |st.threads| && st.threads[t].pc == Refill(c)
    ensures c < |k.counts| && Keeps(k, StepRefill(k, st, t, c))
  {
    Self(k, st, t);
    var s := st.threads[t].uchain[0];
    assert s < |st.next|;
    LocalView(k, st, t, s);
    RefillEffect(k, st, t, c);
    Conclude(k, st, StepRefill(k, st, t, c), t, s);
  }

  /** The head of a sized stack: on the chain, in place, and with a free block. */
  lemma SizedHead(k: Config, st: State, t: Tid, c: Class)
    requires Inv(k, st) && t < |st.threads| && c < |k.counts| && st.threads[t].schain[c] != []
    ensures var s := st.threads[t].schain[c][0];
            && st.threads[t].sized[c].head == Some(s) && st.threads[t].sized[c].len > 0 && s < |st.slabs|
            && Local(k, st, t, s) && st.slabs[s].place == Sized(t, c) && st.slabs[s].free != {}
  {
    Self(k, st, t);
    var s := st.threads[t].schain[c][0];
    assert SizedOK(st.next, st.slabs, st.threads[t].sized[c], st.threads[t].schain[c], t, c);
    assert s < |st.next|;
    LocalView(k, st, t, s);
  }

  lemma TakeKeeps(k: Config, st: State, t: Tid, c: Class)
    requires Inv(k, st) && t < |st.threads| && st.threads[t].pc == Take(c)
    ensures c < |k.counts| && Keeps(k, StepTake(k, st, t, c))
  {
    Self(k, st, t);
    SizedHead(k, st, t, c);
    var s := st.threads[t].schain[c][0];
    if st.slabs[s].free - {Least(st.slabs[s].free)} == {} {
      TakeLastEffect(k, st, t, c, s);
    } else {
      TakeSomeEffect(k, st, t, c, s);
    }
    Conclude(k, st, StepTake(k, st, t, c), t, s);
  }

  lemma DetachKeeps(k: Config, st: State, t: Tid, c: Class, s: Idx, b: Block)
    requires Inv(k, st) && t < |st.threads| && st.threads[t].pc == Detach(c, s, b)
    ensures c < |k.counts| && Keeps(k, StepDetach(k, st, t, c, s, b))
  {
    Self(k, st, t);
    if st.slabs[s].remote.inner < k.counts[c] {
      DetachToDisownKeeps(k, st, t, c, s, b);
    } else {
      LocalView(k, st, t, s);
      DetachEffect(k, st, t, c, s, b);
      Conclude(k, st, StepDetach(k, st, t, c, s, b), t, s);
    }
  }

  lemma DisownKeeps(k: Config, st: State, t: Tid, s: Idx, b: Block)
    requires Inv(k, st) && t < |st.threads| && st.threads[t].pc == Disown(s, b)
    ensures Keeps(k, StepDisown(k, st, t, s, b))
  {
    Self(k, st, t);
    LocalView(k, st, t, s);
    DisownEffect(k, st, t, s, b);
    Conclude(k, st, StepDisown(k, st, t, s, b), t, s);
  }

  lemma FreeLocalKeeps(k: Config, st: State, t: Tid, s: Idx, b: Block)
    requires Inv(k, st) && t < |st.threads| && st.threads[t].pc == FreeLocal(s, b)
    ensures Keeps(k, StepFreeLocal(k, st, t, s, b))
  {
    Self(k, st, t);
    LocalView(k, st, t, s);
    LiveIsCounted(k, st, s, b);
    if st.slabs[s].place.Sized? { FreeAttachedEffect(k, st, t, s, b); } else { FreeDetachedEffect(k, st, t, s, b); }
    Conclude(k, st, StepFreeLocal(k, st, t, s, b), t, s);
  }

  lemma ServeGroup(k: Config, st: State, t: Tid)
    requires Inv(k, st) && t < |st.threads| && IsServing(st.threads[t].pc)
    ensures Keeps(k, StepServe(k, st, t))
  {
    match st.threads[t].pc
    case Refill(c) => RefillKeeps(k, st, t, c);
    case Take(c) => TakeKeeps(k, st, t, c);
  }

  lemma LetGoGroup(k: Config, st: State, t: Tid)
    requires Inv(k, st) && t < |st.threads| && IsLettingGo(st.threads[t].pc)
    ensures Keeps(k, StepLetGo(k, st, t))
  {
    match st.threads[t].pc
    case Detach(c, s, b) => DetachKeeps(k, st, t, c, s, b);
    case Disown(s, b) => DisownKeeps(k, st, t, s, b);
  }

  lemma RemoteCasKeeps(k: Config, st: State, t: Tid, s: Idx, b: Block, seen: Cell<nat>)
    requires Inv(k, st) && t < |st.threads| && st.threads[t].pc == RemoteCas(s, b, seen)
    ensures Keeps(k, StepRemoteCas(st, t, s, b, seen))
  {
    Self(k, st, t);
    if st.slabs[s].remote != seen {
      DecrementKeeps(k, st, t, st.threads[t], s, b);
    } else {
      LocalView(k, st, t, s);
      if seen.inner == 1 { LastEffect(k, st, t, s, b, seen); } else { RemoteEffect(k, st, t, s, b, seen); }
      Conclude(k, st, StepRemoteCas(st, t, s, b, seen), t, s);
    }
  }

  lemma UnsizeBounds(k: Config, st: State, t: Tid, c: Class, s: Idx)
    requires Inv(k, st) && t < |st.threads| && st.threads[t].pc == Unsize(c, s)
    ensures c < |k.counts| && s < |st.slabs|
  {
    Self(k, st, t);
  }

  lemma UnsizeKeeps(k: Config, st: State, t: Tid, c: Class, s: Idx)
    requires Inv(k, st) && t < |st.threads| && st.threads[t].pc == Unsize(c, s)
    ensures c < |k.counts| && Keeps(k, StepUnsize(k, st, t, c, s))
  {
    UnsizeBounds(k, st, t, c, s);
    LocalView(k, st, t, s);
    UnsizeEffect(k, st, t, c, s);
    Conclude(k, st, StepUnsize(k, st, t, c, s), t, s);
  }

  lemma ReturnGroup(k: Config, st: State, t: Tid)
    requires Inv(k, st) && t < |st.threads| && IsReturning(st.threads[t].pc)
    ensures Keeps(k, StepReturn(k, st, t))
  {
    match st.threads[t].pc
    case FreeOwner(s, b) => FreeOwnerKeeps(k, st, t, s, b);
    case FreeLocal(s, b) => FreeLocalKeeps(k, st, t, s, b);
    case Unsize(c, s) => UnsizeKeeps(k, st, t, c, s);
  }

  lemma RemoteGroup(k: Config, st: State, t: Tid)
    requires Inv(k, st) && t < |st.threads| && IsCountingOff(st.threads[t].pc)
    ensures Keeps(k, StepRemote(st, t))
  {
    match st.threads[t].pc
    case RemoteLoad(s, b) => DecrementKeeps(k, st, t, Announce(st.threads[t]), s, b);
    case RemoteCas(s, b, seen) => RemoteCasKeeps(k, st, t, s, b, seen);
    case RemoteDone(_) => DoneKeeps(k, st, t);
  }

  lemma PushLinkKeeps(k: Config, st: State, t: Tid, batch: seq<Idx>, seen: Head)
    requires Inv(k, st) && t < |st.threads| && st.threads[t].pc == PushLink(batch, seen)
    ensures Keeps(k, StepPushLink(st, t, batch, seen))
  {
    Self(k, st, t);
    var tail := batch[|batch| - 1];
    assert Carries(st.slabs, tail, t);
    LocalView(k, st, t, tail);
    PushLinkEffect(k, st, t, batch, seen, batch[|batch| - 1]);
    Conclude(k, st, StepPushLink(st, t, batch, seen), t, tail);
  }

  lemma PushGroup(k: Config, st: State, t: Tid)
    requires Inv(k, st) && t < |st.threads|
    requires var pc := st.threads[t].pc; pc.Spill? || pc.PushLoad? || pc.PushLink? || pc.PushCas?
    ensures Keeps(k, StepPush(k, st, t))
  {
    match st.threads[t].pc
    case Spill =>
      if st.threads[t].unsized.len <= k.cacheSlabs { DoneKeeps(k, st, t); } else { SpillKeeps(k, st, t); }
    case PushLoad(batch) => PushLoadKeeps(k, st, t, batch);
    case PushLink(batch, seen) => PushLinkKeeps(k, st, t, batch, seen);
    case PushCas(batch, seen) =>
      if st.head == seen { PushKeeps(k, st, t, batch, seen); } else { PushRetryKeeps(k, st, t, batch, seen); }
  }

  lemma ThreadKeeps(k: Config, st: State, t: Tid)
    requires Inv(k, st) && t < |st.threads|
    ensures StepThread(k, st, t).Some? && (Inv(k, StepThread(k, st, t).value) <==> !Outdated(st, t))
  {
    var pc := st.threads[t].pc;
    if pc.Idle? {
    } else if IsPopping(pc) {
      PopGroup(k, st, t);
    } else if IsAdopting(pc) {
      AdoptGroup(k, st, t);
    } else if IsClaiming(pc) {
      ClaimGroup(k, st, t);
    } else if IsBumping(pc) {
      BumpGroup(k, st, t);
    } else if IsServing(pc) {
      ServeGroup(k, st, t);
    } else if IsLettingGo(pc) {
      LetGoGroup(k, st, t);
    } else if IsReturning(pc) {
      ReturnGroup(k, st, t);
    } else if IsCountingOff(pc) {
      RemoteGroup(k, st, t);
    } else {
      PushGroup(k, st, t);
    }
  }

  /** The action is a pop whose link is outdated. */
  predicate Stale(st: State, a: Action) {
    a.Continue? && Outdated(st, a.t)
  }

  /**
  Every enabled action of a good state succeeds, and leads to a good state unless it pops the head with an
  outdated link: the one way the heap is ever corrupted.
  */
  lemma StepKeeps(k: Config, st: State, a: Action)
    requires Inv(k, st) && Enabled(k, st, a)
    ensures Step(k, st, a).Some? && (Inv(k, Step(k, st, a).value) <==> !Stale(st, a))
  {
    match a
    case Alloc(t, c) => AllocKeeps(k, st, t, c);
    case Free(t, s, b) =>
      LocalView(k, st, t, s);
      FreeEffect(k, st, t, s, b);
      Conclude(k, st, StepFree(st, t, s, b), t, s);
    case Continue(t) => ThreadKeeps(k, st, t);
  }

  lemma InitKeeps(k: Config, n: nat)
    requires ValidConfig(k)
    ensures Inv(k, Init(k, n))
  {
    var st := Init(k, n);
    forall t | 0 <= t < n ensures ThreadOK(k, st.next, st.slabs, st.threads[t], t) {
      assert st.threads[t] == FreshThread(k);
    }
  }

  ghost predicate Leads(k: Config, st: State, a: Action, st': State) {
    Shaped(k, st) && Enabled(k, st, a) && Step(k, st, a) == Some(st')
  }

  /** A run of `n` threads: states and the actions between them, started from empty memory. */
  ghost predicate IsRun(k: Config, n: nat, states: seq<State>, actions: seq<Action>) {
    && |states| == |actions| + 1 && states[0] == Init(k, n)
    && forall i :: 0 <= i < |actions| ==> Leads(k, states[i], actions[i], states[i + 1])
  }

  /** No action of the run pops the head with an outdated link. */
  ghost predicate NoStalePop(states: seq<State>, actions: seq<Action>)
    requires |states| == |actions| + 1
  {
    forall i :: 0 <= i < |actions| ==> !Stale(states[i], actions[i])
  }

  /** Up to the first pop with an outdated link, every state of a run satisfies the invariant. */
  lemma {:induction false} RunsKeepUpTo(k: Config, n: nat, states: seq<State>, actions: seq<Action>, i: nat)
    requires ValidConfig(k) && IsRun(k, n, states, actions) && i < |states|
    requires forall j :: 0 <= j < i ==> !Stale(states[j], actions[j])
    ensures Inv(k, states[i])
    decreases i
  {
    if i == 0 {
      InitKeeps(k, n);
    } else {
      RunsKeepUpTo(k, n, states, actions, i - 1);
      assert Leads(k, states[i - 1], actions[i - 1], states[i]);
      StepKeeps(k, states[i - 1], actions[i - 1]);
    }
  }

  /**
  Every state of a run without such a pop, of any number of threads and any interleaving, satisfies the invariant.
  */
  lemma RunsKeep(k: Config, n: nat, states: seq<State>, actions: seq<Action>, i: nat)
    requires ValidConfig(k) && IsRun(k, n, states, actions) && NoStalePop(states, actions) && i < |states|
    ensures Inv(k, states[i])
  {
    RunsKeepUpTo(k, n, states, actions, i);
  }

  /** And of no other run is that true: the pop with an outdated link leaves a state that breaks the invariant. */
  lemma RunsKeepIff(k: Config, n: nat, states: seq<State>, actions: seq<Action>)
    requires ValidConfig(k) && IsRun(k, n, states, actions)
    ensures NoStalePop(states, actions) <==> forall i :: 0 <= i < |states| ==> Inv(k, states[i])
  {
    if NoStalePop(states, actions) {
      forall i | 0 <= i < |states| ensures Inv(k, states[i]) {
        RunsKeep(k, n, states, actions, i);
      }
    } else {
      var i :| 0 <= i < |actions| && Stale(states[i], actions[i]);
      if Inv(k, states[i]) {
        StepKeeps(k, states[i], actions[i]);
        assert !Inv(k, states[i + 1]);
      }
    }
  }

  /** No such run ever gets to a panic: whatever the next enabled action, it goes through. */
  lemma RunsGoOn(k: Config, n: nat, states: seq<State>, actions: seq<Action>, a: Action)
    requires ValidConfig(k) && IsRun(k, n, states, actions) && NoStalePop(states, actions)
    requires Enabled(k, states[|actions|], a)
    ensures Shaped(k, states[|actions|]) && Step(k, states[|actions|], a).Some?
  {
    RunsKeep(k, n, states, actions, |actions|);
    StepKeeps(k, states[|actions|], a);
  }
}
