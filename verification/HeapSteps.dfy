/** No step panics, and every step but a pop with an outdated link keeps the invariant. */
module HeapSteps {
  import opened Options
  import opened Chains
  import opened Heap
  import opened HeapInvariant

  /** A slab whose record does not change is still where its place says, in the new state of thread `t`. */
  ghost predicate StaysPut(k: Config, slab: Slab, s: Idx, t: Tid, th: Thread, global: seq<Idx>) {
    && (slab.place == Unsized(t) ==> s in th.uchain)
    && (slab.place.Sized? && slab.place.t == t ==> slab.place.c < |th.schain| && s in th.schain[slab.place.c])
    && (slab.place == Flight(t) ==> InFlight(k, th.pc, s))
    && (slab.place == Global ==> s in global)
    && (forall b :: b in slab.blocks && slab.blocks[b] == By(t) ==> Handling(th.pc, s, b))
  }

  /** Nothing but thread `t`'s own record, and possibly the head, changes in a way other threads' records show. */
  ghost predicate OnlyThread(st: State, st': State, t: Tid) {
    && |st.next| == |st.slabs| && |st'.next| == |st'.slabs| == st'.bump.inner && |st.slabs| <= |st'.slabs|
    && t < |st.threads| == |st'.threads|
    && (forall u :: 0 <= u < |st.threads| && u != t ==> st'.threads[u] == st.threads[u])
  }

  ghost predicate SlabsMove(k: Config, st: State, st': State, t: Tid)
    requires OnlyThread(st, st', t)
  {
    forall s :: 0 <= s < |st'.slabs| ==>
      || (s < |st.slabs| && st'.slabs[s] == st.slabs[s] && StaysPut(k, st.slabs[s], s, t, st'.threads[t], st'.global))
      || SlabOK(k, st'.threads, st'.global, st'.slabs[s], s)
  }

  lemma OtherThreads(k: Config, st: State, st': State, t: Tid, u: Tid)
    requires Inv(k, st) && OnlyThread(st, st', t)
    requires u < |st.threads| && u != t && Kept(st.next, st.slabs, st'.next, st'.slabs, u)
    ensures ThreadOK(k, st'.next, st'.slabs, st'.threads[u], u)
  {
    assert ThreadOK(k, st.next, st.slabs, st.threads[u], u);
    FrameThread(k, st.next, st.slabs, st'.next, st'.slabs, st.threads[u], u);
  }

  lemma SlabStays(k: Config, st: State, st': State, t: Tid, s: Idx)
    requires OnlyThread(st, st', t) && s < |st.slabs| && st'.slabs[s] == st.slabs[s]
    requires SlabOK(k, st.threads, st.global, st.slabs[s], s)
    requires StaysPut(k, st.slabs[s], s, t, st'.threads[t], st'.global)
    ensures SlabOK(k, st'.threads, st'.global, st'.slabs[s], s)
  {
  }

  /** The obligations of one step of thread `t`, gathered. */
  lemma Assemble(k: Config, st: State, st': State, t: Tid)
    requires Inv(k, st) && OnlyThread(st, st', t)
    requires forall u :: 0 <= u < |st.threads| && u != t ==> Kept(st.next, st.slabs, st'.next, st'.slabs, u)
    requires ThreadOK(k, st'.next, st'.slabs, st'.threads[t], t)
    requires SlabsMove(k, st, st', t)
    requires GlobalOK(st'.next, st'.slabs, st'.head, st'.global)
    ensures Inv(k, st')
  {
    forall u | 0 <= u < |st.threads| && u != t
      ensures ThreadOK(k, st'.next, st'.slabs, st'.threads[u], u)
    {
      OtherThreads(k, st, st', t, u);
    }
    forall s | 0 <= s < |st'.slabs|
      ensures SlabOK(k, st'.threads, st'.global, st'.slabs[s], s)
    {
      if s < |st.slabs| && st'.slabs[s] == st.slabs[s] && StaysPut(k, st.slabs[s], s, t, st'.threads[t], st'.global) {
        assert SlabOK(k, st.threads, st.global, st.slabs[s], s);
        SlabStays(k, st, st', t, s);
      }
    }
  }

  /** Thread `t` of a state that satisfies the invariant. */
  lemma Self(k: Config, st: State, t: Tid)
    requires Inv(k, st) && t < |st.threads|
    ensures ThreadOK(k, st.next, st.slabs, st.threads[t], t)
  {
    assert ThreadOK(k, st.next, st.slabs, st.threads[t], t);
  }

  lemma KeptRefl(next: Nexts, slabs: seq<Slab>, u: Tid)
    requires |next| == |slabs|
    ensures Kept(next, slabs, next, slabs, u)
  {
  }

  /** Thread `t` moves on without touching any slab: its stacks stay as they are. */
  lemma MoveOn(k: Config, st: State, t: Tid, th: Thread)
    requires Inv(k, st) && t < |st.threads|
    requires th == st.threads[t].(pc := th.pc, log := th.log, version := th.version, entry := th.entry, took := th.took)
    requires forall s :: InFlight(k, st.threads[t].pc, s) ==> InFlight(k, th.pc, s)
    requires forall s, b :: Handling(st.threads[t].pc, s, b) ==> Handling(th.pc, s, b)
    requires |st.next| == |st.slabs| && PcOK(k, st.next, st.slabs, th, t)
    ensures Inv(k, WithThread(st, t, th))
  {
    var st' := WithThread(st, t, th);
    forall u | 0 <= u < |st.threads| && u != t
      ensures Kept(st.next, st.slabs, st'.next, st'.slabs, u)
    {
      KeptRefl(st.next, st.slabs, u);
    }
    forall s | 0 <= s < |st.slabs|
      ensures StaysPut(k, st.slabs[s], s, t, st'.threads[t], st'.global)
    {
      assert SlabOK(k, st.threads, st.global, st.slabs[s], s);
    }
    Self(k, st, t);
    MovedThread(k, st.next, st.slabs, st.threads[t], th, t);
    Assemble(k, st, st', t);
  }

  lemma MovedThread(k: Config, next: Nexts, slabs: seq<Slab>, th: Thread, th': Thread, t: Tid)
    requires ThreadOK(k, next, slabs, th, t)
    requires th' == th.(pc := th'.pc, log := th'.log, version := th'.version, entry := th'.entry, took := th'.took)
    requires PcOK(k, next, slabs, th', t)
    ensures ThreadOK(k, next, slabs, th', t)
  {
  }

  // Steps that change no slab

  lemma AllocKeeps(k: Config, st: State, t: Tid, c: Class)
    requires Inv(k, st) && Enabled(k, st, Alloc(t, c))
    ensures StepAlloc(k, st, t, c).Some? && Inv(k, StepAlloc(k, st, t, c).value)
  {
    var st' := StepAlloc(k, st, t, c).value;
    var th := st.threads[t];
    Self(k, st, t);
    assert SizedOK(st.next, st.slabs, th.sized[c], th.schain[c], t, c);
    if st' != st { MoveOn(k, st, t, st'.threads[t]); }
  }

  lemma GlobalEmptyKeeps(k: Config, st: State, t: Tid, c: Class)
    requires Inv(k, st) && t < |st.threads| && st.threads[t].pc == GlobalEmpty(c)
    ensures StepGlobalEmpty(st, t, c).Some? && Inv(k, StepGlobalEmpty(st, t, c).value)
  {
    Self(k, st, t);
    MoveOn(k, st, t, StepGlobalEmpty(st, t, c).value.threads[t]);
  }

  /** The head as it is now may be remembered: its slab exists. */
  lemma HeadKnown(k: Config, st: State)
    requires Inv(k, st)
    ensures Known(st.slabs, st.head)
  {
    if st.head.inner.Some? {
      assert st.global[0] < |st.next|;
    }
  }

  lemma GlobalLoadKeeps(k: Config, st: State, t: Tid, c: Class)
    requires Inv(k, st) && t < |st.threads| && st.threads[t].pc == GlobalLoad(c)
    ensures StepGlobalLoad(st, t, c).Some? && Inv(k, StepGlobalLoad(st, t, c).value)
  {
    Self(k, st, t);
    HeadKnown(k, st);
    MoveOn(k, st, t, StepGlobalLoad(st, t, c).value.threads[t]);
  }

  lemma GlobalNextKeeps(k: Config, st: State, t: Tid, c: Class, seen: Head)
    requires Inv(k, st) && t < |st.threads| && st.threads[t].pc == GlobalNext(c, seen)
    ensures StepGlobalNext(st, t, c, seen).Some? && Inv(k, StepGlobalNext(st, t, c, seen).value)
  {
    Self(k, st, t);
    MoveOn(k, st, t, StepGlobalNext(st, t, c, seen).value.threads[t]);
  }

  lemma GlobalRetryKeeps(k: Config, st: State, t: Tid, c: Class, seen: Head, n: Option<Idx>)
    requires Inv(k, st) && t < |st.threads| && st.threads[t].pc == GlobalCas(c, seen, n) && st.head != seen
    ensures StepGlobalCas(st, t, c, seen, n).Some? && Inv(k, StepGlobalCas(st, t, c, seen, n).value)
  {
    Self(k, st, t);
    HeadKnown(k, st);
    MoveOn(k, st, t, StepGlobalCas(st, t, c, seen, n).value.threads[t]);
  }

  lemma BumpLoadKeeps(k: Config, st: State, t: Tid, c: Class)
    requires Inv(k, st) && t < |st.threads|
    requires st.threads[t].pc == BumpLoad(c) || (st.threads[t].pc.BumpCas? && st.threads[t].pc.cls == c)
    ensures Inv(k, BumpFrom(st, t, Announce(st.threads[t]), c)) && Inv(k, BumpFrom(st, t, st.threads[t], c))
  {
    Self(k, st, t);
    MoveOn(k, st, t, BumpFrom(st, t, Announce(st.threads[t]), c).threads[t]);
    MoveOn(k, st, t, BumpFrom(st, t, st.threads[t], c).threads[t]);
  }

  lemma FreeOwnerKeeps(k: Config, st: State, t: Tid, s: Idx, b: Block)
    requires Inv(k, st) && t < |st.threads| && st.threads[t].pc == FreeOwner(s, b)
    ensures StepFreeOwner(st, t, s, b).Some? && Inv(k, StepFreeOwner(st, t, s, b).value)
  {
    Self(k, st, t);
    MoveOn(k, st, t, StepFreeOwner(st, t, s, b).value.threads[t]);
  }

  lemma PushSees(k: Config, next: Nexts, slabs: seq<Slab>, head: Head, th: Thread, t: Tid, batch: seq<Idx>)
    requires ThreadOK(k, next, slabs, th, t) && Known(slabs, head)
    requires th.pc == PushLoad(batch) || (th.pc.PushCas? && th.pc.batch == batch)
    ensures PcOK(k, next, slabs, th.(pc := PushLink(batch, head)), t)
  {
  }

  lemma PushLoadKeeps(k: Config, st: State, t: Tid, batch: seq<Idx>)
    requires Inv(k, st) && t < |st.threads| && st.threads[t].pc == PushLoad(batch)
    ensures StepPushLoad(st, t, batch).Some? && Inv(k, StepPushLoad(st, t, batch).value)
  {
    Self(k, st, t);
    HeadKnown(k, st);
    PushSees(k, st.next, st.slabs, st.head, st.threads[t], t, batch);
    MoveOn(k, st, t, StepPushLoad(st, t, batch).value.threads[t]);
  }

  lemma PushRetryKeeps(k: Config, st: State, t: Tid, batch: seq<Idx>, seen: Head)
    requires Inv(k, st) && t < |st.threads| && st.threads[t].pc == PushCas(batch, seen) && st.head != seen
    ensures StepPushCas(st, t, batch, seen).Some? && Inv(k, StepPushCas(st, t, batch, seen).value)
  {
    Self(k, st, t);
    HeadKnown(k, st);
    PushSees(k, st.next, st.slabs, st.head, st.threads[t], t, batch);
    MoveOn(k, st, t, StepPushCas(st, t, batch, seen).value.threads[t]);
  }

  /** A slab with a live block is counted, and its counter is positive. */
  lemma LiveIsCounted(k: Config, st: State, s: Idx, b: Block)
    requires Inv(k, st) && s < |st.slabs| && b in st.slabs[s].blocks
    ensures Counted(k, st.slabs[s]) && st.slabs[s].remote.inner > 0
    ensures st.slabs[s].place.Sized? || st.slabs[s].place.Detached?
  {
    assert SlabOK(k, st.threads, st.global, st.slabs[s], s);
  }

  lemma DecrementKeeps(k: Config, st: State, t: Tid, th: Thread, s: Idx, b: Block)
    requires Inv(k, st) && t < |st.threads| && (th == st.threads[t] || th == Announce(st.threads[t]))
    requires th.pc == RemoteLoad(s, b) || (th.pc.RemoteCas? && th.pc.s == s && th.pc.b == b)
    ensures s < |st.slabs| && DecrementFrom(st, t, th, s, b).Some? && Inv(k, DecrementFrom(st, t, th, s, b).value)
  {
    Self(k, st, t);
    LiveIsCounted(k, st, s, b);
    MoveOn(k, st, t, DecrementFrom(st, t, th, s, b).value.threads[t]);
  }

  lemma DetachToDisownKeeps(k: Config, st: State, t: Tid, c: Class, s: Idx, b: Block)
    requires Inv(k, st) && t < |st.threads| && st.threads[t].pc == Detach(c, s, b)
    ensures s < |st.slabs|
    ensures Inv(k, WithThread(st, t, Sees(st.threads[t], t, st.slabs[s].remote).(pc := Disown(s, b))))
  {
    Self(k, st, t);
    MoveOn(k, st, t, Sees(st.threads[t], t, st.slabs[s].remote).(pc := Disown(s, b)));
  }

  lemma DoneKeeps(k: Config, st: State, t: Tid)
    requires Inv(k, st) && t < |st.threads|
    requires st.threads[t].pc.Spill? || st.threads[t].pc.RemoteDone?
    ensures Inv(k, Done(st, t))
  {
    MoveOn(k, st, t, Done(st, t).threads[t]);
  }

  // Steps that change one slab

  /** Whatever thread `t` had besides slab `s`, it still has. */
  ghost predicate KeepsOthers(k: Config, th: Thread, th': Thread, s: Idx) {
    && (forall x :: x in th.uchain && x != s ==> x in th'.uchain)
    && |th'.schain| == |th.schain|
    && (forall c, x :: 0 <= c < |th.schain| && x in th.schain[c] && x != s ==> x in th'.schain[c])
    && (forall x :: InFlight(k, th.pc, x) && x != s ==> InFlight(k, th'.pc, x))
    && (forall x, b :: Handling(th.pc, x, b) && x != s ==> Handling(th'.pc, x, b))
  }

  /** `st'` differs from `st` in slab `s`, in thread `t`, and in `next` fields of slabs that are `t`'s to link. */
  ghost predicate ChangesOne(st: State, st': State, t: Tid, s: Idx) {
    && |st.next| == |st.slabs| == |st'.slabs| == |st'.next|
    && t < |st.threads| == |st'.threads| && s < |st.slabs|
    && st' == st.(next := st'.next, slabs := st.slabs[s := st'.slabs[s]], threads := st.threads[t := st'.threads[t]])
    && st.slabs[s].place != Global
    && (forall u :: u != t ==> SlabKept(st.slabs[s], st'.slabs[s], u))
    && (forall x :: 0 <= x < |st.next| && st'.next[x] != st.next[x] ==>
          Mine(st.slabs[x].place, t) || (x == s && st.slabs[s].place.Detached?))
  }

  lemma OneKept(st: State, st': State, t: Tid, s: Idx, u: Tid)
    requires ChangesOne(st, st', t, s) && u != t
    ensures Kept(st.next, st.slabs, st'.next, st'.slabs, u)
  {
  }

  lemma OneStays(k: Config, st: State, st': State, t: Tid, s: Idx, x: Idx)
    requires ChangesOne(st, st', t, s) && x < |st.slabs| && x != s
    requires SlabOK(k, st.threads, st.global, st.slabs[x], x)
    requires KeepsOthers(k, st.threads[t], st'.threads[t], s)
    ensures StaysPut(k, st.slabs[x], x, t, st'.threads[t], st'.global)
  {
  }

  /** The global stack is none of `t`'s business while its slabs and links are someone else's. */
  lemma OneGlobal(st: State, st': State, t: Tid, s: Idx)
    requires ChangesOne(st, st', t, s) && GlobalOK(st.next, st.slabs, st.head, st.global)
    ensures GlobalOK(st'.next, st'.slabs, st'.head, st'.global)
  {
    assert forall i :: 0 <= i < |st.global| ==> st'.next[st.global[i]] == st.next[st.global[i]];
    StackFrame(st.next, st'.next, st.head.inner, st.global);
  }

  /** What a step of thread `t` on slab `s` may look at. */
  ghost predicate Local(k: Config, st: State, t: Tid, s: Idx) {
    && ValidConfig(k) && Shaped(k, st) && t < |st.threads| && s < |st.slabs|
    && ThreadOK(k, st.next, st.slabs, st.threads[t], t)
    && SlabOK(k, st.threads, st.global, st.slabs[s], s)
  }

  lemma LocalView(k: Config, st: State, t: Tid, s: Idx)
    requires Inv(k, st) && t < |st.threads| && s < |st.slabs|
    ensures Local(k, st, t, s)
  {
  }

  /** What it must establish. */
  ghost predicate OneStep(k: Config, st: State, st': State, t: Tid, s: Idx) {
    && ChangesOne(st, st', t, s)
    && ThreadOK(k, st'.next, st'.slabs, st'.threads[t], t)
    && SlabOK(k, st'.threads, st'.global, st'.slabs[s], s)
    && KeepsOthers(k, st.threads[t], st'.threads[t], s)
  }

  lemma ChangeOne(k: Config, st: State, st': State, t: Tid, s: Idx)
    requires Inv(k, st) && OneStep(k, st, st', t, s)
    ensures Inv(k, st')
  {
    forall u | 0 <= u < |st.threads| && u != t
      ensures Kept(st.next, st.slabs, st'.next, st'.slabs, u)
    {
      OneKept(st, st', t, s, u);
    }
    OneGlobal(st, st', t, s);
    forall x | 0 <= x < |st.slabs| && x != s
      ensures st'.slabs[x] == st.slabs[x] && StaysPut(k, st.slabs[x], x, t, st'.threads[t], st'.global)
    {
      assert SlabOK(k, st.threads, st.global, st.slabs[x], x);
      OneStays(k, st, st', t, s, x);
    }
    Assemble(k, st, st', t);
  }

  /** A change to a slab that is on none of its stacks leaves a thread's stacks as they are. */
  lemma StacksApart(k: Config, next: Nexts, slabs: seq<Slab>, next': Nexts, slabs': seq<Slab>, th: Thread, t: Tid,
                    s: Idx)
    requires |next| == |slabs| == |next'| == |slabs'| && s < |slabs|
    requires StacksOK(k, next, slabs, th, t)
    requires !slabs[s].place.Unsized? && !slabs[s].place.Sized?
    requires forall x :: 0 <= x < |slabs| && x != s ==> slabs'[x] == slabs[x] && next'[x] == next[x]
    ensures StacksOK(k, next', slabs', th, t)
  {
    StackFrame(next, next', th.unsized.head, th.uchain);
    forall c | 0 <= c < |th.sized|
      ensures SizedOK(next', slabs', th.sized[c], th.schain[c], t, c)
    {
      assert SizedOK(next, slabs, th.sized[c], th.schain[c], t, c);
      StackFrame(next, next', th.sized[c].head, th.schain[c]);
    }
  }

  lemma SameStacks(k: Config, next: Nexts, slabs: seq<Slab>, th: Thread, th': Thread, t: Tid)
    requires |next| == |slabs| && StacksOK(k, next, slabs, th, t)
    requires th'.unsized == th.unsized && th'.sized == th.sized && th'.uchain == th.uchain && th'.schain == th.schain
    ensures StacksOK(k, next, slabs, th', t)
  {
    forall c | 0 <= c < |th'.sized| ensures SizedOK(next, slabs, th'.sized[c], th'.schain[c], t, c) {
      assert SizedOK(next, slabs, th.sized[c], th.schain[c], t, c);
    }
  }

  /** The thread keeps its stacks, and only its hold on slab `s` may change. */
  ghost predicate StacksKept(k: Config, th: Thread, th': Thread, s: Idx) {
    && th'.unsized == th.unsized && th'.sized == th.sized && th'.uchain == th.uchain && th'.schain == th.schain
    && (forall x :: InFlight(k, th.pc, x) && x != s ==> InFlight(k, th'.pc, x))
    && (forall x, b :: Handling(th.pc, x, b) && x != s ==> Handling(th'.pc, x, b))
  }

  /** A step on the slab a thread carries: its owner or its link changes, its place does not. */
  lemma CarryStep(k: Config, st: State, st': State, t: Tid, s: Idx)
    requires Local(k, st, t, s) && st.slabs[s].place == Flight(t)
    requires |st'.next| == |st.next| && |st'.slabs| == |st.slabs| && |st'.threads| == |st.threads|
    requires st' == st.(next := st.next[s := st'.next[s]],
                        slabs := st.slabs[s := st.slabs[s].(owner := st'.slabs[s].owner)],
                        threads := st.threads[t := st'.threads[t]])
    requires StacksKept(k, st.threads[t], st'.threads[t], s) && InFlight(k, st'.threads[t].pc, s)
    requires PcOK(k, st'.next, st'.slabs, st'.threads[t], t)
    ensures OneStep(k, st, st', t, s)
  {
    StacksApart(k, st.next, st.slabs, st'.next, st'.slabs, st.threads[t], t, s);
    SameStacks(k, st'.next, st'.slabs, st.threads[t], st'.threads[t], t);
  }

  /** A change to a slab that keeps its place and link keeps the stacks it is on. */
  lemma StacksInPlace(k: Config, next: Nexts, slabs: seq<Slab>, slabs': seq<Slab>, th: Thread, t: Tid, s: Idx)
    requires |next| == |slabs| && s < |slabs| && StacksOK(k, next, slabs, th, t)
    requires |slabs'| == |slabs| && slabs' == slabs[s := slabs'[s]] && slabs'[s].place == slabs[s].place
    ensures StacksOK(k, next, slabs', th, t)
  {
    forall c | 0 <= c < |th.sized|
      ensures SizedOK(next, slabs', th.sized[c], th.schain[c], t, c)
    {
      assert SizedOK(next, slabs, th.sized[c], th.schain[c], t, c);
    }
  }

  /** A step that changes blocks, counter or owner of a slab where it is. */
  lemma InPlaceStep(k: Config, st: State, st': State, t: Tid, s: Idx)
    requires Local(k, st, t, s) && st.slabs[s].place != Global
    requires |st'.slabs| == |st.slabs| && |st'.threads| == |st.threads|
    requires st' == WithThread(WithSlab(st, s, st'.slabs[s]), t, st'.threads[t])
    requires st'.slabs[s].place == st.slabs[s].place
    requires forall u :: u != t ==> SlabKept(st.slabs[s], st'.slabs[s], u)
    requires SlabOK(k, st'.threads, st'.global, st'.slabs[s], s)
    requires StacksKept(k, st.threads[t], st'.threads[t], s)
    requires PcOK(k, st'.next, st'.slabs, st'.threads[t], t)
    ensures OneStep(k, st, st', t, s)
  {
    StacksInPlace(k, st.next, st.slabs, st'.slabs, st.threads[t], t, s);
    SameStacks(k, st'.next, st'.slabs, st.threads[t], st'.threads[t], t);
  }

  lemma GlobalOwnEffect(k: Config, st: State, t: Tid, c: Class, s: Idx)
    requires Local(k, st, t, s) && st.threads[t].pc == GlobalOwn(c, s)
    ensures StepGlobalOwn(k, st, t, c, s).Some? && OneStep(k, st, StepGlobalOwn(k, st, t, c, s).value, t, s)
  {
    CarryStep(k, st, StepGlobalOwn(k, st, t, c, s).value, t, s);
  }

  lemma ClaimStealEffect(k: Config, st: State, t: Tid, s: Idx)
    requires Local(k, st, t, s) && st.threads[t].pc == ClaimSteal(s)
    ensures StepClaimSteal(st, t, s).Some? && OneStep(k, st, StepClaimSteal(st, t, s).value, t, s)
  {
    CarryStep(k, st, StepClaimSteal(st, t, s).value, t, s);
  }

  lemma LinkPc(k: Config, next: Nexts, slabs: seq<Slab>, th: Thread, t: Tid, s: Idx, pc: Pc)
    requires |next| == |slabs| && PcOK(k, next, slabs, th, t) && (th.pc.GlobalLink? || th.pc.ClaimLink?) && th.pc.s == s
    requires pc == if th.pc.GlobalLink? then GlobalSet(th.pc.cls, s) else ClaimSet(s)
    ensures Carries(slabs, s, t) && PcOK(k, next[s := th.unsized.head], slabs, th.(pc := pc), t)
    ensures StacksKept(k, th, th.(pc := pc), s) && InFlight(k, pc, s)
  {
  }

  lemma LinkStep(st: State, t: Tid, s: Idx, pc: Pc)
    requires t < |st.threads| && s < |st.next| == |st.slabs|
    ensures StepLink(st, t, s, pc).Some?
    ensures var st' := StepLink(st, t, s, pc).value;
            && st'.next == st.next[s := st.threads[t].unsized.head] && st'.slabs == st.slabs
            && st'.slabs == st.slabs[s := st.slabs[s].(owner := st.slabs[s].owner)]
            && st' == st.(next := st'.next, threads := st.threads[t := st.threads[t].(pc := pc)])
  {
  }

  /** Writing the link of a slab in flight, for a pop from the global stack or for a claim. */
  lemma LinkEffect(k: Config, st: State, t: Tid, s: Idx, pc: Pc)
    requires Local(k, st, t, s)
    requires st.threads[t].pc.GlobalLink? || st.threads[t].pc.ClaimLink?
    requires st.threads[t].pc.s == s
    requires pc == if st.threads[t].pc.GlobalLink? then GlobalSet(st.threads[t].pc.cls, s) else ClaimSet(s)
    ensures StepLink(st, t, s, pc).Some? && OneStep(k, st, StepLink(st, t, s, pc).value, t, s)
  {
    LinkPc(k, st.next, st.slabs, st.threads[t], t, s, pc);
    LinkStep(st, t, s, pc);
    CarryStep(k, st, StepLink(st, t, s, pc).value, t, s);
  }

  /** A slab in flight whose link is written becomes the top of the unsized stack. */
  lemma SetStacks(k: Config, next: Nexts, slabs: seq<Slab>, slabs': seq<Slab>, th: Thread, th': Thread, t: Tid, s: Idx)
    requires |next| == |slabs| == |slabs'| && StacksOK(k, next, slabs, th, t)
    requires Carries(slabs, s, t) && next[s] == th.unsized.head
    requires slabs' == slabs[s := slabs[s].(place := Unsized(t))]
    requires th' == th.(unsized := Stack(Some(s), th.unsized.len + 1), uchain := [s] + th.uchain, pc := th'.pc)
    ensures StacksOK(k, next, slabs', th', t)
  {
    StackPush(next, th.unsized.head, th.uchain, s);
    forall c | 0 <= c < |th.sized|
      ensures SizedOK(next, slabs', th'.sized[c], th'.schain[c], t, c)
    {
      assert SizedOK(next, slabs, th.sized[c], th.schain[c], t, c);
    }
  }

  lemma SetChanges(k: Config, st: State, t: Tid, s: Idx, pc: Pc)
    requires Shaped(k, st) && t < |st.threads| && Carries(st.slabs, s, t) && st.slabs[s].blocks == map[]
    requires st.threads[t].pc.GlobalSet? || st.threads[t].pc.ClaimSet?
    requires st.threads[t].pc.s == s
    ensures StepSet(st, t, s, pc).Some? && ChangesOne(st, StepSet(st, t, s, pc).value, t, s)
    ensures KeepsOthers(k, st.threads[t], StepSet(st, t, s, pc).value.threads[t], s)
  {
  }

  /** The slab is on the stack, and the thread goes on to use the stack. */
  lemma SetThread(k: Config, next: Nexts, slabs: seq<Slab>, th: Thread, th': Thread, t: Tid)
    requires |next| == |slabs| && StacksOK(k, next, slabs, th', t) && th'.uchain != []
    requires th.pc.GlobalSet? || th.pc.ClaimSet?
    requires th.pc.GlobalSet? ==> th.pc.cls < |k.counts| && k.counts[th.pc.cls] > 0
    requires th'.pc == if th.pc.GlobalSet? then Refill(th.pc.cls) else Spill
    ensures ThreadOK(k, next, slabs, th', t)
  {
  }

  lemma SetEffect(k: Config, st: State, t: Tid, s: Idx, pc: Pc)
    requires Local(k, st, t, s)
    requires st.threads[t].pc.GlobalSet? || st.threads[t].pc.ClaimSet?
    requires st.threads[t].pc.s == s
    requires pc == if st.threads[t].pc.GlobalSet? then Refill(st.threads[t].pc.cls) else Spill
    ensures StepSet(st, t, s, pc).Some? && OneStep(k, st, StepSet(st, t, s, pc).value, t, s)
  {
    SetChanges(k, st, t, s, pc);
    var st' := StepSet(st, t, s, pc).value;
    SetStacks(k, st.next, st.slabs, st'.slabs, st.threads[t], st'.threads[t], t, s);
    SetThread(k, st'.next, st'.slabs, st.threads[t], st'.threads[t], t);
  }

  lemma BumpOwnEffect(k: Config, st: State, t: Tid, c: Class, start: Idx, i: nat, s: Idx)
    requires s == start + i && Local(k, st, t, s) && st.threads[t].pc == BumpOwn(c, start, i)
    ensures StepBumpOwn(k, st, t, c, start, i).Some? && OneStep(k, st, StepBumpOwn(k, st, t, c, start, i).value, t, s)
  {
    assert BumpedAt(k, st.next, st.slabs, t, start, i, i, s);
    var st' := StepBumpOwn(k, st, t, c, start, i).value;
    var m := i + 1;
    forall j | start <= j < start + k.bumpBatch ensures BumpedAt(k, st'.next, st'.slabs, t, start, m, i, j) {
      assert BumpedAt(k, st.next, st.slabs, t, start, i, i, j);
    }
    CarryStep(k, st, st', t, s);
  }

  lemma BumpNextRange(k: Config, next: Nexts, slabs: seq<Slab>, t: Tid, start: Idx, i: nat)
    requires BumpOK(k, next, slabs, t, start, i + 1, i) && i < k.bumpBatch
    ensures start + i < |next|
    ensures var next' := next[start + i := if i + 1 < k.bumpBatch then Some(start + i + 1) else None];
            BumpOK(k, next', slabs, t, start, i + 1, i + 1)
  {
    var next', m := next[start + i := if i + 1 < k.bumpBatch then Some(start + i + 1) else None], i + 1;
    forall j | start <= j < start + k.bumpBatch ensures BumpedAt(k, next', slabs, t, start, m, m, j) {
      assert BumpedAt(k, next, slabs, t, start, m, i, j);
    }
  }

  lemma BumpNextEffect(k: Config, st: State, t: Tid, c: Class, start: Idx, i: nat, s: Idx)
    requires s == start + i && Local(k, st, t, s) && st.threads[t].pc == BumpNext(c, start, i)
    ensures StepBumpNext(k, st, t, c, start, i).Some? && OneStep(k, st, StepBumpNext(k, st, t, c, start, i).value, t, s)
  {
    assert BumpedAt(k, st.next, st.slabs, t, start, i + 1, i, s);
    BumpNextRange(k, st.next, st.slabs, t, start, i);
    CarryStep(k, st, StepBumpNext(k, st, t, c, start, i).value, t, s);
  }

  /** The top of the unsized stack moves to the top of sized stack `c`. */
  lemma RefillStacks(k: Config, next: Nexts, slabs: seq<Slab>, next': Nexts, slabs': seq<Slab>, th: Thread, th': Thread,
                     t: Tid, c: Class)
    requires |next| == |slabs| == |slabs'| && StacksOK(k, next, slabs, th, t) && c < |k.counts| && th.uchain != []
    requires var s := th.uchain[0];
             && next' == next[s := th.sized[c].head]
             && slabs' == slabs[s := slabs'[s]] && slabs'[s].place == Sized(t, c)
             && th'.unsized == Stack(next[s], th.unsized.len - 1) && th'.uchain == th.uchain[1..]
             && th'.sized == th.sized[c := Stack(Some(s), th.sized[c].len + 1)]
             && th'.schain == th.schain[c := [s] + th.schain[c]]
    ensures StacksOK(k, next', slabs', th', t)
  {
    var s := th.uchain[0];
    assert slabs[s].place == Unsized(t);
    StackPop(next, th.unsized.head, th.uchain);
    StackFrame(next, next', next[s], th.uchain[1..]);
    forall d | 0 <= d < |th.sized|
      ensures SizedOK(next', slabs', th'.sized[d], th'.schain[d], t, d)
    {
      assert SizedOK(next, slabs, th.sized[d], th.schain[d], t, d);
      StackFrame(next, next', th.sized[d].head, th.schain[d]);
      if d == c { StackPush(next', th.sized[c].head, th.schain[c], s); }
    }
  }

  lemma RefillOthers(k: Config, th: Thread, th': Thread, s: Idx, c: Class)
    requires th.uchain != [] && th.uchain[0] == s && c < |th.schain| && th.pc.Refill? && th'.pc.Take?
    requires th'.uchain == th.uchain[1..] && th'.schain == th.schain[c := [s] + th.schain[c]]
    ensures KeepsOthers(k, th, th', s)
  {
  }

  lemma RefillChanges(k: Config, st: State, t: Tid, c: Class, s: Idx)
    requires Shaped(k, st) && t < |st.threads| && c < |k.counts| && s < |st.slabs|
    requires st.slabs[s].place == Unsized(t) && st.slabs[s].blocks == map[]
    requires st.threads[t].unsized.head == Some(s) && st.threads[t].unsized.len > 0
    ensures StepRefill(k, st, t, c).Some? && ChangesOne(st, StepRefill(k, st, t, c).value, t, s)
  {
  }

  lemma RefillEffect(k: Config, st: State, t: Tid, c: Class)
    requires t < |st.threads| && st.threads[t].uchain != [] && Local(k, st, t, st.threads[t].uchain[0])
    requires st.threads[t].pc == Refill(c)
    ensures StepRefill(k, st, t, c).Some? && OneStep(k, st, StepRefill(k, st, t, c).value, t, st.threads[t].uchain[0])
  {
    var th := st.threads[t];
    var s := th.uchain[0];
    assert st.slabs[s].place == Unsized(t);
    RefillChanges(k, st, t, c, s);
    var st' := StepRefill(k, st, t, c).value;
    RefillStacks(k, st.next, st.slabs, st'.next, st'.slabs, th, st'.threads[t], t, c);
    RefillOthers(k, th, st'.threads[t], s, c);
  }

  // Handing out a block

  /** Moving a block from the free set to the live blocks. */
  lemma TakeCounted(k: Config, slab: Slab, b: Block, h: Holder, place: Place)
    requires Counted(k, slab) && b in slab.free
    ensures Counted(k, slab.(free := slab.free - {b}, blocks := slab.blocks[b := h], place := place))
  {
    var slab' := slab.(free := slab.free - {b}, blocks := slab.blocks[b := h], place := place);
    assert slab'.blocks.Keys == slab.blocks.Keys + {b};
    assert |slab'.blocks.Keys| == |slab.blocks.Keys| + 1;
  }

  lemma TakeSomeEffect(k: Config, st: State, t: Tid, c: Class, s: Idx)
    requires Local(k, st, t, s) && st.threads[t].pc == Take(c) && c < |k.counts|
    requires st.threads[t].sized[c].head == Some(s) && st.slabs[s].place == Sized(t, c)
    requires st.slabs[s].free != {} && st.slabs[s].free - {Least(st.slabs[s].free)} != {}
    ensures StepTake(k, st, t, c).Some? && OneStep(k, st, StepTake(k, st, t, c).value, t, s)
  {
    TakeCounted(k, st.slabs[s], Least(st.slabs[s].free), App, Sized(t, c));
    InPlaceStep(k, st, StepTake(k, st, t, c).value, t, s);
  }

  /** The top of sized stack `c` leaves it. */
  lemma DetachStacks(k: Config, next: Nexts, slabs: seq<Slab>, slabs': seq<Slab>, th: Thread, th': Thread, t: Tid,
                     c: Class)
    requires |next| == |slabs| == |slabs'| && StacksOK(k, next, slabs, th, t) && c < |k.counts| && th.schain[c] != []
    requires var s := th.schain[c][0];
             && s < |slabs| && slabs' == slabs[s := slabs'[s]]
             && th'.unsized == th.unsized && th'.uchain == th.uchain
             && th.sized[c].len > 0 && th'.sized == th.sized[c := Stack(next[s], th.sized[c].len - 1)]
             && th'.schain == th.schain[c := th.schain[c][1..]]
    ensures StacksOK(k, next, slabs', th', t)
  {
    var s := th.schain[c][0];
    assert SizedOK(next, slabs, th.sized[c], th.schain[c], t, c);
    assert slabs[s].place == Sized(t, c);
    forall d | 0 <= d < |th.sized|
      ensures SizedOK(next, slabs', th'.sized[d], th'.schain[d], t, d)
    {
      assert SizedOK(next, slabs, th.sized[d], th.schain[d], t, d);
      if d == c { StackPop(next, th.sized[c].head, th.schain[c]); }
    }
  }

  lemma DetachOthers(k: Config, th: Thread, th': Thread, s: Idx, c: Class)
    requires c < |th.schain| && th.schain[c] != [] && th.schain[c][0] == s && th.pc.Take? && th'.pc.Detach?
    requires th'.uchain == th.uchain && th'.schain == th.schain[c := th.schain[c][1..]]
    ensures KeepsOthers(k, th, th', s)
  {
  }

  lemma TakeLastChanges(k: Config, st: State, t: Tid, c: Class, s: Idx)
    requires Shaped(k, st) && t < |st.threads| && c < |k.counts| && s < |st.slabs|
    requires st.threads[t].sized[c].head == Some(s) && st.threads[t].sized[c].len > 0
    requires st.slabs[s].place == Sized(t, c) && st.slabs[s].owner == Some(t)
    requires st.slabs[s].free != {} && st.slabs[s].free - {Least(st.slabs[s].free)} == {}
    requires st.slabs[s].free !! st.slabs[s].blocks.Keys
    ensures StepTake(k, st, t, c).Some? && ChangesOne(st, StepTake(k, st, t, c).value, t, s)
  {
  }

  lemma TakeLastThread(k: Config, next: Nexts, slabs: seq<Slab>, slabs': seq<Slab>, th: Thread, th': Thread, t: Tid,
                       c: Class, s: Idx, b: Block)
    requires ThreadOK(k, next, slabs, th, t) && c < |k.counts| && th.schain[c] != [] && th.schain[c][0] == s
    requires s < |slabs| == |slabs'| && slabs' == slabs[s := slabs'[s]] && th.sized[c].len > 0
    requires Holds(slabs', s, b, t)
    requires slabs'[s].place == Detached && slabs'[s].owner == Some(t) && slabs'[s].cls == c
    requires th' == th.(sized := th.sized[c := Stack(next[s], th.sized[c].len - 1)],
                        schain := th.schain[c := th.schain[c][1..]], pc := Detach(c, s, b))
    ensures ThreadOK(k, next, slabs', th', t)
  {
    DetachStacks(k, next, slabs, slabs', th, th', t, c);
  }

  lemma TakeLastSlab(k: Config, threads: seq<Thread>, threads': seq<Thread>, global: seq<Idx>, slab: Slab, slab': Slab,
                     s: Idx, t: Tid, c: Class, b: Block)
    requires SlabOK(k, threads, global, slab, s) && slab.place == Sized(t, c) && b in slab.free && slab.free - {b} == {}
    requires slab' == slab.(free := slab.free - {b}, blocks := slab.blocks[b := By(t)], place := Detached)
    requires t < |threads| == |threads'| && threads[t].pc.Take? && threads'[t].pc == Detach(c, s, b)
    requires forall u :: 0 <= u < |threads| && u != t ==> threads'[u] == threads[u]
    ensures SlabOK(k, threads', global, slab', s)
  {
    TakeCounted(k, slab, b, By(t), Detached);
  }

  lemma TakeLastEffect(k: Config, st: State, t: Tid, c: Class, s: Idx)
    requires Local(k, st, t, s) && st.threads[t].pc == Take(c) && c < |k.counts|
    requires st.threads[t].schain[c] != [] && st.threads[t].schain[c][0] == s
    requires st.threads[t].sized[c].head == Some(s) && st.threads[t].sized[c].len > 0
    requires st.slabs[s].place == Sized(t, c)
    requires st.slabs[s].free != {} && st.slabs[s].free - {Least(st.slabs[s].free)} == {}
    ensures StepTake(k, st, t, c).Some? && OneStep(k, st, StepTake(k, st, t, c).value, t, s)
  {
    TakeLastChanges(k, st, t, c, s);
    var st', b := StepTake(k, st, t, c).value, Least(st.slabs[s].free);
    TakeLastSlab(k, st.threads, st'.threads, st.global, st.slabs[s], st'.slabs[s], s, t, c, b);
    TakeLastThread(k, st.next, st.slabs, st'.slabs, st.threads[t], st'.threads[t], t, c, s, b);
    DetachOthers(k, st.threads[t], st'.threads[t], s, c);
  }

  /** Passing a block between the application and an operation. */
  lemma HandCounted(k: Config, slab: Slab, b: Block, h: Holder)
    requires Counted(k, slab) && b in slab.blocks
    ensures Counted(k, slab.(blocks := slab.blocks[b := h])) && slab.blocks[b := h] != map[]
  {
    assert slab.blocks[b := h].Keys == slab.blocks.Keys;
    assert |slab.blocks[b := h].Keys| == |slab.blocks.Keys|;
  }

  /** Threads other than `t` stay; `t` keeps its stacks and handled no block of slab `s` but `b`. */
  ghost predicate HandlesOnly(threads: seq<Thread>, threads': seq<Thread>, t: Tid, s: Idx, b: Block) {
    && t < |threads| == |threads'|
    && (forall u :: 0 <= u < |threads| && u != t ==> threads'[u] == threads[u])
    && threads'[t].uchain == threads[t].uchain && threads'[t].schain == threads[t].schain
    && (forall x :: Handling(threads[t].pc, s, x) ==> x == b)
  }

  lemma HandedOK(k: Config, threads: seq<Thread>, threads': seq<Thread>, global: seq<Idx>, slab: Slab, slab': Slab,
                 s: Idx, b: Block, h: Holder, t: Tid)
    requires SlabOK(k, threads, global, slab, s) && b in slab.blocks && HandlesOnly(threads, threads', t, s, b)
    requires h == App || (h == By(t) && Handling(threads'[t].pc, s, b))
    requires slab' == slab.(blocks := slab.blocks[b := h], owner := slab'.owner)
    requires slab'.owner == slab.owner || slab.place.Detached?
    ensures SlabOK(k, threads', global, slab', s) && !slab.place.Global?
    ensures slab.blocks[b] in {App, By(t)} && (slab'.owner == slab.owner || slab.owner == Some(t)) ==>
              forall u :: u != t ==> SlabKept(slab, slab', u)
  {
    HandCounted(k, slab, b, h);
  }

  lemma DetachEffect(k: Config, st: State, t: Tid, c: Class, s: Idx, b: Block)
    requires Local(k, st, t, s) && st.threads[t].pc == Detach(c, s, b) && st.slabs[s].remote.inner >= k.counts[c]
    ensures StepDetach(k, st, t, c, s, b).Some? && OneStep(k, st, StepDetach(k, st, t, c, s, b).value, t, s)
  {
    var st' := StepDetach(k, st, t, c, s, b).value;
    HandedOK(k, st.threads, st'.threads, st.global, st.slabs[s], st'.slabs[s], s, b, App, t);
    InPlaceStep(k, st, st', t, s);
  }

  lemma DisownEffect(k: Config, st: State, t: Tid, s: Idx, b: Block)
    requires Local(k, st, t, s) && st.threads[t].pc == Disown(s, b)
    ensures StepDisown(k, st, t, s, b).Some? && OneStep(k, st, StepDisown(k, st, t, s, b).value, t, s)
  {
    var st' := StepDisown(k, st, t, s, b).value;
    HandedOK(k, st.threads, st'.threads, st.global, st.slabs[s], st'.slabs[s], s, b, App, t);
    InPlaceStep(k, st, st', t, s);
  }

  lemma FreeEffect(k: Config, st: State, t: Tid, s: Idx, b: Block)
    requires Local(k, st, t, s) && st.threads[t].pc == Idle && b in st.slabs[s].blocks && st.slabs[s].blocks[b] == App
    ensures StepFree(st, t, s, b).Some? && OneStep(k, st, StepFree(st, t, s, b).value, t, s)
  {
    var st' := StepFree(st, t, s, b).value;
    HandedOK(k, st.threads, st'.threads, st.global, st.slabs[s], st'.slabs[s], s, b, By(t), t);
    InPlaceStep(k, st, st', t, s);
  }

  // Freeing

  /** Taking a live block away, and adding it to the free set when it is freed by the owner. */
  lemma FreeCounted(k: Config, slab: Slab, b: Block)
    requires Counted(k, slab) && b in slab.blocks
    ensures |slab.blocks - {b}| == |slab.blocks| - 1
    ensures |slab.free + {b}| == |slab.free| + 1
    ensures Counted(k, slab.(free := slab.free + {b}, blocks := slab.blocks - {b}))
  {
    assert (slab.blocks - {b}).Keys == slab.blocks.Keys - {b};
    assert |(slab.blocks - {b}).Keys| == |slab.blocks.Keys| - 1;
  }

  /** Blocks of a class are fewer than its count, and a full set of free blocks leaves no block live. */
  lemma CountedBound(k: Config, slab: Slab)
    requires Counted(k, slab)
    ensures |slab.free| <= k.counts[slab.cls]
    ensures |slab.free| == k.counts[slab.cls] ==> slab.blocks == map[]
  {
    var full := Full(k.counts[slab.cls]);
    assert slab.free <= full;
    SubsetSize(slab.free, full);
    if |slab.free| == k.counts[slab.cls] && slab.blocks != map[] {
      var b :| b in slab.blocks;
      assert slab.free <= full - {b};
      SubsetSize(slab.free, full - {b});
      assert false;
    }
  }

  lemma {:induction false} SubsetSize(a: set<nat>, b: set<nat>)
    requires a <= b
    ensures |a| <= |b|
    decreases a
  {
    if a != {} {
      var x :| x in a;
      SubsetSize(a - {x}, b - {x});
    }
  }

  /** The slab after its owner has freed block `b`. */
  function Freed(slab: Slab, b: Block, place: Place): Slab {
    slab.(free := slab.free + {b}, blocks := slab.blocks - {b}, place := place)
  }

  lemma FreedOK(k: Config, threads: seq<Thread>, threads': seq<Thread>, global: seq<Idx>, slab: Slab, s: Idx, b: Block,
                t: Tid, c: Class)
    requires SlabOK(k, threads, global, slab, s) && t < |threads| == |threads'| && slab.cls == c
    requires slab.owner == Some(t)
    requires b in slab.blocks && slab.blocks[b] == By(t) && threads[t].pc == FreeLocal(s, b)
    requires c < |threads'[t].schain| && s in threads'[t].schain[c]
    requires forall u :: 0 <= u < |threads| && u != t ==> threads'[u] == threads[u]
    ensures SlabOK(k, threads', global, Freed(slab, b, Sized(t, c)), s)
    ensures Counted(k, slab) && |slab.free + {b}| == |slab.free| + 1 <= k.counts[c]
  {
    FreeCounted(k, slab, b);
    CountedBound(k, Freed(slab, b, slab.place));
  }

  lemma FreeAttachedChanges(k: Config, st: State, t: Tid, s: Idx, b: Block)
    requires Shaped(k, st) && t < |st.threads| && s < |st.slabs| && st.slabs[s].cls < |k.counts|
    requires st.slabs[s].place == Sized(t, st.slabs[s].cls) && b !in st.slabs[s].free && |st.slabs[s].free + {b}| > 1
    requires b in st.slabs[s].blocks && st.slabs[s].blocks[b] == By(t) && st.slabs[s].owner == Some(t)
    ensures StepFreeLocal(k, st, t, s, b).Some? && ChangesOne(st, StepFreeLocal(k, st, t, s, b).value, t, s)
    ensures StepFreeLocal(k, st, t, s, b).value.slabs[s] == Freed(st.slabs[s], b, Sized(t, st.slabs[s].cls))
  {
  }

  /** What a local free leaves the thread to do: nothing, or return a full slab to the unsized stack. */
  lemma FreedPc(k: Config, next: Nexts, slabs: seq<Slab>, th: Thread, t: Tid, s: Idx, c: Class)
    requires |next| == |slabs| && StacksOK(k, next, slabs, th, t) && s < |slabs| && c < |k.counts|
    requires slabs[s].place == Sized(t, c) && |slabs[s].free| <= k.counts[c]
    requires th.pc == if |slabs[s].free| >= k.counts[c] then Unsize(c, s) else Idle
    ensures ThreadOK(k, next, slabs, th, t)
  {
  }

  lemma FreedOthers(k: Config, th: Thread, th': Thread, s: Idx, b: Block)
    requires th.pc == FreeLocal(s, b) && (th'.pc.Idle? || th'.pc.Unsize?)
    requires th'.uchain == th.uchain && th'.schain == th.schain
    ensures KeepsOthers(k, th, th', s)
  {
  }

  /** The owner frees a block of a slab that is on its sized stack already. */
  lemma FreeAttachedEffect(k: Config, st: State, t: Tid, s: Idx, b: Block)
    requires Local(k, st, t, s) && st.threads[t].pc == FreeLocal(s, b) && st.slabs[s].place.Sized?
    ensures StepFreeLocal(k, st, t, s, b).Some? && OneStep(k, st, StepFreeLocal(k, st, t, s, b).value, t, s)
  {
    var slab := st.slabs[s];
    FreeCounted(k, slab, b);
    FreeAttachedChanges(k, st, t, s, b);
    var st' := StepFreeLocal(k, st, t, s, b).value;
    FreedOK(k, st.threads, st'.threads, st.global, slab, s, b, t, slab.cls);
    StacksInPlace(k, st.next, st.slabs, st'.slabs, st.threads[t], t, s);
    SameStacks(k, st.next, st'.slabs, st.threads[t], st'.threads[t], t);
    FreedPc(k, st'.next, st'.slabs, st'.threads[t], t, s, slab.cls);
    FreedOthers(k, st.threads[t], st'.threads[t], s, b);
  }

  /** A slab on no stack becomes the top of sized stack `c`. */
  lemma AttachStacks(k: Config, next: Nexts, slabs: seq<Slab>, next': Nexts, slabs': seq<Slab>, th: Thread, th': Thread,
                     t: Tid, s: Idx, c: Class)
    requires |next| == |slabs| == |slabs'| && s < |slabs| && StacksOK(k, next, slabs, th, t) && c < |k.counts|
    requires slabs[s].place.Detached?
    requires next' == next[s := th.sized[c].head]
    requires slabs' == slabs[s := slabs'[s]] && slabs'[s].place == Sized(t, c)
    requires th'.unsized == th.unsized && th'.uchain == th.uchain
    requires th'.sized == th.sized[c := Stack(Some(s), th.sized[c].len + 1)]
    requires th'.schain == th.schain[c := [s] + th.schain[c]]
    ensures StacksOK(k, next', slabs', th', t)
  {
    StackFrame(next, next', th.unsized.head, th.uchain);
    forall d | 0 <= d < |th.sized|
      ensures SizedOK(next', slabs', th'.sized[d], th'.schain[d], t, d)
    {
      assert SizedOK(next, slabs, th.sized[d], th.schain[d], t, d);
      StackFrame(next, next', th.sized[d].head, th.schain[d]);
      if d == c { StackPush(next', th.sized[c].head, th.schain[c], s); }
    }
  }

  lemma AttachChanges(k: Config, st: State, t: Tid, s: Idx, b: Block)
    requires Shaped(k, st) && t < |st.threads| && s < |st.slabs| && st.slabs[s].cls < |k.counts|
    requires st.slabs[s].place.Detached? && st.slabs[s].free == {} && st.slabs[s].owner == Some(t)
    requires b in st.slabs[s].blocks && st.slabs[s].blocks[b] == By(t)
    ensures StepFreeLocal(k, st, t, s, b).Some? && ChangesOne(st, StepFreeLocal(k, st, t, s, b).value, t, s)
    ensures StepFreeLocal(k, st, t, s, b).value.slabs[s] == Freed(st.slabs[s], b, Sized(t, st.slabs[s].cls))
  {
    assert |st.slabs[s].free + {b}| == 1;
  }

  lemma AttachOthers(k: Config, th: Thread, th': Thread, s: Idx, b: Block, c: Class)
    requires c < |th.schain| && th.pc == FreeLocal(s, b) && (th'.pc.Idle? || th'.pc.Unsize?)
    requires th'.uchain == th.uchain && th'.schain == th.schain[c := [s] + th.schain[c]]
    ensures KeepsOthers(k, th, th', s)
  {
  }

  lemma AttachStep(k: Config, st: State, t: Tid, s: Idx, b: Block, c: Class)
    requires Shaped(k, st) && t < |st.threads| && s < |st.slabs| && st.slabs[s].cls == c < |k.counts|
    requires st.slabs[s].free == {}
    ensures StepFreeLocal(k, st, t, s, b).Some?
    ensures var st', th := StepFreeLocal(k, st, t, s, b).value, st.threads[t];
            && |st'.threads| == |st.threads| && st'.next == st.next[s := th.sized[c].head]
            && st'.slabs == st.slabs[s := Freed(st.slabs[s], b, Sized(t, c))] && st'.global == st.global
            && (forall u :: 0 <= u < |st.threads| && u != t ==> st'.threads[u] == st.threads[u])
            && st'.threads[t] == th.(sized := th.sized[c := Stack(Some(s), th.sized[c].len + 1)],
                                     schain := th.schain[c := [s] + th.schain[c]],
                                     log := st'.threads[t].log, pc := if 1 >= k.counts[c] then Unsize(c, s) else Idle)
  {
    assert |st.slabs[s].free + {b}| == 1;
  }

  lemma FreeDetachedSlab(k: Config, st: State, t: Tid, s: Idx, b: Block)
    requires Local(k, st, t, s) && st.threads[t].pc == FreeLocal(s, b) && st.slabs[s].place.Detached?
    ensures StepFreeLocal(k, st, t, s, b).Some?
    ensures var st' := StepFreeLocal(k, st, t, s, b).value;
            |st'.slabs| == |st.slabs| && SlabOK(k, st'.threads, st'.global, st'.slabs[s], s)
    ensures st.slabs[s].cls < |k.counts| && 1 <= k.counts[st.slabs[s].cls]
  {
    var c := st.slabs[s].cls;
    AttachStep(k, st, t, s, b, c);
    var st' := StepFreeLocal(k, st, t, s, b).value;
    assert s in st'.threads[t].schain[c];
    FreedOK(k, st.threads, st'.threads, st.global, st.slabs[s], s, b, t, c);
  }

  lemma FreeDetachedThread(k: Config, st: State, t: Tid, s: Idx, b: Block)
    requires Local(k, st, t, s) && st.threads[t].pc == FreeLocal(s, b) && st.slabs[s].place.Detached?
    requires st.slabs[s].cls < |k.counts| && 1 <= k.counts[st.slabs[s].cls]
    ensures StepFreeLocal(k, st, t, s, b).Some?
    ensures var st' := StepFreeLocal(k, st, t, s, b).value;
            |st'.threads| == |st.threads| && ThreadOK(k, st'.next, st'.slabs, st'.threads[t], t)
  {
    var c := st.slabs[s].cls;
    AttachStep(k, st, t, s, b, c);
    var st' := StepFreeLocal(k, st, t, s, b).value;
    AttachStacks(k, st.next, st.slabs, st'.next, st'.slabs, st.threads[t], st'.threads[t], t, s, c);
    assert |st.slabs[s].free + {b}| == 1;
    FreedPc(k, st'.next, st'.slabs, st'.threads[t], t, s, c);
  }

  /** The owner frees a block of a slab it had detached: the slab goes back on its sized stack. */
  lemma FreeDetachedEffect(k: Config, st: State, t: Tid, s: Idx, b: Block)
    requires Local(k, st, t, s) && st.threads[t].pc == FreeLocal(s, b) && st.slabs[s].place.Detached?
    ensures StepFreeLocal(k, st, t, s, b).Some? && OneStep(k, st, StepFreeLocal(k, st, t, s, b).value, t, s)
  {
    FreeDetachedSlab(k, st, t, s, b);
    FreeDetachedThread(k, st, t, s, b);
    AttachChanges(k, st, t, s, b);
    AttachOthers(k, st.threads[t], StepFreeLocal(k, st, t, s, b).value.threads[t], s, b, st.slabs[s].cls);
  }

  lemma DecrementedOK(k: Config, threads: seq<Thread>, threads': seq<Thread>, global: seq<Idx>, slab: Slab, slab': Slab,
                      s: Idx, b: Block, t: Tid)
    requires SlabOK(k, threads, global, slab, s) && b in slab.blocks && slab.blocks[b] == By(t)
    requires HandlesOnly(threads, threads', t, s, b)
    requires slab.remote.inner > 1 && slab'.remote.inner == slab.remote.inner - 1
    requires slab' == slab.(remote := slab'.remote, blocks := slab.blocks - {b})
    ensures SlabOK(k, threads', global, slab', s) && !slab.place.Global?
    ensures forall u :: u != t ==> SlabKept(slab, slab', u)
  {
    FreeCounted(k, slab, b);
  }

  lemma RemoteStep(st: State, t: Tid, s: Idx, b: Block, seen: Cell<nat>)
    requires t < |st.threads| && s < |st.slabs| && st.slabs[s].remote == seen && seen.inner > 1
    ensures StepRemoteCas(st, t, s, b, seen).Some?
    ensures var th, slab := st.threads[t], st.slabs[s];
            StepRemoteCas(st, t, s, b, seen).value ==
            WithThread(WithSlab(st, s, slab.(remote := Cell(Some(t), th.version, seen.inner - 1),
                                             blocks := slab.blocks - {b})), t,
                       th.(took := true, pc := RemoteDone(s)))
  {
  }

  lemma RemoteHolds(k: Config, st: State, t: Tid, s: Idx, b: Block)
    requires Local(k, st, t, s) && st.threads[t].pc.RemoteCas? && st.threads[t].pc.s == s && st.threads[t].pc.b == b
    ensures Holds(st.slabs, s, b, t)
  {
  }

  /** The slab with its counter taken down, and the thread done with the block. */
  lemma RemoteSlab(k: Config, st: State, t: Tid, s: Idx, b: Block, slab': Slab, th': Thread)
    requires t < |st.threads| && Holds(st.slabs, s, b, t) && SlabOK(k, st.threads, st.global, st.slabs[s], s)
    requires st.threads[t].pc.RemoteCas? && st.threads[t].pc.s == s && st.threads[t].pc.b == b
    requires st.slabs[s].remote.inner > 1 && slab'.remote.inner == st.slabs[s].remote.inner - 1
    requires slab' == st.slabs[s].(remote := slab'.remote, blocks := st.slabs[s].blocks - {b})
    requires th' == st.threads[t].(took := th'.took, pc := RemoteDone(s))
    ensures SlabOK(k, st.threads[t := th'], st.global, slab', s) && !st.slabs[s].place.Global?
    ensures forall u :: u != t ==> SlabKept(st.slabs[s], slab', u)
  {
    DecrementedOK(k, st.threads, st.threads[t := th'], st.global, st.slabs[s], slab', s, b, t);
  }

  lemma RemoteOne(k: Config, st: State, st': State, t: Tid, s: Idx, b: Block, seen: Cell<nat>)
    requires Local(k, st, t, s) && st.threads[t].pc == RemoteCas(s, b, seen) && st.slabs[s].remote == seen
    requires seen.inner > 1
    requires var th, slab := st.threads[t], st.slabs[s];
             st' == WithThread(WithSlab(st, s, slab.(remote := Cell(Some(t), th.version, seen.inner - 1),
                                                     blocks := slab.blocks - {b})), t,
                               th.(took := true, pc := RemoteDone(s)))
    ensures OneStep(k, st, st', t, s)
  {
    RemoteHolds(k, st, t, s, b);
    RemoteSlab(k, st, t, s, b, st'.slabs[s], st'.threads[t]);
    InPlaceStep(k, st, st', t, s);
  }

  lemma RemoteEffect(k: Config, st: State, t: Tid, s: Idx, b: Block, seen: Cell<nat>)
    requires Local(k, st, t, s) && st.threads[t].pc == RemoteCas(s, b, seen) && st.slabs[s].remote == seen
    requires seen.inner > 1
    ensures StepRemoteCas(st, t, s, b, seen).Some? && OneStep(k, st, StepRemoteCas(st, t, s, b, seen).value, t, s)
  {
    RemoteStep(st, t, s, b, seen);
    RemoteOne(k, st, StepRemoteCas(st, t, s, b, seen).value, t, s, b, seen);
  }

  lemma LastBlock(k: Config, slab: Slab, b: Block)
    requires Counted(k, slab) && b in slab.blocks && slab.remote.inner == 1
    ensures slab.free == {} && slab.blocks.Keys == {b} && slab.blocks - {b} == map[]
  {
    FreeCounted(k, slab, b);
    assert |slab.free| == 0 && |slab.blocks - {b}| == 0;
    assert slab.blocks - {b} == map[];
    assert slab.blocks.Keys - {b} == (slab.blocks - {b}).Keys == {};
  }

  lemma LastChanges(st: State, t: Tid, s: Idx, b: Block, seen: Cell<nat>)
    requires t < |st.threads| && |st.next| == |st.slabs| && s < |st.slabs| && st.slabs[s].remote == seen
    requires seen.inner == 1
    requires st.slabs[s].place.Detached? && st.slabs[s].blocks.Keys == {b} && st.slabs[s].blocks[b] == By(t)
    ensures StepRemoteCas(st, t, s, b, seen).Some? && ChangesOne(st, StepRemoteCas(st, t, s, b, seen).value, t, s)
  {
  }

  /** The last live block: nothing is free, nothing else is live, and the slab is on no stack. */
  lemma LastHeld(k: Config, st: State, t: Tid, s: Idx, b: Block, seen: Cell<nat>)
    requires Local(k, st, t, s) && st.threads[t].pc == RemoteCas(s, b, seen) && st.slabs[s].remote == seen
    requires seen.inner == 1
    ensures st.slabs[s].place.Detached? && st.slabs[s].free == {} && st.slabs[s].blocks.Keys == {b}
    ensures st.slabs[s].blocks - {b} == map[] && Holds(st.slabs, s, b, t)
    ensures st.threads[t].log == Some(Remote(s, st.threads[t].version, true))
  {
    LastBlock(k, st.slabs[s], b);
  }

  lemma LastThread(k: Config, next: Nexts, slabs: seq<Slab>, slabs': seq<Slab>, th: Thread, t: Tid, s: Idx)
    requires ThreadOK(k, next, slabs, th, t) && s < |slabs| && slabs[s].place.Detached?
    requires |slabs'| == |slabs| && slabs' == slabs[s := slabs'[s]] && slabs'[s].place == Flight(t)
    requires th.log == Some(Remote(s, th.version, true))
    ensures ThreadOK(k, next, slabs', th.(took := true, pc := ClaimSteal(s)), t)
  {
    StacksApart(k, next, slabs, next, slabs', th, t, s);
    SameStacks(k, next, slabs', th, th.(took := true, pc := ClaimSteal(s)), t);
  }

  lemma LastEffect(k: Config, st: State, t: Tid, s: Idx, b: Block, seen: Cell<nat>)
    requires Local(k, st, t, s) && st.threads[t].pc == RemoteCas(s, b, seen) && st.slabs[s].remote == seen
    requires seen.inner == 1
    ensures st.slabs[s].place.Detached? && st.slabs[s].free == {} && st.slabs[s].blocks.Keys == {b}
    ensures StepRemoteCas(st, t, s, b, seen).Some? && OneStep(k, st, StepRemoteCas(st, t, s, b, seen).value, t, s)
  {
    LastHeld(k, st, t, s, b, seen);
    LastChanges(st, t, s, b, seen);
    var st' := StepRemoteCas(st, t, s, b, seen).value;
    LastThread(k, st.next, st.slabs, st'.slabs, st.threads[t], t, s);
    assert SlabOK(k, st'.threads, st'.global, st'.slabs[s], s);
  }

  // Returning a full slab to the unsized stack

  /** The walk succeeds and takes exactly slab `s` off sized stack `c`, at the head or in the middle. */
  lemma UnlinkedOK(next: Nexts, stack: Stack, q: seq<Idx>, s: Idx)
    requires IsStack(next, stack.head, q) && stack.len >= |q| && s in q && s < |next|
    ensures var r := Unlinked(next, stack, s);
            && r.Some? && |r.value.0| == |next|
            && IsStack(r.value.0, r.value.1.head, Erase(q, s)) && r.value.1.len >= |Erase(q, s)|
            && (forall x :: 0 <= x < |next| && r.value.0[x] != next[x] ==> x in q && x != s)
  {
    var i := IndexOf(q, s);
    if i == 0 {
      StackPop(next, stack.head, q);
      assert Without(q, 0) == q[1..];
    } else {
      assert q[0] != s && q[i - 1] != s;
      PredecessorFound(next, stack.head, q, i, stack.len);
      StackRemove(next, stack.head, q, i);
    }
  }

  lemma EraseMembers(q: seq<Idx>, s: Idx)
    requires NoDup(q) && s in q
    ensures forall x :: x in Erase(q, s) <==> x in q && x != s
  {
    forall x ensures x in Erase(q, s) <==> x in q && x != s { WithoutMembers(q, IndexOf(q, s), x); }
  }

  lemma UnsizeStacks(k: Config, next: Nexts, slabs: seq<Slab>, mid: Nexts, next': Nexts, slabs': seq<Slab>, th: Thread,
                     th': Thread, t: Tid, c: Class, s: Idx)
    requires |next| == |slabs| == |slabs'| == |mid| && StacksOK(k, next, slabs, th, t) && c < |k.counts| && s < |slabs|
    requires slabs[s].place == Sized(t, c) && slabs' == slabs[s := slabs[s].(place := Unsized(t))]
    requires |th'.sized| == |th.sized| && |th'.schain| == |th.schain|
    requires IsStack(mid, th'.sized[c].head, th'.schain[c]) && th'.sized[c].len >= |th'.schain[c]|
    requires forall x :: x in th'.schain[c] <==> x in th.schain[c] && x != s
    requires forall x :: 0 <= x < |next| && mid[x] != next[x] ==> x in th.schain[c] && x != s
    requires next' == mid[s := th.unsized.head]
    requires th'.sized == th.sized[c := th'.sized[c]] && th'.schain == th.schain[c := th'.schain[c]]
    requires th'.unsized == Stack(Some(s), th.unsized.len + 1) && th'.uchain == [s] + th.uchain
    ensures StacksOK(k, next', slabs', th', t)
  {
    assert SizedOK(next, slabs, th.sized[c], th.schain[c], t, c);
    assert forall x :: x in th.schain[c] ==> slabs[x].place == Sized(t, c);
    StackFrame(next, next', th.unsized.head, th.uchain);
    StackPush(next', th.unsized.head, th.uchain, s);
    forall d | 0 <= d < |th.sized|
      ensures SizedOK(next', slabs', th'.sized[d], th'.schain[d], t, d)
    {
      assert SizedOK(next, slabs, th.sized[d], th.schain[d], t, d);
      if d == c {
        var q, q' := th.schain[c], th'.schain[c];
        forall i | 0 <= i < |q'| ensures q'[i] in q && q'[i] != s {
          assert q'[i] in q';
        }
        StackFrame(mid, next', th'.sized[c].head, th'.schain[c]);
      } else {
        StackFrame(next, next', th.sized[d].head, th.schain[d]);
      }
    }
  }

  lemma UnsizeOthers(k: Config, th: Thread, th': Thread, s: Idx, c: Class)
    requires c < |th.schain| && |th'.schain| == |th.schain| && th.pc == Unsize(c, s) && th'.pc == Spill
    requires forall x :: x in th'.schain[c] <==> x in th.schain[c] && x != s
    requires th'.schain == th.schain[c := th'.schain[c]] && th'.uchain == [s] + th.uchain
    ensures KeepsOthers(k, th, th', s)
  {
  }

  lemma UnsizeChanges(k: Config, st: State, t: Tid, c: Class, s: Idx)
    requires Shaped(k, st) && t < |st.threads| && c < |k.counts| && s < |st.slabs|
    requires st.slabs[s].place == Sized(t, c) && st.slabs[s].blocks == map[]
    requires var r := Unlinked(st.next, st.threads[t].sized[c], s);
             && r.Some? && |r.value.0| == |st.next|
             && forall x :: 0 <= x < |st.next| && r.value.0[x] != st.next[x] ==> st.slabs[x].place == Sized(t, c)
    ensures StepUnsize(k, st, t, c, s).Some? && ChangesOne(st, StepUnsize(k, st, t, c, s).value, t, s)
  {
  }

  lemma UnsizePrepared(k: Config, next: Nexts, slabs: seq<Slab>, th: Thread, t: Tid, c: Class, s: Idx)
    requires |next| == |slabs| && StacksOK(k, next, slabs, th, t) && c < |k.counts| && s in th.schain[c]
    ensures s < |next| && Unlinked(next, th.sized[c], s).Some?
    ensures var q, r := Erase(th.schain[c], s), Unlinked(next, th.sized[c], s).value;
            && |r.0| == |next| && IsStack(r.0, r.1.head, q) && r.1.len >= |q|
            && (forall x :: x in q <==> x in th.schain[c] && x != s)
            && (forall x :: 0 <= x < |next| && r.0[x] != next[x] ==>
                slabs[x].place == Sized(t, c) && x in th.schain[c] && x != s)
  {
    assert SizedOK(next, slabs, th.sized[c], th.schain[c], t, c);
    UnlinkedOK(next, th.sized[c], th.schain[c], s);
    EraseMembers(th.schain[c], s);
  }

  lemma UnsizeThread(k: Config, st: State, t: Tid, c: Class, s: Idx)
    requires Local(k, st, t, s) && st.threads[t].pc == Unsize(c, s)
    ensures StepUnsize(k, st, t, c, s).Some?
    ensures var st' := StepUnsize(k, st, t, c, s).value;
            ThreadOK(k, st'.next, st'.slabs, st'.threads[t], t) && KeepsOthers(k, st.threads[t], st'.threads[t], s)
  {
    var th := st.threads[t];
    UnsizePrepared(k, st.next, st.slabs, th, t, c, s);
    var st' := StepUnsize(k, st, t, c, s).value;
    UnsizeStacks(k, st.next, st.slabs, Unlinked(st.next, th.sized[c], s).value.0, st'.next, st'.slabs, th,
        st'.threads[t], t, c, s);
    UnsizeOthers(k, th, st'.threads[t], s, c);
  }

  lemma UnsizeEffect(k: Config, st: State, t: Tid, c: Class, s: Idx)
    requires Local(k, st, t, s) && st.threads[t].pc == Unsize(c, s)
    ensures StepUnsize(k, st, t, c, s).Some? && OneStep(k, st, StepUnsize(k, st, t, c, s).value, t, s)
  {
    CountedBound(k, st.slabs[s]);
    UnsizePrepared(k, st.next, st.slabs, st.threads[t], t, c, s);
    UnsizeChanges(k, st, t, c, s);
    UnsizeThread(k, st, t, c, s);
  }

  // The global stack

  lemma PushLinkThread(k: Config, next: Nexts, slabs: seq<Slab>, next': Nexts, t: Tid, batch: seq<Idx>,
                       end: Option<Idx>)
    requires |next| == |slabs| && BatchOK(k, next, slabs, t, batch) && next' == next[batch[|batch| - 1] := end]
    ensures BatchOK(k, next', slabs, t, batch)
  {
    var tail := batch[|batch| - 1];
    forall i | 0 <= i < |batch|
      ensures batch[i] < |next'| && next'[batch[i]] == LinkAt(batch, next'[tail], i)
    {
      assert next[batch[i]] == LinkAt(batch, next[tail], i);
    }
  }

  lemma PushLinkChanges(st: State, t: Tid, batch: seq<Idx>, seen: Head)
    requires t < |st.threads| && |st.next| == |st.slabs| && batch != [] && Carries(st.slabs, batch[|batch| - 1], t)
    ensures StepPushLink(st, t, batch, seen).Some?
    ensures ChangesOne(st, StepPushLink(st, t, batch, seen).value, t, batch[|batch| - 1])
  {
  }

  lemma PushLinkMoves(k: Config, next: Nexts, slabs: seq<Slab>, next': Nexts, th: Thread, th': Thread, t: Tid,
                      batch: seq<Idx>, seen: Head)
    requires ThreadOK(k, next, slabs, th, t) && th.pc == PushLink(batch, seen)
    requires batch != [] && batch[|batch| - 1] < |next| && next' == next[batch[|batch| - 1] := seen.inner]
    requires th' == th.(log := Some(UnsizedToGlobal(batch[0], th.version)), took := false, pc := PushCas(batch, seen))
    ensures ThreadOK(k, next', slabs, th', t) && KeepsOthers(k, th, th', batch[|batch| - 1])
  {
    var tail := batch[|batch| - 1];
    assert Carries(slabs, tail, t);
    PushLinkThread(k, next, slabs, next', t, batch, seen.inner);
    StacksApart(k, next, slabs, next', slabs, th, t, tail);
    SameStacks(k, next', slabs, th, th', t);
  }

  /** The last slab of the batch is still in the thread's hands. */
  lemma PushLinkSlab(k: Config, threads: seq<Thread>, threads': seq<Thread>, global: seq<Idx>, slab: Slab, s: Idx,
                     t: Tid)
    requires SlabOK(k, threads, global, slab, s) && slab.place == Flight(t) && t < |threads|
    requires |threads'| == |threads| && InFlight(k, threads'[t].pc, s)
    ensures SlabOK(k, threads', global, slab, s)
  {
  }

  lemma PushLinkEffect(k: Config, st: State, t: Tid, batch: seq<Idx>, seen: Head, s: Idx)
    requires batch != [] && s == batch[|batch| - 1] && Local(k, st, t, s) && st.threads[t].pc == PushLink(batch, seen)
    ensures StepPushLink(st, t, batch, seen).Some? && OneStep(k, st, StepPushLink(st, t, batch, seen).value, t, s)
  {
    assert Carries(st.slabs, batch[|batch| - 1], t);
    PushLinkChanges(st, t, batch, seen);
    var st' := StepPushLink(st, t, batch, seen).value;
    PushLinkMoves(k, st.next, st.slabs, st'.next, st.threads[t], st'.threads[t], t, batch, seen);
    PushLinkSlab(k, st.threads, st'.threads, st.global, st.slabs[s], s, t);
  }

  /** The compare-and-swap of a pop succeeds: what it leaves is the rest of the stack just when `n` is the link. */
  lemma PopLinks(k: Config, st: State, t: Tid, c: Class, seen: Head, n: Option<Idx>)
    requires Inv(k, st) && t < |st.threads| && st.threads[t].pc == GlobalCas(c, seen, n) && st.head == seen
    ensures st.global != [] && seen.inner == Some(st.global[0]) && st.global[0] < |st.slabs|
    ensures IsStack(st.next, n, st.global[1..]) <==> n == st.next[st.global[0]]
    ensures st.slabs[st.global[0]].place == Global
  {
    Self(k, st, t);
    StackPop(st.next, st.head.inner, st.global);
  }

  lemma PopThread(k: Config, next: Nexts, slabs: seq<Slab>, slabs': seq<Slab>, th: Thread, t: Tid, c: Class, s: Idx)
    requires ThreadOK(k, next, slabs, th, t) && th.pc.GlobalCas? && th.pc.cls == c && th.pc.seen.inner == Some(s)
    requires s < |slabs| && slabs[s].place == Global && (k.validate ==> slabs[s].owner == None)
    requires slabs' == slabs[s := slabs[s].(place := Flight(t))]
    ensures ThreadOK(k, next, slabs', th.(took := true, pc := GlobalOwn(c, s)), t)
  {
    var th' := th.(took := true, pc := GlobalOwn(c, s));
    StacksApart(k, next, slabs, next, slabs', th, t, s);
    SameStacks(k, next, slabs', th, th', t);
  }

  lemma PopOnly(k: Config, st: State, t: Tid, c: Class, n: Option<Idx>, s: Idx)
    requires Shaped(k, st) && t < |st.threads| && st.head.inner == Some(s) && s < |st.slabs|
    requires st.slabs[s].place == Global && st.slabs[s].blocks == map[]
    ensures StepGlobalCas(st, t, c, st.head, n).Some? && OnlyThread(st, StepGlobalCas(st, t, c, st.head, n).value, t)
    ensures forall u :: u != t ==>
              Kept(st.next, st.slabs, StepGlobalCas(st, t, c, st.head, n).value.next,
                   StepGlobalCas(st, t, c, st.head, n).value.slabs, u)
  {
  }

  lemma PopSlab(k: Config, th: Thread, th': Thread, threads: seq<Thread>, global: seq<Idx>, slab: Slab, x: Idx, t: Tid)
    requires SlabOK(k, threads, global, slab, x) && t < |threads| && threads[t] == th && th.pc.GlobalCas?
    requires global != [] && x != global[0]
    requires th'.uchain == th.uchain && th'.schain == th.schain
    ensures StaysPut(k, slab, x, t, th', global[1..])
  {
  }

  lemma PopSlabs(k: Config, st: State, t: Tid, c: Class, n: Option<Idx>, s: Idx)
    requires Inv(k, st) && t < |st.threads| && st.threads[t].pc == GlobalCas(c, st.head, n)
    requires st.head.inner == Some(s) && st.global != [] && st.global[0] == s && s < |st.slabs|
    requires st.slabs[s].place == Global
    requires StepGlobalCas(st, t, c, st.head, n).Some? && OnlyThread(st, StepGlobalCas(st, t, c, st.head, n).value, t)
    ensures SlabsMove(k, st, StepGlobalCas(st, t, c, st.head, n).value, t)
  {
    var st' := StepGlobalCas(st, t, c, st.head, n).value;
    forall x | 0 <= x < |st'.slabs| && x != s
      ensures st'.slabs[x] == st.slabs[x] && StaysPut(k, st.slabs[x], x, t, st'.threads[t], st'.global)
    {
      assert SlabOK(k, st.threads, st.global, st.slabs[x], x);
      PopSlab(k, st.threads[t], st'.threads[t], st.threads, st.global, st.slabs[x], x, t);
    }
    assert SlabOK(k, st.threads, st.global, st.slabs[s], s);
    assert SlabOK(k, st'.threads, st'.global, st'.slabs[s], s);
  }

  lemma PopKeeps(k: Config, st: State, t: Tid, c: Class, seen: Head, n: Option<Idx>)
    requires Inv(k, st) && t < |st.threads| && st.threads[t].pc == GlobalCas(c, seen, n) && st.head == seen
    ensures StepGlobalCas(st, t, c, seen, n).Some?
    ensures Inv(k, StepGlobalCas(st, t, c, seen, n).value) <==> !Outdated(st, t)
  {
    PopLinks(k, st, t, c, seen, n);
    var s := st.global[0];
    LocalView(k, st, t, s);
    PopOnly(k, st, t, c, n, s);
    var st' := StepGlobalCas(st, t, c, seen, n).value;
    if !Outdated(st, t) {
      PopThread(k, st.next, st.slabs, st'.slabs, st.threads[t], t, c, s);
      PopSlabs(k, st, t, c, n, s);
      Assemble(k, st, st', t);
    }
  }

  // Steps that move a batch of slabs

  /** Thread `t` may move slabs that are its own and have no live block without anyone noticing. */
  lemma MovedKept(next: Nexts, slabs: seq<Slab>, batch: seq<Idx>, place: Place, disown: bool, t: Tid, u: Tid)
    requires |next| == |slabs| && u != t
    requires forall i :: 0 <= i < |batch| ==>
               batch[i] < |slabs| && Mine(slabs[batch[i]].place, t) && slabs[batch[i]].blocks == map[]
    ensures Kept(next, slabs, next, Moved(slabs, batch, place, disown), u)
  {
    var slabs' := Moved(slabs, batch, place, disown);
    forall s | 0 <= s < |slabs|
      ensures SlabKept(slabs[s], slabs'[s], u)
    {
      if s in batch {
        var i :| 0 <= i < |batch| && batch[i] == s;
        assert Mine(slabs[batch[i]].place, t);
      }
    }
  }

  /** Stacks on which none of the moved slabs is are left as they were. */
  lemma MovedStacks(k: Config, next: Nexts, slabs: seq<Slab>, batch: seq<Idx>, place: Place, disown: bool, th: Thread,
                    t: Tid)
    requires |next| == |slabs| && StacksOK(k, next, slabs, th, t)
    requires forall i :: 0 <= i < |batch| ==> Carries(slabs, batch[i], t)
    ensures StacksOK(k, next, Moved(slabs, batch, place, disown), th, t)
  {
    var slabs' := Moved(slabs, batch, place, disown);
    assert forall s :: s in batch ==> Carries(slabs, s, t);
    assert forall s :: 0 <= s < |slabs| && slabs[s].place != Flight(t) ==> slabs'[s] == slabs[s];
    forall c | 0 <= c < |th.sized|
      ensures SizedOK(next, slabs', th.sized[c], th.schain[c], t, c)
    {
      assert SizedOK(next, slabs, th.sized[c], th.schain[c], t, c);
    }
  }

  /** What a push that is about to succeed knows of its batch. */
  lemma PushBatch(k: Config, st: State, t: Tid, batch: seq<Idx>, seen: Head)
    requires Inv(k, st) && t < |st.threads| && st.threads[t].pc == PushCas(batch, seen) && st.head == seen
    ensures batch != [] && NoDup(batch) && Linked(st.next, batch, st.head.inner)
    ensures forall i :: 0 <= i < |batch| ==>
              && Carries(st.slabs, batch[i], t) && Drained(st.slabs[batch[i]])
              && (k.validate ==> st.slabs[batch[i]].owner == None)
  {
    Self(k, st, t);
    forall i | 0 <= i < |batch|
      ensures Carries(st.slabs, batch[i], t) && Drained(st.slabs[batch[i]])
    {
      assert Carries(st.slabs, batch[i], t);
      assert SlabOK(k, st.threads, st.global, st.slabs[batch[i]], batch[i]);
    }
  }

  lemma PushGlobal(next: Nexts, slabs: seq<Slab>, head: Head, global: seq<Idx>, batch: seq<Idx>, t: Tid, head': Head)
    requires GlobalOK(next, slabs, head, global) && batch != [] && NoDup(batch) && Linked(next, batch, head.inner)
    requires forall i :: 0 <= i < |batch| ==> Carries(slabs, batch[i], t)
    requires head'.inner == Some(batch[0])
    ensures GlobalOK(next, Moved(slabs, batch, Global, false), head', batch + global)
  {
    var slabs' := Moved(slabs, batch, Global, false);
    forall x | x in batch ensures x !in global {
      var i :| 0 <= i < |batch| && batch[i] == x;
      assert Carries(slabs, batch[i], t);
    }
    StackConcat(next, batch, head.inner, global);
    var q := batch + global;
    forall i | 0 <= i < |q| ensures slabs'[q[i]].place == Global {
      if i < |batch| {
        assert q[i] == batch[i];
      } else {
        assert q[i] == global[i - |batch|];
        assert slabs[q[i]].place == Global;
      }
    }
  }

  lemma PushOnly(k: Config, st: State, t: Tid, batch: seq<Idx>)
    requires Shaped(k, st) && t < |st.threads| && batch != []
    ensures StepPushCas(st, t, batch, st.head).Some? && OnlyThread(st, StepPushCas(st, t, batch, st.head).value, t)
  {
  }

  lemma PushedSlab(k: Config, threads: seq<Thread>, th': Thread, global: seq<Idx>, slab: Slab, x: Idx, t: Tid,
                   batch: seq<Idx>, seen: Head)
    requires SlabOK(k, threads, global, slab, x) && t < |threads| && threads[t].pc == PushCas(batch, seen)
    requires x !in batch
    requires th'.uchain == threads[t].uchain && th'.schain == threads[t].schain
    ensures StaysPut(k, slab, x, t, th', batch + global)
  {
  }

  lemma PushSlabs(k: Config, st: State, t: Tid, batch: seq<Idx>)
    requires Inv(k, st) && t < |st.threads| && st.threads[t].pc == PushCas(batch, st.head) && batch != []
    requires forall i :: 0 <= i < |batch| ==>
               && Carries(st.slabs, batch[i], t) && Drained(st.slabs[batch[i]])
               && (k.validate ==> st.slabs[batch[i]].owner == None)
    requires OnlyThread(st, StepPushCas(st, t, batch, st.head).value, t)
    ensures SlabsMove(k, st, StepPushCas(st, t, batch, st.head).value, t)
  {
    var st' := StepPushCas(st, t, batch, st.head).value;
    forall x | 0 <= x < |st'.slabs|
      ensures || (st'.slabs[x] == st.slabs[x] && StaysPut(k, st.slabs[x], x, t, st'.threads[t], st'.global))
              || SlabOK(k, st'.threads, st'.global, st'.slabs[x], x)
    {
      if x in batch {
        var i :| 0 <= i < |batch| && batch[i] == x;
        assert Carries(st.slabs, batch[i], t);
        assert x in st'.global;
        assert SlabOK(k, st'.threads, st'.global, st'.slabs[x], x);
      } else {
        assert SlabOK(k, st.threads, st.global, st.slabs[x], x);
        PushedSlab(k, st.threads, st'.threads[t], st.global, st.slabs[x], x, t, batch, st.head);
      }
    }
  }

  lemma PushKeeps(k: Config, st: State, t: Tid, batch: seq<Idx>, seen: Head)
    requires Inv(k, st) && t < |st.threads| && st.threads[t].pc == PushCas(batch, seen) && st.head == seen
    ensures StepPushCas(st, t, batch, seen).Some? && Inv(k, StepPushCas(st, t, batch, seen).value)
  {
    PushBatch(k, st, t, batch, seen);
    PushOnly(k, st, t, batch);
    var st' := StepPushCas(st, t, batch, seen).value;
    forall u | 0 <= u < |st.threads| && u != t ensures Kept(st.next, st.slabs, st'.next, st'.slabs, u) {
      MovedKept(st.next, st.slabs, batch, Global, false, t, u);
    }
    Self(k, st, t);
    MovedStacks(k, st.next, st.slabs, batch, Global, false, st.threads[t], t);
    SameStacks(k, st'.next, st'.slabs, st.threads[t], st'.threads[t], t);
    PushGlobal(st.next, st.slabs, st.head, st.global, batch, t, st'.head);
    PushSlabs(k, st, t, batch);
    Assemble(k, st, st', t);
  }

  /** The batch a spill cuts off is the front of the unsized stack. */
  lemma SpillBatch(k: Config, next: Nexts, slabs: seq<Slab>, th: Thread, t: Tid)
    requires ValidConfig(k) && |next| == |slabs| && UnsizedOK(next, slabs, th, t) && th.unsized.len > k.cacheSlabs
    ensures k.pushBatch <= |th.uchain| && Trace(next, th.unsized.head, k.pushBatch) == th.uchain[..k.pushBatch]
    ensures IsStack(next, next[th.uchain[k.pushBatch - 1]], th.uchain[k.pushBatch..])
    ensures Linked(next, th.uchain[..k.pushBatch], next[th.uchain[k.pushBatch - 1]])
  {
    var n := k.pushBatch;
    TraceIsPrefix(next, th.unsized.head, th.uchain, n);
    StackDrop(next, th.unsized.head, th.uchain, n);
    LinkedPrefix(next, th.uchain, n);
  }

  lemma LinkedPrefix(next: Nexts, q: seq<Idx>, n: nat)
    requires Linked(next, q, None) && 1 <= n <= |q|
    ensures Linked(next, q[..n], next[q[n - 1]])
  {
    var r := q[..n];
    forall i | 0 <= i < |r|
      ensures r[i] < |next| && next[r[i]] == LinkAt(r, next[q[n - 1]], i)
    {
      assert next[q[i]] == LinkAt(q, None, i);
    }
  }

  /** The slabs left on the unsized stack and those of the batch are different slabs. */
  lemma SplitApart(q: seq<Idx>, n: nat, x: Idx)
    requires NoDup(q) && n <= |q|
    ensures x in q[n..] ==> x !in q[..n]
    ensures x in q ==> x in q[..n] || x in q[n..]
  {
    if x in q && x !in q[..n] {
      var i :| 0 <= i < |q| && q[i] == x;
      assert x == q[n..][i - n];
    }
  }

  lemma SpillThread(k: Config, next: Nexts, slabs: seq<Slab>, th: Thread, th': Thread, t: Tid, n: nat)
    requires |next| == |slabs| && StacksOK(k, next, slabs, th, t) && 1 <= n <= |th.uchain|
    requires IsStack(next, next[th.uchain[n - 1]], th.uchain[n..])
    requires Linked(next, th.uchain[..n], next[th.uchain[n - 1]])
    requires forall i :: 0 <= i < n ==> slabs[th.uchain[..n][i]].owner == Some(t)
    requires th' == th.(log := Some(UnsizedToGlobalSave(th.uchain[0])),
                        unsized := Stack(next[th.uchain[n - 1]], th.unsized.len - n), uchain := th.uchain[n..],
                        pc := PushLoad(th.uchain[..n]))
    ensures ThreadOK(k, next, Moved(slabs, th.uchain[..n], Flight(t), k.validate), th', t)
  {
    var batch := th.uchain[..n];
    var slabs' := Moved(slabs, batch, Flight(t), k.validate);
    forall i | 0 <= i < |th'.uchain| ensures slabs'[th'.uchain[i]].place == Unsized(t) {
      SplitApart(th.uchain, n, th'.uchain[i]);
      assert th'.uchain[i] == th.uchain[n + i];
    }
    assert forall x :: x in batch ==> x < |slabs| && slabs[x].place == Unsized(t);
    forall c | 0 <= c < |th.sized|
      ensures SizedOK(next, slabs', th'.sized[c], th'.schain[c], t, c)
    {
      assert SizedOK(next, slabs, th.sized[c], th.schain[c], t, c);
    }
    forall i | 0 <= i < |batch|
      ensures Carries(slabs', batch[i], t) && slabs'[batch[i]].owner == if k.validate then None else Some(t)
    {
      assert batch[i] in batch && batch[i] == th.uchain[i];
    }
  }

  /** The slabs of the unsized stack are the thread's own and have no live block. */
  lemma UnsizedSlabs(k: Config, st: State, t: Tid, n: nat)
    requires Inv(k, st) && t < |st.threads| && n <= |st.threads[t].uchain|
    ensures var batch := st.threads[t].uchain[..n];
            forall i :: 0 <= i < |batch| ==>
              && batch[i] < |st.slabs| && st.slabs[batch[i]].place == Unsized(t)
              && Drained(st.slabs[batch[i]]) && st.slabs[batch[i]].owner == Some(t)
  {
    Self(k, st, t);
    var q := st.threads[t].uchain;
    forall i | 0 <= i < |q|
      ensures && q[i] < |st.slabs| && st.slabs[q[i]].place == Unsized(t)
              && Drained(st.slabs[q[i]]) && st.slabs[q[i]].owner == Some(t)
    {
      assert SlabOK(k, st.threads, st.global, st.slabs[q[i]], q[i]);
    }
  }

  lemma SpilledSlab(k: Config, threads: seq<Thread>, th': Thread, global: seq<Idx>, slab: Slab, x: Idx, t: Tid, n: nat)
    requires SlabOK(k, threads, global, slab, x) && t < |threads| && threads[t].pc == Spill && NoDup(threads[t].uchain)
    requires n <= |threads[t].uchain| && x !in threads[t].uchain[..n]
    requires th'.uchain == threads[t].uchain[n..] && th'.schain == threads[t].schain
    ensures StaysPut(k, slab, x, t, th', global)
  {
    SplitApart(threads[t].uchain, n, x);
  }

  lemma SpilledInto(k: Config, threads: seq<Thread>, global: seq<Idx>, slab: Slab, x: Idx, t: Tid, batch: seq<Idx>)
    requires t < |threads| && threads[t].pc == PushLoad(batch) && x in batch
    requires slab.place == Flight(t) && Drained(slab)
    ensures SlabOK(k, threads, global, slab, x)
  {
  }

  lemma SpillSlabs(k: Config, st: State, st': State, t: Tid, n: nat)
    requires Inv(k, st) && t < |st.threads| && st.threads[t].pc == Spill && n <= |st.threads[t].uchain|
    requires OnlyThread(st, st', t) && st'.global == st.global
    requires st'.slabs == Moved(st.slabs, st.threads[t].uchain[..n], Flight(t), k.validate)
    requires st'.threads[t].pc == PushLoad(st.threads[t].uchain[..n])
    requires st'.threads[t].uchain == st.threads[t].uchain[n..] && st'.threads[t].schain == st.threads[t].schain
    ensures SlabsMove(k, st, st', t)
  {
    var batch := st.threads[t].uchain[..n];
    UnsizedSlabs(k, st, t, n);
    Self(k, st, t);
    forall x | 0 <= x < |st'.slabs|
      ensures || (st'.slabs[x] == st.slabs[x] && StaysPut(k, st.slabs[x], x, t, st'.threads[t], st'.global))
              || SlabOK(k, st'.threads, st'.global, st'.slabs[x], x)
    {
      if x in batch {
        var i :| 0 <= i < |batch| && batch[i] == x;
        SpilledInto(k, st'.threads, st'.global, st'.slabs[x], x, t, batch);
      } else {
        assert SlabOK(k, st.threads, st.global, st.slabs[x], x);
        SpilledSlab(k, st.threads, st'.threads[t], st.global, st.slabs[x], x, t, n);
      }
    }
  }

  lemma SpillStep(k: Config, st: State, t: Tid)
    requires ValidConfig(k) && Shaped(k, st) && t < |st.threads| && st.threads[t].unsized.len > k.cacheSlabs
    requires k.pushBatch <= |st.threads[t].uchain|
    requires var batch := st.threads[t].uchain[..k.pushBatch];
             && Trace(st.next, st.threads[t].unsized.head, k.pushBatch) == batch
             && forall i :: 0 <= i < |batch| ==> batch[i] < |st.slabs| && st.slabs[batch[i]].owner == Some(t)
    ensures StepSpill(k, st, t).Some?
    ensures var th := st.threads[t];
            var batch := th.uchain[..k.pushBatch];
            StepSpill(k, st, t).value ==
            WithThread(st.(slabs := Moved(st.slabs, batch, Flight(t), k.validate)), t,
                       th.(log := Some(UnsizedToGlobalSave(batch[0])),
                           unsized := Stack(st.next[th.uchain[k.pushBatch - 1]], th.unsized.len - k.pushBatch),
                           uchain := th.uchain[k.pushBatch..],
                           pc := PushLoad(batch)))
  {
  }

  lemma SpillKeeps(k: Config, st: State, t: Tid)
    requires Inv(k, st) && t < |st.threads| && st.threads[t].pc == Spill && st.threads[t].unsized.len > k.cacheSlabs
    ensures StepSpill(k, st, t).Some? && Inv(k, StepSpill(k, st, t).value)
  {
    var th := st.threads[t];
    var n := k.pushBatch;
    Self(k, st, t);
    SpillBatch(k, st.next, st.slabs, th, t);
    UnsizedSlabs(k, st, t, n);
    var batch := th.uchain[..n];
    SpillStep(k, st, t);
    var st' := StepSpill(k, st, t).value;
    SpillThread(k, st.next, st.slabs, th, st'.threads[t], t, n);
    MovedOwn(k, st, st', t, batch, Flight(t), k.validate);
    SpillSlabs(k, st, st', t, n);
    Assemble(k, st, st', t);
  }

  /** Moving slabs of thread `t` disturbs neither the global stack nor any other thread. */
  lemma MovedOwn(k: Config, st: State, st': State, t: Tid, batch: seq<Idx>, place: Place, disown: bool)
    requires Shaped(k, st) && GlobalOK(st.next, st.slabs, st.head, st.global) && t < |st.threads|
    requires forall i :: 0 <= i < |batch| ==>
               batch[i] < |st.slabs| && Mine(st.slabs[batch[i]].place, t) && st.slabs[batch[i]].blocks == map[]
    requires |st'.threads| == |st.threads|
    requires st' == WithThread(st.(slabs := Moved(st.slabs, batch, place, disown)), t, st'.threads[t])
    ensures OnlyThread(st, st', t) && GlobalOK(st'.next, st'.slabs, st'.head, st'.global)
    ensures forall u :: u != t ==> Kept(st.next, st.slabs, st'.next, st'.slabs, u)
  {
    assert forall x :: x in batch ==> Mine(st.slabs[x].place, t);
    forall u | u != t ensures Kept(st.next, st.slabs, st'.next, st'.slabs, u) {
      MovedKept(st.next, st.slabs, batch, place, disown, t, u);
    }
  }

  // The bump pointer

  lemma RangeLink(k: Config, next: Nexts, slabs: seq<Slab>, t: Tid, start: Idx, i: nat)
    requires BumpOK(k, next, slabs, t, start, k.bumpBatch, k.bumpBatch) && i < k.bumpBatch
    ensures Carries(slabs, start + i, t) && next[start + i] == LinkAt(Range(start, k.bumpBatch), None, i)
  {
    assert BumpedAt(k, next, slabs, t, start, k.bumpBatch, k.bumpBatch, start + i);
  }

  lemma RangeLinks(k: Config, next: Nexts, slabs: seq<Slab>, t: Tid, start: Idx, q: seq<Idx>)
    requires BumpOK(k, next, slabs, t, start, k.bumpBatch, k.bumpBatch) && q == Range(start, k.bumpBatch)
    ensures Linked(next, q, None)
  {
    forall i | 0 <= i < |q| ensures q[i] < |next| && next[q[i]] == LinkAt(q, None, i) {
      RangeLink(k, next, slabs, t, start, i);
    }
  }

  lemma RangeNoDup(start: Idx, n: nat)
    ensures NoDup(Range(start, n))
  {
  }

  lemma RangeCarried(k: Config, next: Nexts, slabs: seq<Slab>, t: Tid, start: Idx, i: nat)
    requires BumpOK(k, next, slabs, t, start, k.bumpBatch, k.bumpBatch) && i < k.bumpBatch
    ensures Carries(slabs, Range(start, k.bumpBatch)[i], t)
  {
    RangeLink(k, next, slabs, t, start, i);
  }

  lemma RangeStack(k: Config, next: Nexts, slabs: seq<Slab>, t: Tid, start: Idx)
    requires ValidConfig(k) && BumpOK(k, next, slabs, t, start, k.bumpBatch, k.bumpBatch)
    ensures IsStack(next, Some(start), Range(start, k.bumpBatch))
    ensures forall i :: 0 <= i < k.bumpBatch ==> Carries(slabs, Range(start, k.bumpBatch)[i], t)
  {
    var q := Range(start, k.bumpBatch);
    RangeLinks(k, next, slabs, t, start, q);
    RangeNoDup(start, k.bumpBatch);
    assert First(q, None) == Some(start);
    forall i | 0 <= i < k.bumpBatch ensures Carries(slabs, q[i], t) {
      RangeCarried(k, next, slabs, t, start, i);
    }
  }

  lemma BumpSetThread(k: Config, next: Nexts, slabs: seq<Slab>, th: Thread, th': Thread, t: Tid, start: Idx, c: Class)
    requires ValidConfig(k) && ThreadOK(k, next, slabs, th, t) && th.pc == BumpSet(c, start)
    requires var q := Range(start, k.bumpBatch);
             th' == th.(unsized := Stack(Some(start), k.bumpBatch), uchain := q, pc := Refill(c))
    ensures ThreadOK(k, next, Moved(slabs, Range(start, k.bumpBatch), Unsized(t), false), th', t)
  {
    var q := Range(start, k.bumpBatch);
    var slabs' := Moved(slabs, q, Unsized(t), false);
    RangeStack(k, next, slabs, t, start);
    MovedStacks(k, next, slabs, q, Unsized(t), false, th, t);
    forall i | 0 <= i < |q| ensures slabs'[q[i]].place == Unsized(t) {
      assert Carries(slabs, q[i], t) && q[i] in q;
    }
    assert q[0] == start;
  }

  lemma RangeMember(start: Idx, n: nat, x: Idx)
    ensures x in Range(start, n) <==> start <= x < start + n
  {
    if start <= x < start + n { assert Range(start, n)[x - start] == x; }
  }

  lemma BumpSetSlab(k: Config, threads: seq<Thread>, th': Thread, global: seq<Idx>, slab: Slab, x: Idx, t: Tid,
                    start: Idx, c: Class)
    requires SlabOK(k, threads, global, slab, x) && t < |threads| && threads[t].pc == BumpSet(c, start)
    requires threads[t].uchain == []
    requires x !in Range(start, k.bumpBatch) && th'.schain == threads[t].schain
    ensures StaysPut(k, slab, x, t, th', global)
  {
    RangeMember(start, k.bumpBatch, x);
  }

  lemma RangeSlabs(k: Config, st: State, t: Tid, start: Idx, c: Class)
    requires Inv(k, st) && t < |st.threads| && st.threads[t].pc == BumpSet(c, start)
    ensures var q := Range(start, k.bumpBatch);
            forall i :: 0 <= i < |q| ==>
              q[i] < |st.slabs| && st.slabs[q[i]].place == Flight(t) && Drained(st.slabs[q[i]])
                  && st.slabs[q[i]].owner == Some(t)
  {
    Self(k, st, t);
    var q := Range(start, k.bumpBatch);
    forall i | 0 <= i < |q|
      ensures q[i] < |st.slabs| && st.slabs[q[i]].place == Flight(t) && Drained(st.slabs[q[i]])
      ensures st.slabs[q[i]].owner == Some(t)
    {
      assert BumpedAt(k, st.next, st.slabs, t, start, k.bumpBatch, k.bumpBatch, start + i);
      assert SlabOK(k, st.threads, st.global, st.slabs[start + i], start + i);
    }
  }

  lemma BumpSetSlabs(k: Config, st: State, st': State, t: Tid, start: Idx, c: Class)
    requires Inv(k, st) && t < |st.threads| && st.threads[t].pc == BumpSet(c, start)
    requires st' == StepBumpSet(k, st, t, c, start).value
    requires OnlyThread(st, st', t)
    ensures SlabsMove(k, st, st', t)
  {
    var q := Range(start, k.bumpBatch);
    RangeSlabs(k, st, t, start, c);
    Self(k, st, t);
    forall x | 0 <= x < |st'.slabs|
      ensures || (st'.slabs[x] == st.slabs[x] && StaysPut(k, st.slabs[x], x, t, st'.threads[t], st'.global))
              || SlabOK(k, st'.threads, st'.global, st'.slabs[x], x)
    {
      if x in q {
        var i :| 0 <= i < |q| && q[i] == x;
        assert SlabOK(k, st'.threads, st'.global, st'.slabs[x], x);
      } else {
        assert SlabOK(k, st.threads, st.global, st.slabs[x], x);
        BumpSetSlab(k, st.threads, st'.threads[t], st.global, st.slabs[x], x, t, start, c);
      }
    }
  }

  lemma BumpSetKeeps(k: Config, st: State, t: Tid, c: Class, start: Idx)
    requires Inv(k, st) && t < |st.threads| && st.threads[t].pc == BumpSet(c, start)
    ensures StepBumpSet(k, st, t, c, start).Some? && Inv(k, StepBumpSet(k, st, t, c, start).value)
  {
    var st' := StepBumpSet(k, st, t, c, start).value;
    RangeSlabs(k, st, t, start, c);
    MovedOwn(k, st, st', t, Range(start, k.bumpBatch), Unsized(t), false);
    Self(k, st, t);
    BumpSetThread(k, st.next, st.slabs, st.threads[t], st'.threads[t], t, start, c);
    BumpSetSlabs(k, st, st', t, start, c);
    Assemble(k, st, st', t);
  }

  /** `st'` has more slabs, the old ones unchanged. */
  ghost predicate Grows(st: State, st': State) {
    && |st.next| == |st.slabs| <= |st'.slabs| == |st'.next| == st'.bump.inner
    && (forall x :: 0 <= x < |st.slabs| ==> st'.slabs[x] == st.slabs[x] && st'.next[x] == st.next[x])
    && st'.head == st.head && st'.global == st.global
  }

  lemma GrowsKept(st: State, st': State, u: Tid)
    requires Grows(st, st')
    ensures Kept(st.next, st.slabs, st'.next, st'.slabs, u)
  {
  }

  lemma GrowsGlobal(st: State, st': State)
    requires Grows(st, st') && GlobalOK(st.next, st.slabs, st.head, st.global)
    ensures GlobalOK(st'.next, st'.slabs, st'.head, st'.global)
  {
    StackFrame(st.next, st'.next, st.head.inner, st.global);
  }

  lemma BumpGrows(k: Config, st: State, t: Tid, c: Class)
    requires Shaped(k, st) && t < |st.threads|
    ensures StepBumpCas(k, st, t, c, st.bump).Some?
    ensures var st' := StepBumpCas(k, st, t, c, st.bump).value;
            && Grows(st, st') && OnlyThread(st, st', t)
            && (forall x :: |st.slabs| <= x < |st'.slabs| ==> st'.slabs[x] == ZeroSlab(t))
            && |st'.slabs| == |st.slabs| + k.bumpBatch
  {
  }

  lemma BumpCasThread(k: Config, st: State, st': State, t: Tid, c: Class)
    requires ValidConfig(k) && Shaped(k, st) && t < |st.threads| && Grows(st, st')
    requires ThreadOK(k, st.next, st.slabs, st.threads[t], t) && st.threads[t].pc == BumpCas(c, st.bump)
    requires st' == StepBumpCas(k, st, t, c, st.bump).value
    requires forall x :: |st.slabs| <= x < |st'.slabs| ==> st'.slabs[x] == ZeroSlab(t)
    ensures ThreadOK(k, st'.next, st'.slabs, st'.threads[t], t)
  {
    GrowsKept(st, st', t);
    FrameStacks(k, st.next, st.slabs, st'.next, st'.slabs, st.threads[t], t);
    SameStacks(k, st'.next, st'.slabs, st.threads[t], st'.threads[t], t);
  }

  lemma BumpCasKeeps(k: Config, st: State, t: Tid, c: Class, seen: Cell<nat>)
    requires Inv(k, st) && t < |st.threads| && st.threads[t].pc == BumpCas(c, seen) && st.bump == seen
    ensures StepBumpCas(k, st, t, c, seen).Some? && Inv(k, StepBumpCas(k, st, t, c, seen).value)
  {
    BumpGrows(k, st, t, c);
    var st' := StepBumpCas(k, st, t, c, seen).value;
    forall u | 0 <= u < |st.threads| && u != t ensures Kept(st.next, st.slabs, st'.next, st'.slabs, u) {
      GrowsKept(st, st', u);
    }
    Self(k, st, t);
    BumpCasThread(k, st, st', t, c);
    GrowsGlobal(st, st');
    BumpCasSlabs(k, st, st', t, c);
    Assemble(k, st, st', t);
  }

  lemma BumpCasSlabs(k: Config, st: State, st': State, t: Tid, c: Class)
    requires Inv(k, st) && t < |st.threads| && st.threads[t].pc == BumpCas(c, st.bump) && Grows(st, st')
    requires OnlyThread(st, st', t)
    requires st'.threads[t] == st.threads[t].(took := st'.threads[t].took, pc := BumpOwn(c, |st.slabs|, 0))
    requires |st'.slabs| == |st.slabs| + k.bumpBatch
    requires forall x :: |st.slabs| <= x < |st'.slabs| ==> st'.slabs[x] == ZeroSlab(t)
    ensures SlabsMove(k, st, st', t)
  {
    forall x | 0 <= x < |st.slabs| ensures StaysPut(k, st.slabs[x], x, t, st'.threads[t], st'.global) {
      assert SlabOK(k, st.threads, st.global, st.slabs[x], x);
      BumpedSlab(k, st.threads, st'.threads[t], st.global, st.slabs[x], x, t, c);
    }
    forall x | |st.slabs| <= x < |st'.slabs| ensures SlabOK(k, st'.threads, st'.global, st'.slabs[x], x) {
    }
  }

  lemma BumpedSlab(k: Config, threads: seq<Thread>, th': Thread, global: seq<Idx>, slab: Slab, x: Idx, t: Tid, c: Class)
    requires SlabOK(k, threads, global, slab, x) && t < |threads| && threads[t].pc.BumpCas?
    requires th'.uchain == threads[t].uchain && th'.schain == threads[t].schain
    ensures StaysPut(k, slab, x, t, th', global)
  {
  }
}
