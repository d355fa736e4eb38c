/**
A thread crashes between any two steps of a run, its program counter is lost, and `recover` repairs its part
of the heap from the record it logged last. The model covers the records of a pop from the global stack, of a bump,
of a push on the global stack and of a remote free. Whether the logged compare-and-swap took effect is the argument
`detected`.
*/
module Recovery {
  import opened Options
  import opened Chains
  import opened Heap
  import opened HeapInvariant
  import opened HeapSteps
  import opened HeapRuns

  // What the log says about where the thread is

  /** A pop is logged: not done yet, or the slab is on its way to the unsized stack, or alone on it. */
  ghost predicate PopLog(th: Thread, i: Idx, v: nat) {
    && v == th.version
    && if !th.took then th.pc.GlobalNext? || th.pc.GlobalCas? || th.pc.BumpLoad?
       else (IsAdopting(th.pc) && th.pc.s == i) || (th.pc.Refill? && th.uchain == [i])
  }

  ghost predicate BumpLog(k: Config, th: Thread, start: Idx, v: nat) {
    && v == th.version
    && if !th.took then th.pc.BumpCas?
       else || ((th.pc.BumpOwn? || th.pc.BumpNext? || th.pc.BumpSet?) && th.pc.start == start)
            || (th.pc.Refill? && th.uchain == Range(start, k.bumpBatch))
  }

  ghost predicate RemoteLog(th: Thread, i: Idx, v: nat, last: bool) {
    && v == th.version
    && if !th.took then th.pc.RemoteCas? && th.pc.s == i && last == (th.pc.seenRemote.inner == 1)
       else if !last then th.pc == RemoteDone(i)
       else (IsClaiming(th.pc) && th.pc.s == i) || (th.pc.Spill? && th.uchain != [] && th.uchain[0] == i)
  }

  ghost predicate LogOK(k: Config, th: Thread) {
    && (th.pc.Idle? ==> th.log == None)
    && (th.log.Some? ==>
          match th.log.value
          case GlobalToUnsized(i, v) => PopLog(th, i, v)
          case BumpToUnsized(start, v) => BumpLog(k, th, start, v)
          case Remote(i, v, last) => RemoteLog(th, i, v, last)
          case UnsizedToGlobal(_, v) => v == th.version && (th.pc.PushLink? || th.pc.PushCas?)
          case _ => true)
  }

  ghost predicate LogsOK(k: Config, st: State) {
    forall t {:trigger LogOK(k, st.threads[t])} :: 0 <= t < |st.threads| ==> LogOK(k, st.threads[t])
  }

  /** A step leaves the other threads' records alone and its own log in order. */
  ghost predicate LogsStep(k: Config, st: State, r: Option<State>, t: Tid)
    requires t < |st.threads|
  {
    r.Some? ==>
      && |r.value.threads| == |st.threads| && LogOK(k, r.value.threads[t])
      && forall u :: 0 <= u < |st.threads| && u != t ==> r.value.threads[u] == st.threads[u]
  }

  ghost predicate MyView(k: Config, st: State, t: Tid) {
    && Shaped(k, st) && t < |st.threads| && LogOK(k, st.threads[t])
    && ThreadOK(k, st.next, st.slabs, st.threads[t], t)
  }

  lemma PopLogs(k: Config, st: State, t: Tid)
    requires MyView(k, st, t)
    ensures LogsStep(k, st, StepPop(st, t), t)
  {}

  lemma AdoptLogs(k: Config, st: State, t: Tid)
    requires MyView(k, st, t)
    ensures LogsStep(k, st, StepAdopt(k, st, t), t)
  {}

  lemma ClaimLogs(k: Config, st: State, t: Tid)
    requires MyView(k, st, t)
    ensures LogsStep(k, st, StepClaim(st, t), t)
  {}

  lemma BumpLogs(k: Config, st: State, t: Tid)
    requires MyView(k, st, t)
    ensures LogsStep(k, st, StepBump(k, st, t), t)
  {}

  lemma ServeLogs(k: Config, st: State, t: Tid)
    requires MyView(k, st, t)
    ensures LogsStep(k, st, StepServe(k, st, t), t)
  {}

  lemma FreeLogs(k: Config, st: State, t: Tid)
    requires MyView(k, st, t) && st.threads[t].pc.FreeLocal?
    ensures LogsStep(k, st, StepFreeLocal(k, st, t, st.threads[t].pc.s, st.threads[t].pc.b), t)
  {}

  lemma ReturnLogs(k: Config, st: State, t: Tid)
    requires MyView(k, st, t)
    ensures LogsStep(k, st, StepReturn(k, st, t), t)
  {
    if st.threads[t].pc.FreeLocal? { FreeLogs(k, st, t); }
  }

  lemma LetGoLogs(k: Config, st: State, t: Tid)
    requires MyView(k, st, t)
    ensures LogsStep(k, st, StepLetGo(k, st, t), t)
  {}

  lemma RemoteLogs(k: Config, st: State, t: Tid)
    requires MyView(k, st, t)
    ensures LogsStep(k, st, StepRemote(st, t), t)
  {}

  lemma PushLogs(k: Config, st: State, t: Tid)
    requires MyView(k, st, t)
    requires var pc := st.threads[t].pc; pc.Spill? || pc.PushLoad? || pc.PushLink? || pc.PushCas?
    ensures LogsStep(k, st, StepPush(k, st, t), t)
  {}

  lemma ThreadLogs(k: Config, st: State, t: Tid)
    requires MyView(k, st, t)
    ensures LogsStep(k, st, StepThread(k, st, t), t)
  {
    var pc := st.threads[t].pc;
    if IsPopping(pc) { PopLogs(k, st, t); }
    else if IsAdopting(pc) { AdoptLogs(k, st, t); }
    else if IsClaiming(pc) { ClaimLogs(k, st, t); }
    else if IsBumping(pc) { BumpLogs(k, st, t); }
    else if IsServing(pc) { ServeLogs(k, st, t); }
    else if IsLettingGo(pc) { LetGoLogs(k, st, t); }
    else if IsReturning(pc) { ReturnLogs(k, st, t); }
    else if IsCountingOff(pc) { RemoteLogs(k, st, t); }
    else if !pc.Idle? { PushLogs(k, st, t); }
  }

  lemma LogsKept(k: Config, st: State, a: Action)
    requires Inv(k, st) && LogsOK(k, st) && Enabled(k, st, a)
    ensures Step(k, st, a).Some? && LogsOK(k, Step(k, st, a).value)
  {
    StepKeeps(k, st, a);
    var t := a.t;
    Self(k, st, t);
    assert LogOK(k, st.threads[t]);
    if a.Continue? { ThreadLogs(k, st, t); }
    var st' := Step(k, st, a).value;
    forall u | 0 <= u < |st'.threads| ensures LogOK(k, st'.threads[u]) {
      if u != t { assert LogOK(k, st.threads[u]); }
    }
  }

  lemma InitLogs(k: Config, n: nat)
    ensures LogsOK(k, Init(k, n))
  {
  }

  lemma LogsNext(k: Config, n: nat, states: seq<State>, actions: seq<Action>, j: nat)
    requires ValidConfig(k) && IsRun(k, n, states, actions) && NoStalePop(states, actions) && j < |actions|
    requires LogsOK(k, states[j])
    ensures LogsOK(k, states[j + 1])
  {
    RunsKeep(k, n, states, actions, j);
    assert Leads(k, states[j], actions[j], states[j + 1]);
    LogsKept(k, states[j], actions[j]);
  }

  lemma {:induction false} LogsAlong(k: Config, n: nat, states: seq<State>, actions: seq<Action>, i: nat)
    requires ValidConfig(k) && IsRun(k, n, states, actions) && NoStalePop(states, actions) && i < |states|
    ensures LogsOK(k, states[i])
    decreases i
  {
    if i == 0 {
      InitLogs(k, n);
    } else {
      LogsAlong(k, n, states, actions, i - 1);
      LogsNext(k, n, states, actions, i - 1);
    }
  }

  /** Every state of every crash-free run without outdated pops has its logs in order. */
  lemma RunsLog(k: Config, n: nat, states: seq<State>, actions: seq<Action>, i: nat)
    requires ValidConfig(k) && IsRun(k, n, states, actions) && NoStalePop(states, actions) && i < |states|
    ensures Inv(k, states[i]) && LogsOK(k, states[i])
  {
    RunsKeep(k, n, states, actions, i);
    LogsAlong(k, n, states, actions, i);
  }

  // Recovery

  /** The log belongs to an operation that recovery can finish or drop. */
  predicate Recoverable(log: Option<Log>) {
    && log.Some?
    && var l := log.value;
       l.GlobalToUnsized? || l.BumpToUnsized? || l.Remote? || l.UnsizedToGlobalSave? || l.UnsizedToGlobal?
  }

  /** The log names a compare-and-swap, about which recovery asks `detect`. */
  predicate Detects(log: Log) {
    log.GlobalToUnsized? || log.BumpToUnsized? || log.Remote? || log.UnsizedToGlobal?
  }

  /** What `detect` asserts first: the version it is asked about is the one the thread has announced. */
  predicate Announced(th: Thread)
    requires Recoverable(th.log)
  {
    Detects(th.log.value) ==> th.entry == th.log.value.version
  }

  /** `recover_push`: put the slab on the unsized stack unless it is its top, and count the stack again. */
  function RecoverPush(st: State, t: Tid, i: Idx, pc: Pc): Option<State>
    requires t < |st.threads|
  {
    if i >= |st.slabs| || i >= |st.next| then None else
    var th := st.threads[t];
    if th.unsized.head == Some(i) then
      Some(WithThread(st, t, th.(unsized := Stack(Some(i), |Trace(st.next, Some(i), |st.next|)|), pc := pc)))
    else
      var next := st.next[i := th.unsized.head];
      Some(WithThread(WithSlab(st.(next := next), i, st.slabs[i].(place := Unsized(t))), t,
                      th.(unsized := Stack(Some(i), |Trace(next, Some(i), |next|)|), uchain := [i] + th.uchain,
                          pc := pc)))
  }

  /** `link` over the whole range and `set`, whatever had been done of it. */
  function Relinked(k: Config, st: State, t: Tid, start: Idx): State
    requires t < |st.threads|
  {
    var end := start + k.bumpBatch;
    var th := st.threads[t];
    WithThread(st.(
      next := seq(|st.next|, j requires 0 <= j < |st.next| =>
        if start <= j < end then (if j + 1 < end then Some(j + 1) else None) else st.next[j]),
      slabs := seq(|st.slabs|, j requires 0 <= j < |st.slabs| =>
        if start <= j < end then st.slabs[j].(owner := Some(t), place := Unsized(t)) else st.slabs[j])), t,
      th.(unsized := Stack(Some(start), k.bumpBatch), uchain := Range(start, k.bumpBatch), pc := Idle))
  }

  /** The validating build checks that `link` finds no owner, also when it links a second time. */
  predicate OwnsTwice(k: Config, st: State, start: Idx) {
    k.validate && exists j :: start <= j < start + k.bumpBatch && j < |st.slabs| && st.slabs[j].owner.Some?
  }

  /** The batch a thread is pushing. */
  function BatchOf(pc: Pc): seq<Idx> {
    if pc.PushLoad? || pc.PushLink? || pc.PushCas? then pc.batch else []
  }

  /** Undoing the cut: the first slab of the batch is the head again, and the stack is counted from there. */
  function Uncut(st: State, t: Tid, i: Idx): State
    requires t < |st.threads|
  {
    var th := st.threads[t];
    WithThread(st.(slabs := Moved(st.slabs, BatchOf(th.pc), Unsized(t), false)), t,
               th.(unsized := Stack(Some(i), |Trace(st.next, Some(i), |st.next|)|),
                   uchain := BatchOf(th.pc) + th.uchain,
                   pc := Idle))
  }

  /**
  `recover_heap` for thread `t`; `b` is the block a remote free was about (the code needs only its slab). `None` is a
  panic, in `detect` or in `link`.
  */
  function Recover(k: Config, st: State, t: Tid, detected: bool, b: Block): Option<State>
    requires t < |st.threads| && Recoverable(st.threads[t].log)
  {
    var th := st.threads[t];
    if !Announced(th) then None else
    match th.log.value
    case GlobalToUnsized(i, _) => if detected then RecoverPush(st, t, i, Idle) else Some(At(st, t, Idle))
    case BumpToUnsized(start, _) =>
      if !detected then Some(At(st, t, Idle))
      else if start + k.bumpBatch > |st.slabs| || OwnsTwice(k, st, start) then None
      else Some(Relinked(k, st, t, start))
    case UnsizedToGlobalSave(i) => Some(Uncut(st, t, i))
    case UnsizedToGlobal(i, _) => if detected then Some(At(st, t, Idle)) else Some(Uncut(st, t, i))
    case Remote(i, _, last) =>
      if !detected then Some(At(st, t, RemoteLoad(i, b)))
      else if !last then Some(At(st, t, Idle))
      else RecoverPush(st, t, i, Spill)
  }

  // Finishing a push

  /** Recovery changes no head, no other thread, no owner, bitset or counter; only links and lengths of `t`'s stack. */
  ghost predicate OnlyStack(st: State, st': State, t: Tid) {
    && st'.head == st.head && st'.bump == st.bump && st'.global == st.global
    && |st'.slabs| == |st.slabs| && |st'.threads| == |st.threads|
    && (forall u :: 0 <= u < |st.threads| && u != t ==> st'.threads[u] == st.threads[u])
    && (forall s :: 0 <= s < |st.slabs| ==> st'.slabs[s].(place := st.slabs[s].place) == st.slabs[s])
  }

  /** Counting the unsized stack again finds the length it should have. */
  lemma CountsAgain(k: Config, st: State, t: Tid)
    requires Inv(k, st) && t < |st.threads|
    ensures |Trace(st.next, st.threads[t].unsized.head, |st.next|)| == st.threads[t].unsized.len
  {
    Self(k, st, t);
    TraceIsAll(st.next, st.threads[t].unsized.head, st.threads[t].uchain);
  }

  lemma CarriedApart(k: Config, st: State, t: Tid, s: Idx)
    requires Inv(k, st) && t < |st.threads| && (IsAdopting(st.threads[t].pc) || IsClaiming(st.threads[t].pc))
    requires st.threads[t].pc.s == s
    ensures s < |st.slabs| && st.slabs[s].place == Flight(t) && st.slabs[s].blocks == map[]
    ensures s !in st.threads[t].uchain
    ensures IsStack(st.next, st.threads[t].unsized.head, st.threads[t].uchain)
  {
    Self(k, st, t);
    assert SlabOK(k, st.threads, st.global, st.slabs[s], s);
  }

  lemma PushCounts(next: Nexts, head: Option<Idx>, q: seq<Idx>, s: Idx)
    requires IsStack(next, head, q) && s !in q && s < |next|
    ensures IsStack(next[s := head], Some(s), [s] + q)
    ensures |Trace(next[s := head], Some(s), |next|)| == |q| + 1 && head != Some(s)
  {
    var next' := next[s := head];
    StackFrame(next, next', head, q);
    StackPush(next', head, q, s);
    TraceIsAll(next', Some(s), [s] + q);
  }

  /** The slab a thread carries is not on its unsized stack, and goes on top of it. */
  lemma PushFinds(k: Config, st: State, t: Tid, s: Idx, pc: Pc)
    requires Inv(k, st) && t < |st.threads| && (IsAdopting(st.threads[t].pc) || IsClaiming(st.threads[t].pc))
    requires st.threads[t].pc.s == s
    ensures s < |st.slabs| && st.slabs[s].place == Flight(t) && st.slabs[s].blocks == map[]
    ensures st.threads[t].unsized.head != Some(s)
    ensures RecoverPush(st, t, s, pc).Some?
    ensures var st' := RecoverPush(st, t, s, pc).value;
            && OnlyStack(st, st', t) && st'.threads[t].pc == pc
            && IsStack(st'.next, Some(s), [s] + st.threads[t].uchain)
            && st'.threads[t].unsized == Stack(Some(s), |st.threads[t].uchain| + 1)
  {
    CarriedApart(k, st, t, s);
    PushCounts(st.next, st.threads[t].unsized.head, st.threads[t].uchain, s);
  }

  /** The repaired push is the two steps the thread had left, but for where it goes from there. */
  lemma PushIsSteps(st: State, t: Tid, s: Idx, mid: Pc, end: Pc, pc: Pc)
    requires t < |st.threads| && s < |st.slabs| == |st.next| && st.threads[t].unsized.head != Some(s)
    requires RecoverPush(st, t, s, pc).Some?
    requires RecoverPush(st, t, s, pc).value.threads[t].unsized.len == st.threads[t].unsized.len + 1
    ensures StepLink(st, t, s, mid).Some? && StepSet(StepLink(st, t, s, mid).value, t, s, end).Some?
    ensures var st2 := StepSet(StepLink(st, t, s, mid).value, t, s, end).value;
            && t < |st2.threads| && RecoverPush(st, t, s, pc).value == WithThread(st2, t, st2.threads[t].(pc := pc))
  {
    var st2 := StepSet(StepLink(st, t, s, mid).value, t, s, end).value;
    assert RecoverPush(st, t, s, pc).value.threads == st2.threads[t := st2.threads[t].(pc := pc)];
  }

  /** The steps the thread had left. */
  lemma FinishSteps(k: Config, st: State, t: Tid, s: Idx, mid: Pc, end: Pc)
    requires Inv(k, st) && t < |st.threads| && (st.threads[t].pc.GlobalLink? || st.threads[t].pc.ClaimLink?)
    requires st.threads[t].pc.s == s
    requires mid == if st.threads[t].pc.GlobalLink? then GlobalSet(st.threads[t].pc.cls, s) else ClaimSet(s)
    requires end == if st.threads[t].pc.GlobalLink? then Refill(st.threads[t].pc.cls) else Spill
    ensures Keeps(k, StepLink(st, t, s, mid)) && |StepLink(st, t, s, mid).value.threads| == |st.threads|
    ensures Keeps(k, StepSet(StepLink(st, t, s, mid).value, t, s, end))
  {
    Self(k, st, t);
    LinkKeeps(k, st, t, s, mid);
    SetKeeps(k, StepLink(st, t, s, mid).value, t, s, end);
  }

  /** A thread about to refill, or to spill, may as well be done, or spill. */
  lemma StopsHere(k: Config, st: State, t: Tid, pc: Pc)
    requires Inv(k, st) && t < |st.threads|
    requires if st.threads[t].pc.Refill? then pc.Idle? else st.threads[t].pc.Spill? && pc.Spill?
    ensures Inv(k, WithThread(st, t, st.threads[t].(pc := pc)))
  {
    Self(k, st, t);
    MoveOn(k, st, t, st.threads[t].(pc := pc));
  }

  /** Pushing again from any point after the slab was owned is what the thread itself would have done. */
  lemma FinishKeeps(k: Config, st: State, t: Tid, s: Idx, pc: Pc)
    requires Inv(k, st) && t < |st.threads| && (st.threads[t].pc.GlobalLink? || st.threads[t].pc.ClaimLink?)
    requires st.threads[t].pc.s == s
    requires pc == if st.threads[t].pc.GlobalLink? then Idle else Spill
    ensures RecoverPush(st, t, s, pc).Some? && Inv(k, RecoverPush(st, t, s, pc).value)
  {
    var mid := if st.threads[t].pc.GlobalLink? then GlobalSet(st.threads[t].pc.cls, s) else ClaimSet(s);
    var end := if st.threads[t].pc.GlobalLink? then Refill(st.threads[t].pc.cls) else Spill;
    PushFinds(k, st, t, s, pc);
    FinishSteps(k, st, t, s, mid, end);
    assert st.threads[t].unsized.len == |st.threads[t].uchain| by {
      Self(k, st, t);
    }
    PushIsSteps(st, t, s, mid, end, pc);
    StopsHere(k, StepSet(StepLink(st, t, s, mid).value, t, s, end).value, t, pc);
  }

  /** Where the thread would be right after taking ownership. */
  function Owning(pc: Pc): Pc
    requires IsAdopting(pc) || IsClaiming(pc)
  {
    if IsAdopting(pc) then GlobalLink(pc.cls, pc.s) else ClaimLink(pc.s)
  }

  /** Taken back to that point, the thread is still in order, and recovery does the same. */
  lemma OwningKeeps(k: Config, st: State, t: Tid, s: Idx)
    requires Inv(k, st) && t < |st.threads| && (IsAdopting(st.threads[t].pc) || IsClaiming(st.threads[t].pc))
    requires st.threads[t].pc.s == s && s < |st.slabs| && st.slabs[s].owner == Some(t)
    ensures Inv(k, WithThread(st, t, st.threads[t].(pc := Owning(st.threads[t].pc))))
  {
    Self(k, st, t);
    MoveOn(k, st, t, st.threads[t].(pc := Owning(st.threads[t].pc)));
  }

  lemma OwningSame(st: State, t: Tid, s: Idx, pc: Pc, pc': Pc)
    requires t < |st.threads|
    ensures RecoverPush(WithThread(st, t, st.threads[t].(pc := pc')), t, s, pc) == RecoverPush(st, t, s, pc)
  {
    var st1 := WithThread(st, t, st.threads[t].(pc := pc'));
    if RecoverPush(st, t, s, pc).Some? {
      assert RecoverPush(st1, t, s, pc).value.threads == RecoverPush(st, t, s, pc).value.threads;
    }
  }

  lemma PushRepaired(k: Config, st: State, t: Tid, s: Idx, pc: Pc)
    requires Inv(k, st) && t < |st.threads| && (IsAdopting(st.threads[t].pc) || IsClaiming(st.threads[t].pc))
    requires st.threads[t].pc.s == s
    requires pc == (if IsAdopting(st.threads[t].pc) then Idle else Spill)
    requires s < |st.slabs| && st.slabs[s].owner == Some(t)
    ensures RecoverPush(st, t, s, pc).Some? && Inv(k, RecoverPush(st, t, s, pc).value)
  {
    OwningKeeps(k, st, t, s);
    var pc' := Owning(st.threads[t].pc);
    FinishKeeps(k, WithThread(st, t, st.threads[t].(pc := pc')), t, s, pc);
    OwningSame(st, t, s, pc, pc');
  }

  lemma UnsizedOwned(k: Config, st: State, t: Tid, s: Idx)
    requires Inv(k, st) && s < |st.slabs| && st.slabs[s].place == Unsized(t)
    ensures st.slabs[s].owner == Some(t)
  {
    assert SlabOK(k, st.threads, st.global, st.slabs[s], s);
  }

  /** A repaired push leaves the heap in order exactly when the slab had already been given to the thread. */
  lemma PushRepairs(k: Config, st: State, t: Tid, s: Idx, pc: Pc)
    requires Inv(k, st) && t < |st.threads| && (IsAdopting(st.threads[t].pc) || IsClaiming(st.threads[t].pc))
    requires st.threads[t].pc.s == s
    requires pc == if IsAdopting(st.threads[t].pc) then Idle else Spill
    ensures s < |st.slabs| && RecoverPush(st, t, s, pc).Some?
    ensures Inv(k, RecoverPush(st, t, s, pc).value) <==> st.slabs[s].owner == Some(t)
  {
    PushFinds(k, st, t, s, pc);
    var st' := RecoverPush(st, t, s, pc).value;
    if st.slabs[s].owner == Some(t) {
      PushRepaired(k, st, t, s, pc);
    }
    if Inv(k, st') {
      UnsizedOwned(k, st', t, s);
    }
  }

  // Recovery of a pop from the global stack

  lemma IdleKeeps(k: Config, st: State, t: Tid)
    requires Inv(k, st) && t < |st.threads|
    requires forall s :: !InFlight(k, st.threads[t].pc, s)
    requires forall s, b :: !Handling(st.threads[t].pc, s, b)
    ensures Inv(k, At(st, t, Idle))
  {
    MoveOn(k, st, t, st.threads[t].(pc := Idle));
  }

  /**
  A crash anywhere between logging a pop and the next log: afterwards the popped slab is alone on the thread's
  unsized stack if the compare-and-swap took effect, and the stack is empty otherwise. The heap is in order
  again exactly when the slab is the thread's, which a crash before `own` has not seen to and recovery does not. If the
  thread has met a tag of its own since its announcement, `detect` panics instead.
  */
  lemma RecoverPop(k: Config, st: State, t: Tid, i: Idx, v: nat, b: Block)
    requires Inv(k, st) && LogsOK(k, st) && t < |st.threads| && st.threads[t].log == Some(GlobalToUnsized(i, v))
    ensures var done := st.threads[t].took;
            var r := Recover(k, st, t, done, b);
            && (r.Some? <==> st.threads[t].entry == v)
            && (done ==> i < |st.slabs|)
            && (r.Some? ==>
                  && OnlyStack(st, r.value, t) && r.value.threads[t].pc.Idle?
                  && IsStack(r.value.next, r.value.threads[t].unsized.head, if done then [i] else [])
                  && r.value.threads[t].unsized.len == (if done then 1 else 0)
                  && (Inv(k, r.value) <==> (done ==> st.slabs[i].owner == Some(t))))
  {
    assert LogOK(k, st.threads[t]);
    Self(k, st, t);
    var th := st.threads[t];
    if !th.took {
      IdleKeeps(k, st, t);
    } else if th.pc.Refill? {
      CountsAgain(k, st, t);
      IdleKeeps(k, st, t);
      UnsizedSlabs(k, st, t, 1);
      assert th.uchain[..1][0] == i;
    } else {
      PushFinds(k, st, t, i, Idle);
      PushRepairs(k, st, t, i, Idle);
      assert [i] + th.uchain == [i];
    }
  }

  // Recovery of a remote free

  /** What a thread whose free was the last leaves behind: the slab on the way to, or on top of, its unsized stack. */
  lemma RecoverLast(k: Config, st: State, t: Tid, i: Idx, v: nat)
    requires Inv(k, st) && t < |st.threads| && RemoteLog(st.threads[t], i, v, true) && st.threads[t].took
    ensures i < |st.slabs| && st.slabs[i].blocks == map[]
    ensures var r := RecoverPush(st, t, i, Spill);
            && r.Some? && OnlyStack(st, r.value, t) && r.value.threads[t].pc == Spill
            && (exists q :: IsStack(r.value.next, r.value.threads[t].unsized.head, [i] + q)
                            && r.value.threads[t].unsized.len == |q| + 1)
            && (Inv(k, r.value) <==> st.slabs[i].owner == Some(t))
  {
    var th := st.threads[t];
    if th.pc.Spill? {
      Self(k, st, t);
      CountsAgain(k, st, t);
      UnsizedSlabs(k, st, t, 1);
      assert th.uchain[..1][0] == i;
      assert th.uchain == [i] + th.uchain[1..];
      assert RecoverPush(st, t, i, Spill).value == st by { assert st.threads[t := th] == st.threads; }
    } else {
      PushFinds(k, st, t, i, Spill);
      PushRepairs(k, st, t, i, Spill);
    }
  }

  /**
  A crash anywhere between logging a remote free and the next log. Not done: the free starts over, the block
  still counted and live. Done: the block is gone from both, once; and if it was the last, as the log says, the
  slab is on the unsized stack once and the thread goes on to spill. The heap is in order in every case except
  a crash right before `steal`, which recovery does not make up for. All that if the announcement is still in place.
  */
  lemma RecoverRemote(k: Config, st: State, t: Tid, i: Idx, v: nat, last: bool, b: Block)
    requires Inv(k, st) && LogsOK(k, st) && t < |st.threads| && st.threads[t].log == Some(Remote(i, v, last))
    requires st.threads[t].pc.RemoteCas? ==> b == st.threads[t].pc.b
    ensures i < |st.slabs| && (!st.threads[t].took <==> Handling(st.threads[t].pc, i, b))
    ensures var done := st.threads[t].took;
            var r := Recover(k, st, t, done, b);
            && (r.Some? <==> st.threads[t].entry == v)
            && (r.Some? ==> OnlyStack(st, r.value, t))
            && (r.Some? && !done ==>
                  r.value.threads[t].pc == RemoteLoad(i, b) && Holds(r.value.slabs, i, b, t) && Inv(k, r.value))
            && (r.Some? && done && !last ==> r.value.threads[t].pc.Idle? && Inv(k, r.value))
            && (r.Some? && done && last ==>
                  && r.value.threads[t].pc == Spill && st.slabs[i].blocks == map[]
                  && (exists q :: IsStack(r.value.next, r.value.threads[t].unsized.head, [i] + q)
                                  && r.value.threads[t].unsized.len == |q| + 1)
                  && (Inv(k, r.value) <==> st.slabs[i].owner == Some(t)))
  {
    assert LogOK(k, st.threads[t]);
    if !st.threads[t].took {
      RecoverFree(k, st, t, i, v, last, b);
    } else if !last {
      RecoverCounted(k, st, t, i, v, b);
    } else {
      RecoverLast(k, st, t, i, v);
    }
  }

  /** The count was not taken down: it is taken down again from the start. */
  lemma RecoverFree(k: Config, st: State, t: Tid, i: Idx, v: nat, last: bool, b: Block)
    requires Inv(k, st) && LogsOK(k, st) && t < |st.threads| && st.threads[t].log == Some(Remote(i, v, last))
    requires !st.threads[t].took && (st.threads[t].pc.RemoteCas? ==> b == st.threads[t].pc.b)
    ensures i < |st.slabs| && Handling(st.threads[t].pc, i, b)
    ensures var r := Recover(k, st, t, false, b);
            && (r.Some? <==> st.threads[t].entry == v)
            && (r.Some? ==>
                  && OnlyStack(st, r.value, t) && r.value == At(st, t, RemoteLoad(i, b))
                  && Holds(r.value.slabs, i, b, t) && Inv(k, r.value))
  {
    assert LogOK(k, st.threads[t]);
    var th := st.threads[t];
    Self(k, st, t);
    MoveOn(k, st, t, th.(pc := RemoteLoad(i, b)));
  }

  /** Left alone after that, the thread takes the count down once, and the block is gone from it. */
  lemma RecoverFreeOnce(k: Config, st: State, t: Tid, i: Idx, v: nat, last: bool, b: Block)
    requires Inv(k, st) && LogsOK(k, st) && t < |st.threads| && st.threads[t].log == Some(Remote(i, v, last))
    requires !st.threads[t].took && (st.threads[t].pc.RemoteCas? ==> b == st.threads[t].pc.b)
    ensures i < |st.slabs| && (Recover(k, st, t, false, b).Some? <==> st.threads[t].entry == v)
    ensures st.threads[t].entry == v ==>
            var r1 := StepThread(k, Recover(k, st, t, false, b).value, t);
            r1.Some? && Inv(k, r1.value) && t < |r1.value.threads| &&
            var r2 := StepThread(k, r1.value, t);
            && r2.Some? && Inv(k, r2.value) && i < |r2.value.slabs|
            && b in st.slabs[i].blocks && r2.value.slabs[i].blocks == st.slabs[i].blocks - {b}
            && r2.value.slabs[i].remote.inner + 1 == st.slabs[i].remote.inner
  {
    RecoverFree(k, st, t, i, v, last, b);
    if st.threads[t].entry == v {
      var st1 := Recover(k, st, t, false, b).value;
      assert st1.slabs[i] == st.slabs[i];
      CountsOff(k, st1, t, i, b);
    }
  }

  lemma CountsOff(k: Config, st: State, t: Tid, i: Idx, b: Block)
    requires Inv(k, st) && t < |st.threads| && st.threads[t].pc == RemoteLoad(i, b)
    ensures i < |st.slabs| && b in st.slabs[i].blocks && StepRemoteLoad(st, t, i, b).Some?
    ensures var st1 := StepRemoteLoad(st, t, i, b).value;
            && StepThread(k, st, t) == Some(st1) && Inv(k, st1) && t < |st1.threads|
            && var r2 := StepRemoteCas(st1, t, i, b, st.slabs[i].remote);
               && r2.Some? && StepThread(k, st1, t) == r2 && Inv(k, r2.value) && i < |r2.value.slabs|
               && r2.value.slabs[i].blocks == st.slabs[i].blocks - {b}
               && r2.value.slabs[i].remote.inner + 1 == st.slabs[i].remote.inner
  {
    Self(k, st, t);
    LiveIsCounted(k, st, i, b);
    DecrementKeeps(k, st, t, Announce(st.threads[t]), i, b);
    var st1 := StepRemoteLoad(st, t, i, b).value;
    RemoteCasKeeps(k, st1, t, i, b, st.slabs[i].remote);
  }

  /** The count was taken down and the slab has other live blocks: nothing is left to do. */
  lemma RecoverCounted(k: Config, st: State, t: Tid, i: Idx, v: nat, b: Block)
    requires Inv(k, st) && LogsOK(k, st) && t < |st.threads| && st.threads[t].log == Some(Remote(i, v, false))
    requires st.threads[t].took
    ensures i < |st.slabs| && !Handling(st.threads[t].pc, i, b)
    ensures var r := Recover(k, st, t, true, b);
            && (r.Some? <==> st.threads[t].entry == v)
            && (r.Some? ==> OnlyStack(st, r.value, t) && r.value.threads[t].pc.Idle? && Inv(k, r.value))
  {
    assert LogOK(k, st.threads[t]);
    Self(k, st, t);
    IdleKeeps(k, st, t);
  }

  // Recovery of a bump

  ghost predicate Linking(pc: Pc) {
    pc.BumpOwn? || pc.BumpNext? || pc.BumpSet?
  }

  /** The steps of `link` that are left. */
  function Left(k: Config, pc: Pc): int {
    match pc
    case BumpOwn(_, _, i) => 2 * (k.bumpBatch - i)
    case BumpNext(_, _, i) => 2 * (k.bumpBatch - i) - 1
    case _ => 0
  }

  /** Linking the range again, and going on linking it, come to the same. */
  lemma RelinkAgain(k: Config, st: State, t: Tid, start: Idx)
    requires Inv(k, st) && t < |st.threads| && (st.threads[t].pc.BumpOwn? || st.threads[t].pc.BumpNext?)
    requires st.threads[t].pc.start == start
    ensures StepBump(k, st, t).Some? && Linking(StepBump(k, st, t).value.threads[t].pc)
    ensures StepBump(k, st, t).value.threads[t].pc.start == start && |StepBump(k, st, t).value.threads| == |st.threads|
    ensures Left(k, StepBump(k, st, t).value.threads[t].pc) < Left(k, st.threads[t].pc)
    ensures Relinked(k, StepBump(k, st, t).value, t, start) == Relinked(k, st, t, start)
  {
    BumpGroup(k, st, t);
    Self(k, st, t);
    var st' := StepBump(k, st, t).value;
    assert Relinked(k, st', t, start).slabs == Relinked(k, st, t, start).slabs;
    assert Relinked(k, st', t, start).next == Relinked(k, st, t, start).next;
    assert Relinked(k, st', t, start).threads == Relinked(k, st, t, start).threads;
  }

  lemma RelinkLast(k: Config, st: State, t: Tid, c: Class, start: Idx)
    requires Inv(k, st) && t < |st.threads| && st.threads[t].pc == BumpSet(c, start)
    ensures Relinked(k, st, t, start) == At(StepBumpSet(k, st, t, c, start).value, t, Idle)
  {
    Self(k, st, t);
    var st' := At(StepBumpSet(k, st, t, c, start).value, t, Idle);
    var q := Range(start, k.bumpBatch);
    forall j | 0 <= j < |st.slabs| ensures Relinked(k, st, t, start).slabs[j] == st'.slabs[j] {
      RangeMember(start, k.bumpBatch, j);
      if start <= j < start + k.bumpBatch {
        assert BumpedAt(k, st.next, st.slabs, t, start, k.bumpBatch, k.bumpBatch, j);
      }
    }
    forall j | 0 <= j < |st.next| ensures Relinked(k, st, t, start).next[j] == st'.next[j] {
      if start <= j < start + k.bumpBatch {
        assert BumpedAt(k, st.next, st.slabs, t, start, k.bumpBatch, k.bumpBatch, j);
      }
    }
    assert Relinked(k, st, t, start).slabs == st'.slabs;
    assert Relinked(k, st, t, start).next == st'.next;
  }

  lemma {:induction false} RelinkKeeps(k: Config, st: State, t: Tid, start: Idx)
    requires Inv(k, st) && t < |st.threads| && Linking(st.threads[t].pc) && st.threads[t].pc.start == start
    ensures Inv(k, Relinked(k, st, t, start)) && start + k.bumpBatch <= |st.slabs|
    decreases Left(k, st.threads[t].pc)
  {
    Self(k, st, t);
    if st.threads[t].pc.BumpSet? {
      var c := st.threads[t].pc.cls;
      BumpSetKeeps(k, st, t, c, start);
      IdleKeeps(k, StepBumpSet(k, st, t, c, start).value, t);
      RelinkLast(k, st, t, c, start);
    } else {
      BumpGroup(k, st, t);
      RelinkAgain(k, st, t, start);
      RelinkKeeps(k, StepBump(k, st, t).value, t, start);
    }
  }

  /** A range that is the unsized stack is linked and owned as `link` leaves it. */
  lemma RangeLinked(k: Config, st: State, t: Tid, start: Idx)
    requires Inv(k, st) && t < |st.threads| && st.threads[t].uchain == Range(start, k.bumpBatch)
    ensures start + k.bumpBatch <= |st.slabs|
    ensures forall j :: start <= j < start + k.bumpBatch ==>
              && st.slabs[j].owner == Some(t) && st.slabs[j].place == Unsized(t)
              && st.next[j] == if j + 1 < start + k.bumpBatch then Some(j + 1) else None
  {
    var n := k.bumpBatch;
    var q := Range(start, n);
    Self(k, st, t);
    UnsizedSlabs(k, st, t, n);
    assert st.threads[t].uchain[..n] == q;
    assert q[n - 1] == start + n - 1;
    forall j | start <= j < start + n
      ensures st.slabs[j].owner == Some(t) && st.slabs[j].place == Unsized(t)
      ensures st.next[j] == if j + 1 < start + n then Some(j + 1) else None
    {
      assert q[j - start] == j;
      assert st.next[q[j - start]] == LinkAt(q, None, j - start);
    }
  }

  /** Linking a range that is linked and owned already changes nothing but the thread's place. */
  lemma RelinkSame(k: Config, st: State, t: Tid, start: Idx)
    requires t < |st.threads| && start + k.bumpBatch <= |st.slabs| == |st.next|
    requires forall j :: start <= j < start + k.bumpBatch ==>
               && st.slabs[j].owner == Some(t) && st.slabs[j].place == Unsized(t)
               && st.next[j] == if j + 1 < start + k.bumpBatch then Some(j + 1) else None
    requires st.threads[t].unsized == Stack(Some(start), k.bumpBatch)
    requires st.threads[t].uchain == Range(start, k.bumpBatch)
    ensures Relinked(k, st, t, start) == At(st, t, Idle)
  {
    var st' := Relinked(k, st, t, start);
    assert st'.slabs == st.slabs;
    assert st'.next == st.next;
    assert st'.threads == At(st, t, Idle).threads;
  }

  /** Linking a range that is already the unsized stack changes nothing. */
  lemma RelinkIdle(k: Config, st: State, t: Tid, start: Idx)
    requires Inv(k, st) && t < |st.threads| && st.threads[t].pc.Refill?
    requires st.threads[t].uchain == Range(start, k.bumpBatch)
    ensures start + k.bumpBatch <= |st.slabs| && Relinked(k, st, t, start) == At(st, t, Idle)
    ensures forall j :: start <= j < start + k.bumpBatch ==> st.slabs[j].owner == Some(t)
  {
    RangeLinked(k, st, t, start);
    Self(k, st, t);
    assert st.threads[t].uchain[0] == start;
    RelinkSame(k, st, t, start);
  }

  /** Some slab of a bumped range has an owner as soon as `link` has begun. */
  lemma OwnedOnce(k: Config, st: State, t: Tid, start: Idx)
    requires Inv(k, st) && t < |st.threads| && Linking(st.threads[t].pc) && st.threads[t].pc.start == start
    ensures OwnsTwice(k, st, start) <==> k.validate && !(st.threads[t].pc.BumpOwn? && st.threads[t].pc.i == 0)
  {
    Self(k, st, t);
    var pc := st.threads[t].pc;
    var owned := if pc.BumpOwn? then pc.i else if pc.BumpNext? then pc.i + 1 else k.bumpBatch;
    var linked := if pc.BumpSet? then k.bumpBatch else pc.i;
    forall j | start <= j < start + k.bumpBatch
      ensures j < |st.slabs| && (st.slabs[j].owner.Some? <==> j < start + owned)
    {
      assert BumpedAt(k, st.next, st.slabs, t, start, owned, linked, j);
    }
    assert st.slabs[start].owner.Some? <==> owned > 0;
  }

  /**
  A crash anywhere between logging a bump and the next log: afterwards the whole range is the thread's unsized
  stack and the heap is in order if the compare-and-swap took effect; otherwise the stack is empty. In the
  validating build, `link` panics on recovery unless the crash came before the first owner was written; in every build
  `detect` does when the announcement is gone.
  */
  lemma RecoverBump(k: Config, st: State, t: Tid, start: Idx, v: nat, b: Block)
    requires Inv(k, st) && LogsOK(k, st) && t < |st.threads| && st.threads[t].log == Some(BumpToUnsized(start, v))
    ensures var th := st.threads[t];
            var done := th.took;
            var r := Recover(k, st, t, done, b);
            && (r.Some? <==> th.entry == v && (!done || !k.validate || (th.pc.BumpOwn? && th.pc.i == 0)))
            && (r.Some? ==>
                  && Inv(k, r.value) && r.value.threads[t].pc.Idle?
                  && IsStack(r.value.next, r.value.threads[t].unsized.head,
                             if done then Range(start, k.bumpBatch) else [])
                  && r.value.threads[t].unsized.len == if done then k.bumpBatch else 0)
  {
    assert LogOK(k, st.threads[t]);
    Self(k, st, t);
    var th := st.threads[t];
    if !th.took {
      IdleKeeps(k, st, t);
    } else {
      if th.pc.Refill? {
        RelinkIdle(k, st, t, start);
        IdleKeeps(k, st, t);
        assert st.slabs[start].owner == Some(t);
      } else {
        OwnedOnce(k, st, t, start);
        RelinkKeeps(k, st, t, start);
      }
      Self(k, Relinked(k, st, t, start), t);
    }
  }

  // Recovery of a push on the global stack

  predicate Pushing(pc: Pc) {
    pc.PushLoad? || pc.PushLink? || pc.PushCas?
  }

  /** The last slab of the batch still leads to the rest of the unsized stack, and its owner has not been cleared. */
  predicate Restorable(k: Config, st: State, t: Tid)
    requires t < |st.threads|
  {
    var batch := BatchOf(st.threads[t].pc);
    && batch != [] && batch[|batch| - 1] < |st.next| && st.next[batch[|batch| - 1]] == st.threads[t].unsized.head
    && !k.validate
  }

  lemma BatchApart(k: Config, st: State, t: Tid)
    requires Inv(k, st) && t < |st.threads| && Pushing(st.threads[t].pc)
    ensures var batch := st.threads[t].pc.batch;
            && BatchOK(k, st.next, st.slabs, t, batch)
            && forall x :: x in batch ==>
                 x < |st.slabs| && st.slabs[x].place == Flight(t) && Drained(st.slabs[x]) && x !in st.threads[t].uchain
  {
    Self(k, st, t);
    var batch := st.threads[t].pc.batch;
    forall x | x in batch
      ensures x < |st.slabs| && st.slabs[x].place == Flight(t) && Drained(st.slabs[x]) && x !in st.threads[t].uchain
    {
      var i :| 0 <= i < |batch| && batch[i] == x;
      assert Carries(st.slabs, batch[i], t);
      assert SlabOK(k, st.threads, st.global, st.slabs[x], x);
    }
  }

  /** The batch and the rest are one stack again exactly when the batch still leads to the rest. */
  lemma UncutStack(next: Nexts, batch: seq<Idx>, head: Option<Idx>, q: seq<Idx>)
    requires batch != [] && NoDup(batch) && batch[|batch| - 1] < |next| && Linked(next, batch, next[batch[|batch| - 1]])
    requires IsStack(next, head, q) && forall x :: x in batch ==> x !in q
    ensures IsStack(next, Some(batch[0]), batch + q) <==> next[batch[|batch| - 1]] == head
  {
    var all, tail := batch + q, |batch| - 1;
    if next[batch[tail]] == head {
      StackConcat(next, batch, head, q);
    }
    if IsStack(next, Some(batch[0]), all) {
      assert next[all[tail]] == LinkAt(all, None, tail);
    }
  }

  lemma UncutThread(k: Config, next: Nexts, slabs: seq<Slab>, th: Thread, th': Thread, t: Tid, batch: seq<Idx>)
    requires |next| == |slabs| && StacksOK(k, next, slabs, th, t)
    requires forall i :: 0 <= i < |batch| ==> Carries(slabs, batch[i], t)
    requires th'.unsized.head == First(batch + th.uchain, None) && th'.unsized.len == |th'.uchain| && th'.pc.Idle?
    requires th'.uchain == batch + th.uchain && IsStack(next, th'.unsized.head, th'.uchain)
    requires th'.sized == th.sized && th'.schain == th.schain
    ensures ThreadOK(k, next, Moved(slabs, batch, Unsized(t), false), th', t)
  {
    var slabs' := Moved(slabs, batch, Unsized(t), false);
    MovedStacks(k, next, slabs, batch, Unsized(t), false, th, t);
    forall i | 0 <= i < |th'.uchain| ensures slabs'[th'.uchain[i]].place == Unsized(t) {
      if i < |batch| { assert th'.uchain[i] == batch[i] && Carries(slabs, batch[i], t); }
      else { assert th'.uchain[i] == th.uchain[i - |batch|]; }
    }
    forall c | 0 <= c < |th'.sized| ensures SizedOK(next, slabs', th'.sized[c], th'.schain[c], t, c) {
      assert SizedOK(next, slabs', th.sized[c], th.schain[c], t, c);
    }
  }

  lemma UncutOther(k: Config, threads: seq<Thread>, global: seq<Idx>, slab: Slab, x: Idx, t: Tid, th': Thread)
    requires SlabOK(k, threads, global, slab, x) && t < |threads| && Pushing(threads[t].pc) && x !in threads[t].pc.batch
    requires th'.uchain == threads[t].pc.batch + threads[t].uchain && th'.schain == threads[t].schain
    ensures StaysPut(k, slab, x, t, th', global)
  {
  }

  lemma UncutSlab(k: Config, threads: seq<Thread>, global: seq<Idx>, slab: Slab, x: Idx, t: Tid)
    requires t < |threads| && x in threads[t].uchain && slab.place == Unsized(t) && slab.owner == Some(t)
    requires Drained(slab)
    ensures SlabOK(k, threads, global, slab, x)
  {
  }

  lemma UncutSlabs(k: Config, st: State, st': State, t: Tid, batch: seq<Idx>)
    requires Inv(k, st) && t < |st.threads| && Pushing(st.threads[t].pc) && batch == st.threads[t].pc.batch
    requires !k.validate
    requires OnlyThread(st, st', t) && st'.global == st.global && st'.slabs == Moved(st.slabs, batch, Unsized(t), false)
    requires st'.threads[t].uchain == batch + st.threads[t].uchain && st'.threads[t].schain == st.threads[t].schain
    ensures SlabsMove(k, st, st', t)
  {
    BatchApart(k, st, t);
    forall x | 0 <= x < |st'.slabs|
      ensures || (st'.slabs[x] == st.slabs[x] && StaysPut(k, st.slabs[x], x, t, st'.threads[t], st'.global))
              || SlabOK(k, st'.threads, st'.global, st'.slabs[x], x)
    {
      if x in batch {
        var i :| 0 <= i < |batch| && batch[i] == x;
        assert Carries(st.slabs, batch[i], t);
        UncutSlab(k, st'.threads, st'.global, st'.slabs[x], x, t);
      } else {
        assert SlabOK(k, st.threads, st.global, st.slabs[x], x);
        UncutOther(k, st.threads, st.global, st.slabs[x], x, t, st'.threads[t]);
      }
    }
  }

  lemma UncutKeeps(k: Config, st: State, t: Tid, batch: seq<Idx>)
    requires Inv(k, st) && t < |st.threads| && Pushing(st.threads[t].pc) && batch == st.threads[t].pc.batch
    requires Restorable(k, st, t)
    ensures Inv(k, Uncut(st, t, batch[0]))
  {
    var st' := Uncut(st, t, batch[0]);
    var th := st.threads[t];
    BatchApart(k, st, t);
    Self(k, st, t);
    UncutStack(st.next, batch, th.unsized.head, th.uchain);
    TraceIsAll(st.next, Some(batch[0]), batch + th.uchain);
    assert forall i :: 0 <= i < |batch| ==> Carries(st.slabs, batch[i], t) && batch[i] in batch;
    UncutThread(k, st.next, st.slabs, th, st'.threads[t], t, batch);
    MovedOwn(k, st, st', t, batch, Unsized(t), false);
    UncutSlabs(k, st, st', t, batch);
    Assemble(k, st, st', t);
  }

  lemma UncutBreaks(k: Config, st: State, t: Tid, batch: seq<Idx>)
    requires Inv(k, st) && t < |st.threads| && Pushing(st.threads[t].pc) && batch == st.threads[t].pc.batch
    requires batch != [] && Inv(k, Uncut(st, t, batch[0]))
    ensures Restorable(k, st, t)
  {
    var st' := Uncut(st, t, batch[0]);
    var th := st.threads[t];
    BatchApart(k, st, t);
    Self(k, st, t);
    Self(k, st', t);
    UncutStack(st.next, batch, th.unsized.head, th.uchain);
    assert Carries(st.slabs, batch[0], t);
    assert SlabOK(k, st'.threads, st'.global, st'.slabs[batch[0]], batch[0]);
  }

  lemma UncutIff(k: Config, st: State, t: Tid, batch: seq<Idx>)
    requires Inv(k, st) && t < |st.threads| && Pushing(st.threads[t].pc) && batch == st.threads[t].pc.batch
    ensures batch != [] && batch[|batch| - 1] < |st.next|
    ensures IsStack(st.next, Some(batch[0]), batch + st.threads[t].uchain)
            <==> st.next[batch[|batch| - 1]] == st.threads[t].unsized.head
    ensures Inv(k, Uncut(st, t, batch[0])) <==> Restorable(k, st, t)
  {
    BatchApart(k, st, t);
    Self(k, st, t);
    UncutStack(st.next, batch, st.threads[t].unsized.head, st.threads[t].uchain);
    if Restorable(k, st, t) { UncutKeeps(k, st, t, batch); }
    if Inv(k, Uncut(st, t, batch[0])) { UncutBreaks(k, st, t, batch); }
  }

  /** What is logged while a batch is being pushed, and what recovery makes of it. */
  lemma PushedLog(k: Config, st: State, t: Tid, b: Block)
    requires Inv(k, st) && t < |st.threads| && Pushing(st.threads[t].pc)
    ensures var th := st.threads[t];
            && Recoverable(th.log) && th.pc.batch != [] && th.pc.batch[|th.pc.batch| - 1] < |st.next|
            && Recover(k, st, t, false, b) == (if Announced(th) then Some(Uncut(st, t, th.pc.batch[0])) else None)
            && (th.log.value.UnsizedToGlobalSave? ==> st.next[th.pc.batch[|th.pc.batch| - 1]] == th.unsized.head)
            && (th.pc.PushCas? ==> st.next[th.pc.batch[|th.pc.batch| - 1]] == th.pc.seen.inner)
            && (Announced(th) <==> th.log.value.UnsizedToGlobalSave? || th.entry == th.version)
  {
    Self(k, st, t);
  }

  /**
  A crash while a batch is on its way to the global stack. Undoing the cut gives the stack back as it was only as long
  as the last slab of the batch leads to the rest: right after the cut it does, but as soon as it has been linked to the
  global stack, the undone stack runs on into that one and the rest is lost, unless both are empty. In validating builds
  the slabs have lost their owner as well, so that the heap is never in order again. Once the compare-and-swap has been
  logged, `detect` panics if the thread met a tag of its own on the head.
  */
  lemma RecoverPushed(k: Config, st: State, t: Tid, b: Block)
    requires Inv(k, st) && t < |st.threads| && Pushing(st.threads[t].pc)
    ensures Recoverable(st.threads[t].log)
    ensures var th := st.threads[t];
            var batch := th.pc.batch;
            var r := Recover(k, st, t, false, b);
            && batch != [] && batch[|batch| - 1] < |st.next|
            && (r.Some? <==> th.log.value.UnsizedToGlobalSave? || th.entry == th.version)
            && (r.Some? ==>
                  && r.value.threads[t].pc.Idle? && r.value.next == st.next
                  && (IsStack(r.value.next, r.value.threads[t].unsized.head, batch + th.uchain)
                      <==> st.next[batch[|batch| - 1]] == th.unsized.head)
                  && (Inv(k, r.value) <==> Restorable(k, st, t)))
            && (th.log.value.UnsizedToGlobalSave? ==> st.next[batch[|batch| - 1]] == th.unsized.head)
            && (th.pc.PushCas? ==> st.next[batch[|batch| - 1]] == th.pc.seen.inner)
  {
    PushedLog(k, st, t, b);
    var batch := st.threads[t].pc.batch;
    UncutIff(k, st, t, batch);
  }
}
