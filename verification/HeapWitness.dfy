/**
Runs that show the other side of the theorems: states in which something goes wrong, reached from empty memory
by the heap's own steps. The heap of these runs has one class, and a slab that becomes empty goes straight to the
global stack.
*/
module HeapWitness {
  import opened Options
  import opened Chains
  import opened Heap
  import opened HeapInvariant
  import opened HeapRuns
  import opened HeapTheorems
  import opened HeapReach
  import opened HeapValid
  import opened Recovery

  function Conf(blocks: nat, validate: bool): Config {
    Config([blocks], 0, 1, 1, validate)
  }

  /** A thread with nothing on its stacks. */
  function Rest(entry: nat, version: nat, took: bool): Thread {
    Thread(Stack(None, 0), [Stack(None, 0)], entry, version, None, Idle, took, [], [[]])
  }

  predicate Resting(th: Thread) {
    th == Rest(th.entry, th.version, th.took)
  }

  /** Thread `t` may have changed, and slab `s` with its link. */
  ghost predicate Moves(st: State, st': State, t: Tid, s: Idx) {
    && OnlyOne(st, st', t) && st'.bump == st.bump
    && s < |st.slabs| == |st.next| == |st'.slabs| == |st'.next|
    && st'.slabs == st.slabs[s := st'.slabs[s]] && st'.next == st.next[s := st'.next[s]]
  }

  lemma MovedOne(slabs: seq<Slab>, s: Idx, place: Place, disown: bool)
    requires s < |slabs|
    ensures Moved(slabs, [s], place, disown) ==
            slabs[s := slabs[s].(place := place, owner := if disown then None else slabs[s].owner)]
  {}

  // A slab from the bump pointer

  lemma StartBump(k: Config, n: nat, st: State, t: Tid) returns (st': State)
    requires Ready(k, n, st, t) && Resting(st.threads[t]) && |k.counts| == 1 && k.counts[0] > 0
    requires st.head == Cell(None, 0, None)
    ensures Ready(k, n, st', t) && OnlyOne(st, st', t) && st' == st.(threads := st'.threads)
    ensures st'.threads[t] == st.threads[t].(pc := BumpLoad(0))
  {
    var st1 := Then(k, n, st, Alloc(t, 0));
    st' := GoGlobalEmpty(k, n, st1, t);
  }

  lemma BumpRange(k: Config, n: nat, st: State, t: Tid) returns (st': State)
    requires Ready(k, n, st, t) && st.threads[t].pc == BumpLoad(0) && |st.next| == |st.slabs| == st.bump.inner
    requires k.bumpBatch == 1
    ensures Ready(k, n, st', t) && OnlyOne(st, st', t) && st'.head == st.head && st'.global == st.global
    ensures st'.next == st.next + [None] && st'.slabs == st.slabs + [ZeroSlab(t)] && st'.bump.inner == st.bump.inner + 1
    ensures var th := st'.threads[t];
            && th == st.threads[t].(entry := th.entry, version := th.version, took := true, log := th.log,
                                    pc := BumpOwn(0, st.bump.inner, 0))
            && th.log == Some(BumpToUnsized(st.bump.inner, th.version))
            && (st.bump.id != Some(t) ==> th.entry == th.version)
  {
    var st1 := GoBumpLoad(k, n, st, t);
    st' := GoBumpCas(k, n, st1, t);
  }

  lemma LinkRange(k: Config, n: nat, st: State, t: Tid, s: Idx) returns (st': State)
    requires Ready(k, n, st, t) && st.threads[t].pc == BumpOwn(0, s, 0) && s < |st.next| == |st.slabs|
    requires k.bumpBatch == 1
    requires st.slabs[s] == ZeroSlab(t)
    ensures Ready(k, n, st', t) && Moves(st, st', t, s) && st'.head == st.head && st'.global == st.global
    ensures st'.next[s] == None && st'.slabs[s] == ZeroSlab(t).(owner := Some(t), place := Unsized(t))
    ensures st'.threads[t] == st.threads[t].(pc := Refill(0), unsized := Stack(Some(s), 1), uchain := [s])
  {
    var st1 := GoBumpOwn(k, n, st, t);
    var st2 := GoBumpNext(k, n, st1, t);
    st' := GoBumpSet(k, n, st2, t);
    assert Range(s, 1) == [s];
    MovedOne(st2.slabs, s, Unsized(t), false);
  }

  /** The slab on the unsized stack is made one of the class. */
  lemma Sizes(k: Config, n: nat, st: State, t: Tid, s: Idx) returns (st': State)
    requires Ready(k, n, st, t) && st.threads[t].pc == Refill(0) && s < |st.next| == |st.slabs| && |k.counts| == 1
    requires st.threads[t].unsized == Stack(Some(s), 1) && st.threads[t].uchain == [s] && st.next[s] == None
    requires st.threads[t].sized == [Stack(None, 0)] && st.threads[t].schain == [[]]
    ensures Ready(k, n, st', t) && Moves(st, st', t, s) && st'.head == st.head && st'.global == st.global
    ensures st'.next[s] == None && st'.slabs[s] == st.slabs[s].(
      cls := 0, free := Full(k.counts[0]), remote := Cell(Some(t), 0, k.counts[0]), place := Sized(t, 0))
    ensures var th := st'.threads[t];
            th == Thread(Stack(None, 0), [Stack(Some(s), 1)], th.entry, st.threads[t].version, th.log, Take(0),
                         st.threads[t].took, [], [[s]])
  {
    st' := GoRefill(k, n, st, t);
    assert st'.threads[t].sized == [Stack(Some(s), 1)];
    var none: seq<Idx> := [];
    assert [s] + none == [s];
    assert st'.threads[t].schain == [[s]];
  }

  /** A new slab on the unsized stack. */
  lemma TakesRange(k: Config, n: nat, st: State, t: Tid) returns (st': State)
    requires Ready(k, n, st, t) && |k.counts| == 1 && k == Conf(k.counts[0], k.validate) && k.counts[0] > 0
    requires |st.next| == |st.slabs| == st.bump.inner && st.head == Cell(None, 0, None) && Resting(st.threads[t])
    ensures Ready(k, n, st', t) && OnlyOne(st, st', t) && st'.head == st.head && st'.global == st.global
    ensures st'.next == st.next + [None] && st'.bump.inner == |st.slabs| + 1
    ensures st'.slabs == st.slabs + [ZeroSlab(t).(owner := Some(t), place := Unsized(t))]
    ensures var th, s := st'.threads[t], |st.slabs|;
            th == Thread(Stack(Some(s), 1), [Stack(None, 0)], th.entry, th.version, th.log, Refill(0), true, [s], [[]])
  {
    var st1 := StartBump(k, n, st, t);
    var st2 := BumpRange(k, n, st1, t);
    st' := LinkRange(k, n, st2, t, |st.slabs|);
  }

  /** A new slab for the class. */
  lemma TakesNew(k: Config, n: nat, st: State, t: Tid) returns (st': State)
    requires Ready(k, n, st, t) && |k.counts| == 1 && k == Conf(k.counts[0], k.validate) && k.counts[0] > 0
    requires |st.next| == |st.slabs| == st.bump.inner && st.head == Cell(None, 0, None) && Resting(st.threads[t])
    ensures Ready(k, n, st', t) && OnlyOne(st, st', t) && st'.head == st.head && st'.global == st.global
    ensures st'.next == st.next + [None] && st'.bump.inner == |st.slabs| + 1
    ensures var n := k.counts[0];
            st'.slabs == st.slabs + [Slab(Some(t), 0, Full(n), Cell(Some(t), 0, n), Sized(t, 0), map[])]
    ensures var th, s := st'.threads[t], |st.slabs|;
            th == Thread(Stack(None, 0), [Stack(Some(s), 1)], th.entry, th.version, th.log, Take(0), true, [], [[s]])
  {
    var st1 := TakesRange(k, n, st, t);
    st' := Sizes(k, n, st1, t, |st.slabs|);
  }

  /** A slab whose only block thread `t` has handed out. */
  function Given(t: Tid): Slab {
    Slab(Some(t), 0, {}, Cell(Some(t), 0, 1), Detached, map[0 := App])
  }

  lemma FullOne()
    ensures Full(1) == {0} && Least({0}) == 0
  {
    assert 0 in Full(1) && forall b: nat :: b in Full(1) ==> b == 0;
  }

  /** The only block is handed out, and with it the slab leaves the stack. */
  lemma HandsOutLast(k: Config, n: nat, st: State, t: Tid, s: Idx) returns (st': State)
    requires Ready(k, n, st, t) && s < |st.next| == |st.slabs| && k.counts == [1] && st.next[s] == None
    requires st.slabs[s] == Slab(Some(t), 0, Full(1), Cell(Some(t), 0, 1), Sized(t, 0), map[])
    requires var th := st.threads[t];
             th == Thread(Stack(None, 0), [Stack(Some(s), 1)], th.entry, th.version, th.log, Take(0), th.took,
                          [], [[s]])
    ensures Ready(k, n, st', t) && Moves(st, st', t, s) && st'.head == st.head && st'.global == st.global
    ensures st'.next[s] == None && st'.slabs[s] == Given(t)
    ensures st'.threads[t] == Rest(0, st.threads[t].version, st.threads[t].took)
  {
    FullOne();
    var st1 := GoTake(k, n, st, t);
    assert st.slabs[s].free - {0} == {} && Tail([s]) == [];
    assert st1.threads[t].sized == [Stack(None, 0)];
    assert st1.threads[t].schain == [[]];
    st' := GoDetach(k, n, st1, t);
    assert map[0 := By(t)][0 := App] == map[0 := App];
  }

  /** An allocation that takes a new slab. */
  lemma AllocatesNew(k: Config, n: nat, st: State, t: Tid) returns (st': State)
    requires Ready(k, n, st, t) && k == Conf(1, k.validate) && Resting(st.threads[t])
    requires |st.next| == |st.slabs| == st.bump.inner && st.head == Cell(None, 0, None)
    ensures Ready(k, n, st', t) && OnlyOne(st, st', t) && st'.head == st.head && st'.global == st.global
    ensures st'.next == st.next + [None] && st'.slabs == st.slabs + [Given(t)] && st'.bump.inner == |st.slabs| + 1
    ensures st'.threads[t] == Rest(0, st'.threads[t].version, true)
  {
    var st1 := TakesNew(k, n, st, t);
    st' := HandsOutLast(k, n, st1, t, |st.slabs|);
  }

  // A slab from the global stack

  lemma NewVersion(th: Thread)
    ensures Announce(th).version != th.entry && Announce(th).entry == Announce(th).version
  {
  }

  /** The part of a pop before its compare-and-swap. */
  lemma StartsPop(k: Config, n: nat, st: State, t: Tid, s: Idx) returns (st': State)
    requires Ready(k, n, st, t) && |k.counts| == 1 && k.counts[0] > 0 && Resting(st.threads[t])
    requires st.head.inner == Some(s) && s < |st.next|
    ensures Ready(k, n, st', t) && OnlyOne(st, st', t) && st' == st.(threads := st'.threads)
    ensures var th := st'.threads[t];
            && th == Rest(th.entry, th.version, false).(log := th.log, pc := GlobalCas(0, st.head, st.next[s]))
            && th.log == Some(GlobalToUnsized(s, th.version))
            && (st.head.id != Some(t) ==> th.entry == th.version)
            && (st.head.id == Some(t) ==> th.entry != th.version)
  {
    var st1 := Then(k, n, st, Alloc(t, 0));
    var st2 := GoGlobalEmpty(k, n, st1, t);
    var st3 := GoGlobalLoad(k, n, st2, t);
    NewVersion(st2.threads[t]);
    st' := GoGlobalNext(k, n, st3, t);
  }

  /** A slab back from a free. */
  function Back(owner: Option<Tid>, t: Tid): Slab {
    Slab(owner, 0, {0}, Cell(Some(t), 0, 1), Global, map[])
  }

  lemma PopsHead(k: Config, n: nat, st: State, t: Tid, s: Idx) returns (st': State)
    requires Ready(k, n, st, t) && s < |st.next| == |st.slabs| && st.head.inner == Some(s)
    requires var th := st.threads[t];
             th == Rest(th.entry, th.version, false).(log := th.log, pc := GlobalCas(0, st.head, st.next[s]))
    ensures Ready(k, n, st', t) && Moves(st, st', t, s) && st'.global == Tail(st.global)
    ensures st'.head == Cell(Some(t), st.threads[t].version, st.next[s])
    ensures st'.next[s] == st.next[s] && st'.slabs[s] == st.slabs[s].(place := Flight(t))
    ensures st'.threads[t] == st.threads[t].(took := true, pc := GlobalOwn(0, s))
  {
    st' := GoGlobalCas(k, n, st, t);
  }

  lemma Adopts(k: Config, n: nat, st: State, t: Tid, s: Idx) returns (st': State)
    requires Ready(k, n, st, t) && s < |st.next| == |st.slabs|
    requires var th := st.threads[t]; th == Rest(th.entry, th.version, true).(log := th.log, pc := GlobalOwn(0, s))
    ensures Ready(k, n, st', t) && Moves(st, st', t, s) && st'.head == st.head && st'.global == st.global
    ensures st'.next[s] == None && st'.slabs[s] == st.slabs[s].(owner := Some(t), place := Unsized(t))
    ensures st'.threads[t] == st.threads[t].(pc := Refill(0), unsized := Stack(Some(s), 1), uchain := [s])
  {
    var st1 := GoGlobalOwn(k, n, st, t);
    var st2 := GoGlobalLink(k, n, st1, t);
    st' := GoGlobalSet(k, n, st2, t);
  }

  /** An allocation that takes a slab from the global stack. */
  lemma AllocatesPopped(k: Config, n: nat, st: State, t: Tid, s: Idx) returns (st': State)
    requires Ready(k, n, st, t) && k == Conf(1, k.validate) && Resting(st.threads[t])
    requires s < |st.next| == |st.slabs| && st.head.inner == Some(s)
    requires st.slabs[s].blocks == map[]
    ensures Ready(k, n, st', t) && Moves(st, st', t, s) && st'.global == Tail(st.global)
    ensures st'.head.id == Some(t) && st'.head.inner == st.next[s]
    ensures st'.next[s] == None && st'.slabs[s] == Given(t)
    ensures st'.threads[t] == Rest(0, st'.threads[t].version, true)
  {
    var st1 := StartsPop(k, n, st, t, s);
    var st2 := PopsHead(k, n, st1, t, s);
    var st3 := Adopts(k, n, st2, t, s);
    var st4 := Sizes(k, n, st3, t, s);
    st' := HandsOutLast(k, n, st4, t, s);
  }

  // A slab given to the global stack

  /** The owner frees the only block: the slab goes on the sized stack, with nothing handed out. */
  lemma FreesOwn(k: Config, n: nat, st: State, t: Tid, s: Idx) returns (st': State)
    requires Ready(k, n, st, t) && k.counts == [1] && Resting(st.threads[t])
    requires s < |st.next| == |st.slabs| && st.slabs[s] == Given(t)
    ensures Ready(k, n, st', t) && Moves(st, st', t, s) && st'.head == st.head && st'.global == st.global
    ensures st'.next[s] == None && st'.slabs[s] == Back(Some(t), t).(place := Sized(t, 0))
    ensures st'.threads[t] == st.threads[t].(log := st'.threads[t].log, pc := Unsize(0, s),
                                             sized := [Stack(Some(s), 1)], schain := [[s]])
  {
    var st1 := Then(k, n, st, Free(t, s, 0));
    var st2 := GoFreeOwner(k, n, st1, t);
    st' := GoFreeLocal(k, n, st2, t);
    var none: seq<Idx> := [];
    assert [s] + none == [s];
    assert st'.threads[t].schain == [[s]];
  }

  lemma Unsizes(k: Config, n: nat, st: State, t: Tid, s: Idx) returns (st': State)
    requires Ready(k, n, st, t) && k.counts == [1] && s < |st.next| == |st.slabs| && st.next[s] == None
    requires var th := st.threads[t];
             th == Rest(th.entry, th.version, th.took).(log := th.log, pc := Unsize(0, s), sized := [Stack(Some(s), 1)],
                                                        schain := [[s]])
    ensures Ready(k, n, st', t) && Moves(st, st', t, s) && st'.head == st.head && st'.global == st.global
    ensures st'.next[s] == None && st'.slabs[s] == st.slabs[s].(place := Unsized(t))
    ensures var th := st.threads[t];
            st'.threads[t] == Rest(th.entry, th.version, th.took).(log := th.log, pc := Spill,
                                                                   unsized := Stack(Some(s), 1), uchain := [s])
  {
    st' := GoUnsize(k, n, st, t);
    assert Erase([s], s) == [];
    assert st'.threads[t].schain == [[]];
    var none: seq<Idx> := [];
    assert [s] + none == [s];
  }

  /** The slab is cut off the unsized stack. */
  lemma Spills(k: Config, n: nat, st: State, t: Tid, s: Idx) returns (st': State)
    requires Ready(k, n, st, t) && k == Conf(1, k.validate) && s < |st.next| == |st.slabs| && st.next[s] == None
    requires st.slabs[s].owner == Some(t)
    requires var th := st.threads[t];
             th == Rest(th.entry, th.version, th.took).(log := th.log, pc := Spill,
                                                        unsized := Stack(Some(s), 1), uchain := [s])
    ensures Ready(k, n, st', t) && Moves(st, st', t, s) && st'.head == st.head && st'.global == st.global
    ensures st'.next[s] == None
    ensures st'.slabs[s] == st.slabs[s].(place := Flight(t), owner := if k.validate then None else Some(t))
    ensures var th := st.threads[t];
            st'.threads[t] == Rest(th.entry, th.version, th.took).(log := st'.threads[t].log, pc := PushLoad([s]))
  {
    assert Trace(st.next, Some(s), 1) == [s];
    st' := GoSpill(k, n, st, t);
    MovedOne(st.slabs, s, Flight(t), k.validate);
  }

  /** And pushed. A thread that starts from version zero writes version one. */
  lemma Pushes(k: Config, n: nat, st: State, t: Tid, s: Idx) returns (st': State)
    requires Ready(k, n, st, t) && s < |st.next| == |st.slabs|
    requires var th := st.threads[t]; th == Rest(0, th.version, th.took).(log := th.log, pc := PushLoad([s]))
    ensures Ready(k, n, st', t) && Moves(st, st', t, s) && st'.global == [s] + st.global
    ensures st'.head == Cell(Some(t), 1, Some(s))
    ensures st'.next[s] == st.head.inner && st'.slabs[s] == st.slabs[s].(place := Global)
    ensures st'.threads[t] == Rest(if st.head.id == Some(t) then st.head.version else 1, 1, true)
  {
    var st1 := GoPushLoad(k, n, st, t);
    var st2 := GoPushLink(k, n, st1, t);
    st' := GoPushCas(k, n, st2, t);
    MovedOne(st2.slabs, s, Global, false);
  }

  /** The owner frees the only block of its slab, which ends up on top of the global stack. */
  lemma FreesToGlobal(k: Config, n: nat, st: State, t: Tid, s: Idx) returns (st': State)
    requires Ready(k, n, st, t) && k == Conf(1, k.validate) && Resting(st.threads[t]) && st.threads[t].entry == 0
    requires s < |st.next| == |st.slabs| && st.slabs[s] == Given(t)
    ensures Ready(k, n, st', t) && Moves(st, st', t, s) && st'.global == [s] + st.global
    ensures st'.head == Cell(Some(t), 1, Some(s)) && st'.next[s] == st.head.inner
    ensures st'.slabs[s] == Back(if k.validate then None else Some(t), t)
    ensures st'.threads[t] == Rest(if st.head.id == Some(t) then st.head.version else 1, 1, true)
  {
    var st1 := FreesOwn(k, n, st, t, s);
    var st2 := Unsizes(k, n, st1, t, s);
    var st3 := Spills(k, n, st2, t, s);
    st' := Pushes(k, n, st3, t, s);
  }

  // What becomes of a pop with an outdated link

  /** Empty memory and two threads at rest. */
  lemma Begin(k: Config, n: nat) returns (st: State)
    requires ValidConfig(k) && |k.counts| == 1
    ensures st == Init(k, n) && Reaches(k, n, st) && |st.threads| == n
    ensures forall t :: 0 <= t < n ==> st.threads[t] == Rest(0, 0, false)
  {
    st := Init(k, n);
    Start(k, n);
    assert FreshThread(k).sized == [Stack(None, 0)] && FreshThread(k).schain == [[]];
  }

  /** Two slabs, one of each thread, on the global stack: thread 1 has looked at them and goes on to pop the first. */
  lemma Looked(k: Config) returns (st: State)
    requires k == Conf(1, false)
    ensures Reaches(k, 2, st) && |st.threads| == 2 && |st.next| == |st.slabs| == st.bump.inner == 2
    ensures st.head == Cell(Some(0), 1, Some(0)) && st.next == [Some(1), None]
    ensures st.slabs[0].blocks == map[] && st.slabs[1].blocks == map[] && Resting(st.threads[0])
    ensures st.threads[1].pc == GlobalCas(0, st.head, Some(1))
  {
    var st0 := Begin(k, 2);
    var st1 := AllocatesNew(k, 2, st0, 0);
    var st2 := AllocatesNew(k, 2, st1, 1);
    var st3 := FreesToGlobal(k, 2, st2, 1, 1);
    var st4 := FreesToGlobal(k, 2, st3, 0, 0);
    st := StartsPop(k, 2, st4, 1, 0);
  }

  /**
  Thread 0 takes both slabs and gives the first one back. Storing the counter of a slab leaves a tag of version
  zero, and reading it back sets the thread's entry to zero, so its next version is one, as it was the first time:
  the head is again what thread 1 looked at, and the link behind it is not.
  */
  lemma OutdatedReached(k: Config) returns (st: State)
    requires k == Conf(1, false)
    ensures Reaches(k, 2, st) && |st.threads| == 2 && |st.next| == |st.slabs| == 2 && Outdated(st, 1)
    ensures st.slabs[1] == Given(0) && st.next == [None, None]
    ensures st.threads[1].pc == GlobalCas(0, st.head, Some(1)) && st.head.inner == Some(0)
  {
    var st1 := Looked(k);
    var st2 := AllocatesPopped(k, 2, st1, 0, 0);
    var st3 := AllocatesPopped(k, 2, st2, 0, 1);
    st := FreesToGlobal(k, 2, st3, 0, 0);
  }

  lemma PopsOutdated(st: State)
    requires |st.threads| == 2 && |st.next| == |st.slabs| == 2
    requires st.slabs[1] == Given(0) && st.next == [None, None]
    requires st.threads[1].pc == GlobalCas(0, st.head, Some(1)) && st.head.inner == Some(0)
    ensures StepPop(st, 1).Some?
    ensures var st' := StepPop(st, 1).value;
            |st'.slabs| == 2 && st'.slabs[1] == Given(0) && st'.next == [None, None] && st'.head.inner == Some(1)
            && st'.bump == st.bump
  {
  }

  /** The pop goes through, and a slab with a block that is in use is on the global stack as well. */
  lemma SlabInTwoPlaces() returns (k: Config, states: seq<State>, actions: seq<Action>)
    ensures ValidConfig(k) && IsRun(k, 2, states, actions)
    ensures var st := states[|actions|];
            && |st.slabs| == st.bump.inner == 2
            && st.slabs[1].blocks == map[0 := App]
            && Found(k, st, 1, DetachedFrom(0)) && Found(k, st, 1, OnGlobal)
  {
    k := Conf(1, false);
    var st := OutdatedReached(k);
    states, actions := Beyond(k, 2, st, Continue(1));
    PopsOutdated(st);
    var st' := states[|actions|];
    assert IsStack(st'.next, st'.head.inner, [1]);
  }

  // States in which a crash is not made up for

  /** A popped slab without an owner, which it has in the validating build until the thread takes it. */
  lemma OwnReached(k: Config) returns (st: State)
    requires k == Conf(1, true)
    ensures Reaches(k, 2, st) && |st.threads| == 2 && |st.slabs| == 1
    ensures st.threads[0].pc == GlobalOwn(0, 0) && st.slabs[0].owner == None
    ensures st.threads[0].log == Some(GlobalToUnsized(0, st.threads[0].version)) && st.threads[0].took
    ensures st.threads[0].entry == st.threads[0].version
  {
    var st0 := Begin(k, 2);
    var st1 := AllocatesNew(k, 2, st0, 1);
    var st2 := FreesToGlobal(k, 2, st1, 1, 0);
    var st3 := StartsPop(k, 2, st2, 0, 0);
    st := PopsHead(k, 2, st3, 0, 0);
  }

  /** A slab whose last block another thread has freed, before it takes the slab. */
  lemma StealReached(k: Config) returns (st: State)
    requires k == Conf(1, k.validate)
    ensures Reaches(k, 2, st) && |st.threads| == 2 && |st.slabs| == 1
    ensures st.threads[1].pc == ClaimSteal(0) && st.slabs[0].owner == Some(0)
    ensures st.threads[1].log == Some(Remote(0, st.threads[1].version, true)) && st.threads[1].took
    ensures st.threads[1].entry == st.threads[1].version
  {
    var st0 := Begin(k, 2);
    var st1 := AllocatesNew(k, 2, st0, 0);
    var st2 := Then(k, 2, st1, Free(1, 0, 0));
    var st3 := GoFreeOwner(k, 2, st2, 1);
    var st4 := GoRemoteLoad(k, 2, st3, 1);
    st := GoRemoteCas(k, 2, st4, 1);
  }

  /** A bumped range of which the first slab has its owner already. */
  lemma LinkReached(k: Config) returns (st: State)
    requires k == Conf(1, true)
    ensures Reaches(k, 1, st) && |st.threads| == 1 && st.threads[0].pc == BumpNext(0, 0, 0)
    ensures st.threads[0].log == Some(BumpToUnsized(0, st.threads[0].version)) && st.threads[0].took
    ensures st.threads[0].entry == st.threads[0].version
  {
    var st0 := Begin(k, 1);
    var st1 := StartBump(k, 1, st0, 0);
    var st2 := BumpRange(k, 1, st1, 0);
    st := GoBumpOwn(k, 1, st2, 0);
  }

  lemma Reached(k: Config, n: nat, st: State)
    requires ValidConfig(k) && Reaches(k, n, st)
    ensures Inv(k, st) && LogsOK(k, st)
  {
    var states, actions :| IsRun(k, n, states, actions) && NoStalePop(states, actions) && states[|actions|] == st;
    RunsLog(k, n, states, actions, |actions|);
  }

  /** So each exception in the recovery lemmas is met by some crash: in a pop, in a free, in a bump, in a push. */
  lemma PopNotRepaired() returns (k: Config, st: State)
    ensures ValidConfig(k) && Reaches(k, 2, st) && |st.threads| == 2 && Recoverable(st.threads[0].log)
    ensures st.threads[0].took && Announced(st.threads[0])
    ensures var r := Recover(k, st, 0, true, 0); r.Some? && !Inv(k, r.value)
  {
    k := Conf(1, true);
    st := OwnReached(k);
    Reached(k, 2, st);
    RecoverPop(k, st, 0, 0, st.threads[0].version, 0);
  }

  lemma FreeNotRepaired(validate: bool) returns (k: Config, st: State)
    ensures ValidConfig(k) && k.validate == validate && Reaches(k, 2, st)
    ensures |st.threads| == 2 && Recoverable(st.threads[1].log) && st.threads[1].took && Announced(st.threads[1])
    ensures var r := Recover(k, st, 1, true, 0); r.Some? && !Inv(k, r.value)
  {
    k := Conf(1, validate);
    st := StealReached(k);
    Reached(k, 2, st);
    RecoverRemote(k, st, 1, 0, st.threads[1].version, true, 0);
  }

  lemma BumpNotRepaired() returns (k: Config, st: State)
    ensures ValidConfig(k) && Reaches(k, 1, st) && |st.threads| == 1 && Recoverable(st.threads[0].log)
    ensures st.threads[0].took && Announced(st.threads[0])
    ensures Recover(k, st, 0, true, 0).None?
  {
    k := Conf(1, true);
    st := LinkReached(k);
    Reached(k, 1, st);
    RecoverBump(k, st, 0, 0, st.threads[0].version, 0);
  }

  /** Thread 0 has cut its slab off, and the global stack is not empty. */
  lemma CutsSlab(k: Config, n: nat, st: State) returns (st': State)
    requires Ready(k, n, st, 0) && k == Conf(1, false) && Resting(st.threads[0])
    requires |st.next| == |st.slabs| == 2 && st.slabs[0] == Given(0)
    ensures Ready(k, n, st', 0) && Moves(st, st', 0, 0) && st'.head == st.head
    ensures var th := st.threads[0];
            st'.threads[0] == Rest(th.entry, th.version, th.took).(log := st'.threads[0].log, pc := PushLoad([0]))
  {
    var st1 := FreesOwn(k, n, st, 0, 0);
    var st2 := Unsizes(k, n, st1, 0, 0);
    st' := Spills(k, n, st2, 0, 0);
  }

  /** It has linked the slab to the head it saw, and has not swapped the head yet. */
  lemma LinksSlab(k: Config, n: nat, st: State) returns (st': State)
    requires Ready(k, n, st, 0) && st.threads[0].pc == PushLoad([0]) && |st.next| == |st.slabs| == 2
    ensures Ready(k, n, st', 0) && |st'.threads| == |st.threads| && |st'.next| == 2
    ensures st'.threads[0].pc == PushCas([0], st.head) && st'.next[0] == st.head.inner
    ensures st'.threads[0].unsized == st.threads[0].unsized && !st'.threads[0].took
    ensures st'.threads[0].log == Some(UnsizedToGlobal(0, st'.threads[0].version))
    ensures st.head.id != Some(0) ==> st'.threads[0].entry == st'.threads[0].version
    ensures st.head.id == Some(0) && st.head.version == st.threads[0].entry ==>
              st'.threads[0].entry != st'.threads[0].version
  {
    NewVersion(st.threads[0]);
    var st1 := GoPushLoad(k, n, st, 0);
    st' := GoPushLink(k, n, st1, 0);
  }

  lemma PushNotRepaired() returns (k: Config, st: State)
    ensures ValidConfig(k) && Reaches(k, 2, st) && |st.threads| == 2 && Recoverable(st.threads[0].log)
    ensures !st.threads[0].took && st.threads[0].log.value.UnsizedToGlobal? && Announced(st.threads[0])
    ensures var r := Recover(k, st, 0, false, 0); r.Some? && !Inv(k, r.value)
  {
    k := Conf(1, false);
    var st0 := Begin(k, 2);
    var st1 := AllocatesNew(k, 2, st0, 0);
    var st2 := AllocatesNew(k, 2, st1, 1);
    var st3 := FreesToGlobal(k, 2, st2, 1, 1);
    var st4 := CutsSlab(k, 2, st3);
    st := LinksSlab(k, 2, st4);
    Reached(k, 2, st);
    PushedLog(k, st, 0, 0);
    UncutIff(k, st, 0, [0]);
  }

  // Crashes on which recovery panics, because the thread has met a tag of its own

  /** One thread that pops the slab it has pushed itself. */
  lemma PopPanics() returns (k: Config, st: State)
    ensures ValidConfig(k) && Reaches(k, 1, st) && |st.threads| == 1 && Recoverable(st.threads[0].log)
    ensures st.threads[0].took && Recover(k, st, 0, true, 0).None?
  {
    k := Conf(1, false);
    var st0 := Begin(k, 1);
    var st1 := AllocatesNew(k, 1, st0, 0);
    var st2 := FreesToGlobal(k, 1, st1, 0, 0);
    assert st2.threads[0].entry == 1;
    var st3 := StartsPop(k, 1, st2, 0, 0);
    st := PopsHead(k, 1, st3, 0, 0);
  }

  /** One thread that has pushed one of its two slabs. */
  lemma PushesFirst(k: Config) returns (st: State)
    requires k == Conf(1, false)
    ensures Ready(k, 1, st, 0) && |st.threads| == 1 && Resting(st.threads[0])
    ensures |st.next| == |st.slabs| == 2 && st.slabs[0] == Given(0)
    ensures st.head.id == Some(0) && st.head.version == st.threads[0].entry
  {
    var st0 := Begin(k, 1);
    var st1 := AllocatesNew(k, 1, st0, 0);
    var st2 := AllocatesNew(k, 1, st1, 0);
    st := FreesToGlobal(k, 1, st2, 0, 1);
  }

  /** One thread that pushes a slab on one it has pushed before. */
  lemma PushPanics() returns (k: Config, st: State)
    ensures ValidConfig(k) && Reaches(k, 1, st) && |st.threads| == 1 && Recoverable(st.threads[0].log)
    ensures !st.threads[0].took && Recover(k, st, 0, false, 0).None?
  {
    k := Conf(1, false);
    var st1 := PushesFirst(k);
    var st2 := CutsSlab(k, 1, st1);
    st := LinksSlab(k, 1, st2);
  }

  /** Two classes of two blocks. */
  function TwoClasses(): Config {
    Config([2, 2], 0, 1, 1, false)
  }

  /** One thread that has taken its first slab from the bump pointer and puts it on its unsized stack. */
  lemma BumpsFirst(k: Config) returns (st: State)
    requires k == TwoClasses()
    ensures Ready(k, 1, st, 0) && |st.threads| == 1 && |st.next| == |st.slabs| == 1 && st.slabs[0] == ZeroSlab(0)
    ensures st.head == Cell(None, 0, None) && st.bump == Cell(Some(0), 1, 1)
    ensures st.threads[0] == FreshThread(k).(entry := 1, version := 1, log := st.threads[0].log, took := true,
                                             pc := BumpOwn(0, 0, 0))
  {
    Start(k, 1);
    var st1 := Then(k, 1, Init(k, 1), Alloc(0, 0));
    var st2 := GoGlobalEmpty(k, 1, st1, 0);
    var st3 := GoBumpLoad(k, 1, st2, 0);
    st := GoBumpCas(k, 1, st3, 0);
  }

  lemma SetsFirst(k: Config) returns (st: State)
    requires k == TwoClasses()
    ensures Ready(k, 1, st, 0) && |st.threads| == 1 && |st.next| == |st.slabs| == 1 && st.slabs[0].remote.id == None
    ensures st.head == Cell(None, 0, None) && st.bump == Cell(Some(0), 1, 1)
    ensures var th := st.threads[0];
            && th.entry == 1 && th.pc == Refill(0) && th.unsized == Stack(Some(0), 1)
            && |th.sized| == 2 && th.sized[1] == Stack(None, 0)
    ensures st.next[0] == None
  {
    var st1 := BumpsFirst(k);
    var st2 := GoBumpOwn(k, 1, st1, 0);
    var st3 := GoBumpNext(k, 1, st2, 0);
    st := GoBumpSet(k, 1, st3, 0);
  }

  /** It has handed out one of two blocks, and its entry is still the version of the bump. */
  lemma ServesFirst(k: Config) returns (st: State)
    requires k == TwoClasses()
    ensures Ready(k, 1, st, 0) && |st.threads| == 1
    ensures st.head == Cell(None, 0, None) && st.bump == Cell(Some(0), 1, 1)
    ensures var th := st.threads[0];
            th.entry == 1 && th.pc.Idle? && th.unsized.head == None && |th.sized| == 2 && th.sized[1].head == None
  {
    FullTwo();
    var st1 := SetsFirst(k);
    var st2 := GoRefill(k, 1, st1, 0);
    assert {0, 1} - {0} == {1};
    st := GoTake(k, 1, st2, 0);
  }

  /** One thread that takes slabs from the bump pointer twice in a row, and crashes before the second swap. */
  lemma BumpPanics() returns (k: Config, st: State)
    ensures ValidConfig(k) && Reaches(k, 1, st) && |st.threads| == 1 && Recoverable(st.threads[0].log)
    ensures !st.threads[0].took && st.threads[0].log.value.BumpToUnsized?
    ensures Recover(k, st, 0, false, 0).None?
  {
    k := TwoClasses();
    var st1 := ServesFirst(k);
    var st2 := Then(k, 1, st1, Alloc(0, 1));
    var st3 := GoGlobalEmpty(k, 1, st2, 0);
    st := GoBumpLoad(k, 1, st3, 0);
  }

  // A slab taken out of the middle of a sized stack

  lemma FullTwo()
    ensures Full(2) == {0, 1} && Least({0, 1}) == 0 && Least({1}) == 1
  {
    assert forall b: nat :: b in Full(2) <==> b in {0, 1};
  }

  /** A slab of two blocks, with the blocks `free` in it and the blocks `live` out. */
  function Two(t: Tid, free: set<Block>, live: map<Block, Holder>, place: Place): Slab {
    Slab(Some(t), 0, free, Cell(Some(t), 0, 2), place, live)
  }

  lemma HandsOutFirst(k: Config, n: nat, st: State, t: Tid, s: Idx) returns (st': State)
    requires Ready(k, n, st, t) && s < |st.next| == |st.slabs| && k.counts == [2]
    requires st.slabs[s] == Two(t, Full(2), map[], Sized(t, 0))
    requires var th := st.threads[t];
             th == Thread(Stack(None, 0), [Stack(Some(s), 1)], th.entry, th.version, th.log, Take(0), th.took,
                          [], [[s]])
    ensures Ready(k, n, st', t) && Moves(st, st', t, s) && st'.head == st.head && st'.global == st.global
    ensures st'.next[s] == st.next[s] && st'.slabs[s] == Two(t, {1}, map[0 := App], Sized(t, 0))
    ensures st'.threads[t] == st.threads[t].(pc := Idle, log := None)
  {
    FullTwo();
    st' := GoTake(k, n, st, t);
    assert {0, 1} - {0} == {1};
  }

  /** The first allocation from a new slab of two blocks. */
  lemma AllocatesFirst(k: Config, n: nat, st: State, t: Tid) returns (st': State)
    requires Ready(k, n, st, t) && k == Conf(2, k.validate) && Resting(st.threads[t])
    requires |st.next| == |st.slabs| == st.bump.inner && st.head == Cell(None, 0, None)
    ensures Ready(k, n, st', t) && OnlyOne(st, st', t) && st'.head == st.head && st'.bump.inner == |st.slabs| + 1
    ensures st'.next == st.next + [None] && st'.slabs == st.slabs + [Two(t, {1}, map[0 := App], Sized(t, 0))]
    ensures var th := st'.threads[t];
            th == Rest(th.entry, th.version, th.took).(sized := [Stack(Some(|st.slabs|), 1)], schain := [[|st.slabs|]])
  {
    var st1 := TakesNew(k, n, st, t);
    st' := HandsOutFirst(k, n, st1, t, |st.slabs|);
  }

  lemma AllocatesSecond(k: Config, n: nat, st: State, t: Tid, s: Idx) returns (st': State)
    requires Ready(k, n, st, t) && k.counts == [2] && s < |st.next| == |st.slabs| && st.next[s] == None
    requires st.slabs[s] == Two(t, {1}, map[0 := App], Sized(t, 0))
    requires var th := st.threads[t];
             th == Rest(th.entry, th.version, th.took).(sized := [Stack(Some(s), 1)], schain := [[s]])
    ensures Ready(k, n, st', t) && Moves(st, st', t, s) && st'.head == st.head
    ensures st'.next[s] == None && st'.slabs[s] == Two(t, {}, map[0 := App, 1 := By(t)], Detached)
    ensures var th := st.threads[t]; st'.threads[t] == Rest(th.entry, th.version, th.took).(pc := Detach(0, s, 1))
  {
    FullTwo();
    var st1 := Then(k, n, st, Alloc(t, 0));
    st' := GoTake(k, n, st1, t);
    assert {1} - {1} == {} && Tail([s]) == [];
    assert st'.threads[t].sized == [Stack(None, 0)];
    assert st'.threads[t].schain == [[]];
  }

  lemma LetsGo(k: Config, n: nat, st: State, t: Tid, s: Idx) returns (st': State)
    requires Ready(k, n, st, t) && k.counts == [2] && s < |st.next| == |st.slabs|
    requires st.slabs[s] == Two(t, {}, map[0 := App, 1 := By(t)], Detached)
    requires var th := st.threads[t]; th == Rest(th.entry, th.version, th.took).(pc := Detach(0, s, 1))
    ensures Ready(k, n, st', t) && Moves(st, st', t, s) && st'.head == st.head && Resting(st'.threads[t])
    ensures st'.next[s] == st.next[s] && st'.slabs[s] == Two(t, {}, map[0 := App, 1 := App], Detached)
  {
    st' := GoDetach(k, n, st, t);
    assert map[0 := App, 1 := By(t)][1 := App] == map[0 := App, 1 := App];
  }

  /** Block 0 of the full slab comes back: the slab is on top of its stack again. */
  lemma Reattaches(k: Config, n: nat, st: State, t: Tid, s: Idx, x: Idx) returns (st': State)
    requires Ready(k, n, st, t) && k.counts == [2] && s < |st.next| == |st.slabs|
    requires st.slabs[s] == Two(t, {}, map[0 := App, 1 := App], Detached)
    requires var th := st.threads[t];
             th == Rest(th.entry, th.version, th.took).(sized := [Stack(Some(x), 1)], schain := [[x]])
    ensures Ready(k, n, st', t) && Moves(st, st', t, s) && st'.threads[t].pc.Idle?
    ensures st'.threads[t].sized == [Stack(Some(s), 2)]
  {
    var st1 := Then(k, n, st, Free(t, s, 0));
    var st2 := GoFreeOwner(k, n, st1, t);
    st' := GoFreeLocal(k, n, st2, t);
  }

  /** Block 0 of the slab below it comes back too: that slab is empty now, and not on top. */
  lemma Empties(k: Config, n: nat, st: State, t: Tid, s: Idx) returns (st': State)
    requires Ready(k, n, st, t) && k.counts == [2] && s < |st.next| == |st.slabs| && st.threads[t].pc.Idle?
    requires st.slabs[s] == Two(t, {1}, map[0 := App], Sized(t, 0))
    ensures Ready(k, n, st', t) && |st'.threads| == |st.threads|
    ensures st'.threads[t].pc == Unsize(0, s) && st'.threads[t].sized == st.threads[t].sized
  {
    var st1 := Then(k, n, st, Free(t, s, 0));
    var st2 := GoFreeOwner(k, n, st1, t);
    st' := GoFreeLocal(k, n, st2, t);
    assert {1} + {0} == {0, 1} && |{0, 1}| == 2;
  }

  lemma MiddleReached(k: Config) returns (st: State)
    requires k == Conf(2, k.validate)
    ensures Reaches(k, 1, st) && |st.threads| == 1 && FromMiddle(st.threads[0], 0)
  {
    var st0 := Begin(k, 1);
    var st1 := AllocatesFirst(k, 1, st0, 0);
    var st2 := AllocatesSecond(k, 1, st1, 0, 0);
    var st3 := LetsGo(k, 1, st2, 0, 0);
    var st4 := AllocatesFirst(k, 1, st3, 0);
    var st5 := Reattaches(k, 1, st4, 0, 0, 1);
    st := Empties(k, 1, st5, 0, 1);
  }

  /** From there on the validating build finds fault with the stack, though every slab is where it should be. */
  lemma ValidationFails(validate: bool) returns (k: Config, st: State)
    ensures ValidConfig(k) && k.validate == validate && Reaches(k, 1, st) && |st.threads| == 1
    ensures Inv(k, st) && !OwnedValid(st, 0)
  {
    k := Conf(2, validate);
    var st1 := MiddleReached(k);
    Reached(k, 1, st1);
    st := Go(k, 1, st1, 0);
    Reached(k, 1, st);
    SlackSteps(k, st1, Continue(0), 0, 0);
    ValidIff(k, st1, 0);
    SizedIsValid(k, st1, 0, 0);
    ValidIff(k, st, 0);
  }
}
