/**
Requests to the heap, from the call of a thread to its return: what an allocation of a class gives, and what a free does
to the block, to the slab and to the stacks of the thread. Other threads do whatever they do meanwhile.
*/
module HeapRequests {
  import opened Options
  import opened Chains
  import opened Heap
  import opened HeapInvariant
  import opened HeapSteps
  import opened HeapRuns
  import opened HeapTheorems
  import opened HeapLive
  import opened Sizes

  /** The events of a thread that are not quiet, in order. */
  datatype Trail = Nothing | After(before: Trail, event: Event)

  function Noted(e: Event, es: Trail): Trail {
    if e.Quiet? then es else After(es, e)
  }

  /** The event of an action for thread `t`: quiet if it is another thread's. */
  function EventFor(k: Config, st: State, a: Action, t: Tid): Event
    requires Shaped(k, st) && Enabled(k, st, a)
  {
    if a.t == t then EventOf(k, st, a) else Quiet
  }

  ghost predicate WatchedAt(k: Config, states: seq<State>, actions: seq<Action>, t: Tid, q: seq<Event>, j: nat)
    requires j < |q| && j < |actions| && j < |states|
  {
    Shaped(k, states[j]) && Enabled(k, states[j], actions[j]) && q[j] == EventFor(k, states[j], actions[j], t)
  }

  /** `q` has the event of every step of the run for thread `t`. */
  ghost predicate Watched(k: Config, states: seq<State>, actions: seq<Action>, t: Tid, q: seq<Event>) {
    && |q| == |actions| < |states|
    && forall j {:trigger WatchedAt(k, states, actions, t, q, j)} :: 0 <= j < |q| ==>
         WatchedAt(k, states, actions, t, q, j)
  }

  /** Every run has its events. */
  lemma Watch(k: Config, n: nat, states: seq<State>, actions: seq<Action>, t: Tid) returns (q: seq<Event>)
    requires IsRun(k, n, states, actions)
    ensures Watched(k, states, actions, t, q)
  {
    q := [];
    while |q| < |actions|
      invariant |q| <= |actions|
      invariant forall j {:trigger WatchedAt(k, states, actions, t, q, j)} :: 0 <= j < |q| ==>
                  WatchedAt(k, states, actions, t, q, j)
    {
      var j := |q|;
      assert Leads(k, states[j], actions[j], states[j + 1]);
      var q' := q + [EventFor(k, states[j], actions[j], t)];
      forall i | 0 <= i < |q'| ensures WatchedAt(k, states, actions, t, q', i) {
        if i < j { assert WatchedAt(k, states, actions, t, q, i); }
      }
      q := q';
    }
  }

  /** The events of steps `m` up to `i`. */
  function Events(q: seq<Event>, m: nat, i: nat): Trail
    requires m <= i <= |q|
  {
    if i == m then Nothing else Noted(q[i - 1], Events(q, m, i - 1))
  }

  /** Thread `t` starts `a` in step `m`, and is not idle again before state `i`. */
  ghost predicate Calls(states: seq<State>, actions: seq<Action>, t: Tid, a: Action, m: nat, i: nat) {
    && m < i <= |actions| < |states| && actions[m] == a && a.t == t && !a.Continue?
    && forall j :: m < j < i ==> t < |states[j].threads| && !states[j].threads[t].pc.Idle?
  }

  lemma CallsBefore(states: seq<State>, actions: seq<Action>, t: Tid, a: Action, m: nat, i: nat)
    requires Calls(states, actions, t, a, m, i) && m + 1 < i
    ensures Calls(states, actions, t, a, m, i - 1)
  {
  }

  /** The next step of a run in which thread `t` is in the middle of its call. */
  lemma BusyGoesOn(k: Config, n: nat, states: seq<State>, actions: seq<Action>, t: Tid, a: Action, m: nat, j: nat)
    requires IsRun(k, n, states, actions) && Calls(states, actions, t, a, m, j + 1) && m < j < |actions|
    ensures Enabled(k, states[j], actions[j]) && (actions[j].t == t ==> actions[j] == Continue(t))
    ensures Shaped(k, states[j]) && Step(k, states[j], actions[j]) == Some(states[j + 1])
    ensures Calls(states, actions, t, a, m, j) && !states[j].threads[t].pc.Idle?
  {
    assert Leads(k, states[j], actions[j], states[j + 1]);
  }

  /** Another thread's step leaves thread `t` where it is. */
  lemma OtherLeaves(k: Config, st: State, a: Action, t: Tid)
    requires Inv(k, st) && Enabled(k, st, a) && a.t != t && t < |st.threads| && !Stale(st, a)
    ensures Step(k, st, a).Some?
    ensures var st' := Step(k, st, a).value;
            Inv(k, st') && |st'.threads| == |st.threads| && st'.threads[t] == st.threads[t]
  {
    StepKeeps(k, st, a);
    if a.Continue? { ThreadSame(k, st, a.t); }
  }

  /** And the block it is handling with it, in a slab of the same class. */
  lemma OtherLeavesBlock(k: Config, st: State, a: Action, t: Tid, s: Idx, b: Block)
    requires Inv(k, st) && Enabled(k, st, a) && a.t != t && t < |st.threads| && !Stale(st, a)
    requires Holds(st.slabs, s, b, t) && Handling(st.threads[t].pc, s, b)
    ensures Step(k, st, a).Some?
    ensures var st' := Step(k, st, a).value;
            Holds(st'.slabs, s, b, t) && st'.slabs[s].cls == st.slabs[s].cls
  {
    OtherLeaves(k, st, a, t);
    HeapRefines(k, st, a);
    var st' := Step(k, st, a).value;
    HandlingIsHolding(k, st', t, s, b);
    assert (s, b) in Live(st) && (s, b) in Live(st');
  }

  lemma HandlingIsHolding(k: Config, st: State, t: Tid, s: Idx, b: Block)
    requires Inv(k, st) && t < |st.threads| && Handling(st.threads[t].pc, s, b)
    ensures Holds(st.slabs, s, b, t)
  {
    Self(k, st, t);
  }

  // Allocating

  /** Thread `t` is looking for a block of class `c`. */
  predicate Asking(pc: Pc, c: Class) {
    (IsPopping(pc) || IsAdopting(pc) || IsBumping(pc) || IsServing(pc)) && pc.cls == c
  }

  /** It has one, and holds it itself or has given it to the application. */
  ghost predicate Given(k: Config, st: State, c: Class, es: Trail, holder: Holder) {
    && es.After? && es.before.Nothing? && es.event.Allocated?
    && var s, b := es.event.s, es.event.b;
       s < |st.slabs| && st.slabs[s].cls == c && b in st.slabs[s].blocks && st.slabs[s].blocks[b] == holder
  }

  /** Where an allocation of class `c` is, with the events it has had. */
  ghost predicate AllocAt(k: Config, st: State, t: Tid, c: Class, es: Trail)
    requires c < |k.counts|
  {
    && t < |st.threads|
    && var pc := st.threads[t].pc;
       if Asking(pc, c) then es == Nothing
       else if IsLettingGo(pc) then Given(k, st, c, es, By(t)) && es == After(Nothing, Allocated(pc.s, pc.b))
       else pc.Idle? && if k.counts[c] == 0 then es == Nothing else Given(k, st, c, es, App)
  }

  /** A class with a slab on its stack has blocks. */
  lemma SlabHasBlocks(k: Config, st: State, t: Tid, c: Class)
    requires Inv(k, st) && t < |st.threads| && c < |k.counts| && st.threads[t].schain[c] != []
    ensures k.counts[c] > 0
  {
    SizedHead(k, st, t, c);
    var s := st.threads[t].schain[c][0];
    assert SlabOK(k, st.threads, st.global, st.slabs[s], s);
    var b :| b in st.slabs[s].free;
  }

  lemma NoBlocksNoSlab(k: Config, st: State, t: Tid, c: Class)
    requires Inv(k, st) && t < |st.threads| && c < |k.counts| && k.counts[c] == 0
    ensures st.threads[t].sized[c].head.None?
  {
    Self(k, st, t);
    assert SizedOK(st.next, st.slabs, st.threads[t].sized[c], st.threads[t].schain[c], t, c);
    if st.threads[t].schain[c] != [] { SlabHasBlocks(k, st, t, c); }
  }

  lemma AllocStarts(k: Config, st: State, t: Tid, c: Class)
    requires Inv(k, st) && Enabled(k, st, Alloc(t, c))
    ensures Step(k, st, Alloc(t, c)).Some? && AllocAt(k, Step(k, st, Alloc(t, c)).value, t, c, Nothing)
  {
    if k.counts[c] == 0 { NoBlocksNoSlab(k, st, t, c); }
  }

  ghost predicate AllocGoes(k: Config, st: State, r: Option<State>, t: Tid, c: Class, es: Trail)
    requires Shaped(k, st) && t < |st.threads| && c < |k.counts|
  {
    r.Some? ==> AllocAt(k, r.value, t, c, Noted(EventOf(k, st, Continue(t)), es))
  }

  lemma PopAsks(k: Config, st: State, t: Tid, c: Class)
    requires Inv(k, st) && t < |st.threads| && c < |k.counts| && IsPopping(st.threads[t].pc)
    requires AllocAt(k, st, t, c, Nothing)
    ensures AllocGoes(k, st, StepPop(st, t), t, c, Nothing)
  {}

  lemma AdoptAsks(k: Config, st: State, t: Tid, c: Class)
    requires Inv(k, st) && t < |st.threads| && c < |k.counts| && IsAdopting(st.threads[t].pc)
    requires AllocAt(k, st, t, c, Nothing)
    ensures AllocGoes(k, st, StepAdopt(k, st, t), t, c, Nothing)
  {}

  lemma BumpAsks(k: Config, st: State, t: Tid, c: Class)
    requires Inv(k, st) && t < |st.threads| && c < |k.counts| && IsBumping(st.threads[t].pc)
    requires AllocAt(k, st, t, c, Nothing)
    ensures AllocGoes(k, st, StepBump(k, st, t), t, c, Nothing)
  {}

  lemma RefillAsks(k: Config, st: State, t: Tid, c: Class)
    requires Inv(k, st) && t < |st.threads| && c < |k.counts| && st.threads[t].pc == Refill(c)
    ensures AllocGoes(k, st, StepServe(k, st, t), t, c, Nothing)
  {
    Self(k, st, t);
  }

  /** A slab that is taken for a class has every block of the class free, and none is out. */
  lemma RefillFills(k: Config, st: State, t: Tid, c: Class)
    requires Inv(k, st) && t < |st.threads| && st.threads[t].pc == Refill(c)
    ensures c < |k.counts| && StepThread(k, st, t).Some?
    ensures var st' := StepThread(k, st, t).value;
            && t < |st'.threads| && c < |st'.threads[t].sized| && st'.threads[t].sized[c].head.Some?
            && var s := st'.threads[t].sized[c].head.value;
               && s < |st'.slabs| && st'.slabs[s].cls == c && st'.slabs[s].blocks == map[]
               && (forall b: nat :: b in st'.slabs[s].free <==> b < k.counts[c])
  {
    Self(k, st, t);
    UnsizedSlabs(k, st, t, 1);
    assert st.threads[t].uchain[..1][0] == st.threads[t].uchain[0];
  }

  lemma TakeGives(k: Config, st: State, t: Tid, c: Class)
    requires Inv(k, st) && t < |st.threads| && c < |k.counts| && st.threads[t].pc == Take(c)
    ensures AllocGoes(k, st, StepServe(k, st, t), t, c, Nothing)
  {
    Self(k, st, t);
    SizedHead(k, st, t, c);
    var s := st.threads[t].schain[c][0];
    assert SlabOK(k, st.threads, st.global, st.slabs[s], s);
    assert EventOf(k, st, Continue(t)) == Allocated(s, Least(st.slabs[s].free));
  }

  lemma DetachGives(k: Config, st: State, t: Tid, c: Class, es: Trail)
    requires Inv(k, st) && t < |st.threads| && c < |k.counts| && st.threads[t].pc.Detach?
    requires AllocAt(k, st, t, c, es)
    ensures AllocGoes(k, st, StepLetGo(k, st, t), t, c, es)
  {
    Self(k, st, t);
    var s := st.threads[t].pc.s;
    assert SlabOK(k, st.threads, st.global, st.slabs[s], s);
  }

  lemma DisownGives(k: Config, st: State, t: Tid, c: Class, es: Trail)
    requires Inv(k, st) && t < |st.threads| && c < |k.counts| && st.threads[t].pc.Disown?
    requires AllocAt(k, st, t, c, es)
    ensures AllocGoes(k, st, StepLetGo(k, st, t), t, c, es)
  {
    Self(k, st, t);
    var s := st.threads[t].pc.s;
    assert SlabOK(k, st.threads, st.global, st.slabs[s], s);
  }

  lemma AllocGoesOn(k: Config, st: State, t: Tid, c: Class, es: Trail)
    requires Inv(k, st) && t < |st.threads| && c < |k.counts| && !st.threads[t].pc.Idle? && AllocAt(k, st, t, c, es)
    ensures AllocGoes(k, st, StepThread(k, st, t), t, c, es)
  {
    var pc := st.threads[t].pc;
    if IsPopping(pc) { PopAsks(k, st, t, c); }
    else if IsAdopting(pc) { AdoptAsks(k, st, t, c); }
    else if IsBumping(pc) { BumpAsks(k, st, t, c); }
    else if pc.Refill? { RefillAsks(k, st, t, c); }
    else if pc.Take? { TakeGives(k, st, t, c); }
    else if pc.Detach? { DetachGives(k, st, t, c, es); }
    else { DisownGives(k, st, t, c, es); }
  }

  lemma AllocWaits(k: Config, st: State, a: Action, t: Tid, c: Class, es: Trail)
    requires Inv(k, st) && Enabled(k, st, a) && a.t != t && c < |k.counts| && !Stale(st, a)
    requires AllocAt(k, st, t, c, es) && !st.threads[t].pc.Idle?
    ensures Step(k, st, a).Some? && AllocAt(k, Step(k, st, a).value, t, c, es)
  {
    OtherLeaves(k, st, a, t);
    var pc := st.threads[t].pc;
    if IsLettingGo(pc) { OtherLeavesBlock(k, st, a, t, pc.s, pc.b); }
  }

  lemma AllocStep(k: Config, st: State, a: Action, t: Tid, c: Class, es: Trail)
    requires Inv(k, st) && Enabled(k, st, a) && c < |k.counts| && !Stale(st, a) && (a.t == t ==> a == Continue(t))
    requires AllocAt(k, st, t, c, es) && !st.threads[t].pc.Idle?
    ensures Step(k, st, a).Some? ==> AllocAt(k, Step(k, st, a).value, t, c, Noted(EventFor(k, st, a, t), es))
  {
    if a.t == t {
      AllocGoesOn(k, st, t, c, es);
    } else {
      AllocWaits(k, st, a, t, c, es);
    }
  }

  lemma AllocFirst(k: Config, n: nat, states: seq<State>, actions: seq<Action>, t: Tid, c: Class, q: seq<Event>, m: nat)
    requires ValidConfig(k) && IsRun(k, n, states, actions) && NoStalePop(states, actions)
    requires Watched(k, states, actions, t, q) && m < |actions| && actions[m] == Alloc(t, c)
    ensures c < |k.counts| && AllocAt(k, states[m + 1], t, c, Noted(q[m], Nothing))
  {
    RunsKeep(k, n, states, actions, m);
    assert WatchedAt(k, states, actions, t, q, m);
    assert Leads(k, states[m], actions[m], states[m + 1]);
    AllocStarts(k, states[m], t, c);
  }

  lemma AllocNext(k: Config, n: nat, states: seq<State>, actions: seq<Action>, t: Tid, c: Class, q: seq<Event>, m: nat,
                  j: nat, es: Trail)
    requires ValidConfig(k) && IsRun(k, n, states, actions) && NoStalePop(states, actions)
    requires Watched(k, states, actions, t, q) && Calls(states, actions, t, Alloc(t, c), m, j + 1) && m < j < |actions|
    requires c < |k.counts| && AllocAt(k, states[j], t, c, es)
    ensures AllocAt(k, states[j + 1], t, c, Noted(q[j], es))
  {
    RunsKeep(k, n, states, actions, j);
    assert WatchedAt(k, states, actions, t, q, j);
    BusyGoesOn(k, n, states, actions, t, Alloc(t, c), m, j);
    AllocStep(k, states[j], actions[j], t, c, es);
  }

  /**
  From its call on, an allocation of class `c` has had no event or that of one block of a slab of class `c`. By the time
  the thread is idle again it has had exactly one, and the application has the block, unless the class has no blocks.
  */
  lemma {:induction false} AllocServes(k: Config, n: nat, states: seq<State>, actions: seq<Action>, t: Tid, c: Class,
                                       q: seq<Event>, m: nat, i: nat)
    requires ValidConfig(k) && IsRun(k, n, states, actions) && NoStalePop(states, actions)
    requires Watched(k, states, actions, t, q) && Calls(states, actions, t, Alloc(t, c), m, i)
    ensures c < |k.counts| && AllocAt(k, states[i], t, c, Events(q, m, i))
    decreases i
  {
    if i == m + 1 {
      AllocFirst(k, n, states, actions, t, c, q, m);
      assert Events(q, m, m) == Nothing;
    } else {
      CallsBefore(states, actions, t, Alloc(t, c), m, i);
      AllocServes(k, n, states, actions, t, c, q, m, i - 1);
      AllocNext(k, n, states, actions, t, c, q, m, i - 1, Events(q, m, i - 1));
    }
  }

  /** In bytes: the block handed out has the size of the class that was asked for. */
  lemma AllocSize(k: Config, br: Bracket, n: nat, states: seq<State>, actions: seq<Action>, t: Tid, c: Class,
                  q: seq<Event>, m: nat, i: nat)
    requires ValidConfig(k) && IsRun(k, n, states, actions) && NoStalePop(states, actions) && Serves(k, br)
    requires Watched(k, states, actions, t, q) && Calls(states, actions, t, Alloc(t, c), m, i)
    requires t < |states[i].threads| && states[i].threads[t].pc.Idle?
    ensures c < |k.counts| && (k.counts[c] == 0 <==> Events(q, m, i) == Nothing)
    ensures k.counts[c] > 0 ==>
              var es, st := Events(q, m, i), states[i];
              && es.After? && es.before.Nothing? && es.event.Allocated?
              && var s, b := es.event.s, es.event.b;
                 && (s, b) in Live(st) && s < |st.slabs| && st.slabs[s].cls < |br.sizes|
                 && Hi(br, st, s, b) - Lo(br, st, s, b) == br.sizes[c]
  {
    AllocServes(k, n, states, actions, t, c, q, m, i);
  }

  // Where the block comes from

  /** What thread `t` found when it called for class `c` in step `m`. */
  ghost predicate NoSized(states: seq<State>, t: Tid, c: Class, m: nat) {
    && m < |states| && t < |states[m].threads| && c < |states[m].threads[t].sized|
    && states[m].threads[t].sized[c].head.None?
  }

  ghost predicate NoUnsized(states: seq<State>, t: Tid, m: nat) {
    m < |states| && t < |states[m].threads| && states[m].threads[t].unsized.head.None?
  }

  /** Since its call, and before state `i`, thread `t` has found the shared stack empty. */
  ghost predicate SawEmpty(states: seq<State>, actions: seq<Action>, t: Tid, m: nat, i: nat)
    requires i <= |actions| < |states|
  {
    exists j :: m < j < i && actions[j] == Continue(t) && states[j].head.inner.None?
  }

  /** A thread is where it is because the sources before were empty. */
  ghost predicate SourcesTried(states: seq<State>, actions: seq<Action>, t: Tid, c: Class, m: nat, i: nat)
    requires i <= |actions| < |states| && t < |states[i].threads|
  {
    var pc := states[i].threads[t].pc;
    && (IsPopping(pc) || IsAdopting(pc) || IsBumping(pc) || pc.Refill? ==> NoSized(states, t, c, m))
    && (IsPopping(pc) || IsAdopting(pc) || IsBumping(pc) ==> NoUnsized(states, t, m))
    && (IsBumping(pc) ==> SawEmpty(states, actions, t, m, i))
  }

  /** How a thread moves from one source to the next. */
  ghost predicate SourceStep(st: State, r: Option<State>, t: Tid)
    requires t < |st.threads|
  {
    r.Some? ==>
      && t < |r.value.threads|
      && var pc, pc' := st.threads[t].pc, r.value.threads[t].pc;
         && (IsBumping(pc') ==> IsBumping(pc) || (IsPopping(pc) && st.head.inner.None?))
         && (IsPopping(pc') || IsAdopting(pc') ==> IsPopping(pc) || IsAdopting(pc))
         && (pc'.Refill? ==> IsPopping(pc) || IsAdopting(pc) || IsBumping(pc))
  }

  lemma PopSource(st: State, t: Tid)
    requires t < |st.threads|
    ensures SourceStep(st, StepPop(st, t), t)
  {}

  lemma AdoptSource(k: Config, st: State, t: Tid)
    requires t < |st.threads|
    ensures SourceStep(st, StepAdopt(k, st, t), t)
  {}

  lemma BumpSource(k: Config, st: State, t: Tid)
    requires t < |st.threads|
    ensures SourceStep(st, StepBump(k, st, t), t)
  {}

  lemma ServeSource(k: Config, st: State, t: Tid)
    requires Shaped(k, st) && t < |st.threads|
    ensures SourceStep(st, StepServe(k, st, t), t)
  {}

  lemma LetGoSource(k: Config, st: State, t: Tid)
    requires Shaped(k, st) && t < |st.threads|
    ensures SourceStep(st, StepLetGo(k, st, t), t)
  {}

  lemma ThreadSource(k: Config, st: State, t: Tid, c: Class)
    requires Shaped(k, st) && t < |st.threads| && (Asking(st.threads[t].pc, c) || IsLettingGo(st.threads[t].pc))
    ensures SourceStep(st, StepThread(k, st, t), t)
  {
    var pc := st.threads[t].pc;
    if IsPopping(pc) { PopSource(st, t); }
    else if IsAdopting(pc) { AdoptSource(k, st, t); }
    else if IsBumping(pc) { BumpSource(k, st, t); }
    else if IsServing(pc) { ServeSource(k, st, t); }
    else { LetGoSource(k, st, t); }
  }

  lemma SourceNext(k: Config, n: nat, states: seq<State>, actions: seq<Action>, t: Tid, c: Class, m: nat, j: nat)
    requires ValidConfig(k) && IsRun(k, n, states, actions) && NoStalePop(states, actions)
    requires Calls(states, actions, t, Alloc(t, c), m, j + 1) && m < j < |actions|
    requires SourcesTried(states, actions, t, c, m, j)
    ensures t < |states[j + 1].threads| && SourcesTried(states, actions, t, c, m, j + 1)
  {
    var q := Watch(k, n, states, actions, t);
    AllocServes(k, n, states, actions, t, c, q, m, j);
    BusyGoesOn(k, n, states, actions, t, Alloc(t, c), m, j);
    RunsKeep(k, n, states, actions, j);
    if actions[j].t == t {
      ThreadSource(k, states[j], t, c);
      assert IsBumping(states[j + 1].threads[t].pc) && !IsBumping(states[j].threads[t].pc) ==>
          m < j < j + 1 && actions[j] == Continue(t) && states[j].head.inner.None?;
    } else {
      OtherLeaves(k, states[j], actions[j], t);
    }
  }

  /**
  An allocation goes to the unsized stack only when the stack of its class was empty at the call, to the shared stack
  only when the unsized stack was empty too, and to the bump pointer only after it has found the shared stack empty.
  */
  lemma {:induction false} SourcesInTurn(k: Config, n: nat, states: seq<State>, actions: seq<Action>, t: Tid, c: Class,
                                         m: nat, i: nat)
    requires ValidConfig(k) && IsRun(k, n, states, actions) && NoStalePop(states, actions)
    requires Calls(states, actions, t, Alloc(t, c), m, i)
    ensures t < |states[i].threads| && SourcesTried(states, actions, t, c, m, i)
    decreases i
  {
    if i == m + 1 {
      assert Leads(k, states[m], actions[m], states[m + 1]);
    } else {
      SourcesInTurn(k, n, states, actions, t, c, m, i - 1);
      SourceNext(k, n, states, actions, t, c, m, i - 1);
    }
  }

  // Letting a slab go

  /** Every block of a slab of class `c` is out. */
  ghost predicate AllOut(k: Config, slab: Slab, c: Class)
    requires c < |k.counts|
  {
    forall b: nat :: b < k.counts[c] ==> b in slab.blocks
  }

  /** The counter of a slab without free blocks is short exactly when some of its blocks have come back to it. */
  lemma ShortIff(k: Config, slab: Slab, c: Class)
    requires c < |k.counts| && Counted(k, slab) && slab.cls == c && slab.free == {}
    ensures slab.remote.inner < k.counts[c] <==> !AllOut(k, slab, c)
  {
    var keys := slab.blocks.Keys;
    assert |keys| == |slab.blocks|;
    if AllOut(k, slab, c) {
      assert keys == Full(k.counts[c]);
    } else {
      assert keys < Full(k.counts[c]);
      Smaller(keys, Full(k.counts[c]));
    }
  }

  /** What the load of `detach` decides. */
  lemma DetachDecides(k: Config, st: State, t: Tid, c: Class, s: Idx, b: Block)
    requires Inv(k, st) && t < |st.threads| && st.threads[t].pc == Detach(c, s, b)
    ensures c < |k.counts| && s < |st.slabs| && StepThread(k, st, t).Some?
    ensures var st' := StepThread(k, st, t).value;
            && t < |st'.threads| && s < |st'.slabs| && st'.slabs[s].owner == Some(t)
            && st'.threads[t].pc == if AllOut(k, st.slabs[s], c) then Idle else Disown(s, b)
  {
    Self(k, st, t);
    assert SlabOK(k, st.threads, st.global, st.slabs[s], s);
    ShortIff(k, st.slabs[s], c);
  }

  lemma DisownEnds(k: Config, st: State, t: Tid, s: Idx, b: Block)
    requires Inv(k, st) && t < |st.threads| && st.threads[t].pc == Disown(s, b)
    ensures s < |st.slabs| && StepThread(k, st, t).Some?
    ensures var st' := StepThread(k, st, t).value;
            t < |st'.threads| && s < |st'.slabs| && st'.slabs[s].owner == None && st'.threads[t].pc == Idle
  {
    Self(k, st, t);
  }

  /** Step `j` is the load of `detach` in an allocation called in step `m`. */
  ghost predicate Detaches(states: seq<State>, actions: seq<Action>, t: Tid, c: Class, s: Idx, b: Block, m: nat,
                           j: nat)
  {
    && m < j < |actions| < |states| && t < |states[j].threads|
    && actions[j] == Continue(t) && states[j].threads[t].pc == Detach(c, s, b)
  }

  /** Once that load has found blocks missing, the thread is on its way to disown the slab. */
  lemma {:induction false} DisownsLater(k: Config, n: nat, states: seq<State>, actions: seq<Action>, t: Tid, c: Class,
                                        s: Idx, b: Block, m: nat, j: nat, i: nat)
    requires ValidConfig(k) && IsRun(k, n, states, actions) && NoStalePop(states, actions)
    requires Calls(states, actions, t, Alloc(t, c), m, i) && Detaches(states, actions, t, c, s, b, m, j) && j < i
    requires c < |k.counts| && s < |states[j].slabs| && !AllOut(k, states[j].slabs[s], c)
    ensures t < |states[i].threads| && s < |states[i].slabs|
    ensures var pc := states[i].threads[t].pc;
            pc == Disown(s, b) || (pc.Idle? && states[i].slabs[s].owner == None)
    decreases i
  {
    var x := i - 1;
    RunsKeep(k, n, states, actions, x);
    BusyGoesOn(k, n, states, actions, t, Alloc(t, c), m, x);
    if x == j {
      DetachDecides(k, states[j], t, c, s, b);
    } else {
      DisownsLater(k, n, states, actions, t, c, s, b, m, j, x);
      if actions[x].t == t {
        DisownEnds(k, states[x], t, s, b);
      } else {
        OtherLeaves(k, states[x], actions[x], t);
        HandlingIsHolding(k, states[i], t, s, b);
      }
    }
  }

  /**
  An allocation that takes the last free block of a slab leaves the slab without an owner exactly when, at the load, a
  block of it was no longer out: somebody had freed it and counted it off.
  */
  lemma DisownedIff(k: Config, n: nat, states: seq<State>, actions: seq<Action>, t: Tid, c: Class, s: Idx, b: Block,
                    m: nat, j: nat, i: nat)
    requires ValidConfig(k) && IsRun(k, n, states, actions) && NoStalePop(states, actions)
    requires Calls(states, actions, t, Alloc(t, c), m, i) && Detaches(states, actions, t, c, s, b, m, j) && j < i
    requires t < |states[i].threads| && states[i].threads[t].pc.Idle?
    ensures c < |k.counts| && s < |states[j].slabs| && s < |states[i].slabs|
    ensures states[i].slabs[s].owner == if AllOut(k, states[j].slabs[s], c) then Some(t) else None
  {
    RunsKeep(k, n, states, actions, j);
    DetachDecides(k, states[j], t, c, s, b);
    if AllOut(k, states[j].slabs[s], c) {
      assert Leads(k, states[j], actions[j], states[j + 1]);
      assert i == j + 1;
    } else {
      DisownsLater(k, n, states, actions, t, c, s, b, m, j, i);
    }
  }
}
