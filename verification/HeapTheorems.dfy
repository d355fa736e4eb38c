/**
What the invariant means for those who use the heap, in terms of the memory alone: heads, `next` fields,
owners, bitsets and counters. The lemmas hold in every state that satisfies the invariant, hence in every
state of every run up to the first pop with an outdated link (HeapRuns.RunsKeepUpTo).
*/
module HeapTheorems {
  import opened Options
  import opened Chains
  import opened Heap
  import opened HeapInvariant
  import opened HeapSteps
  import opened HeapRuns

  // Every slab is in exactly one place

  /** Slab `s` is met when `next` is followed from `head`. */
  ghost predicate OnStack(next: Nexts, head: Option<Idx>, s: Idx) {
    exists q :: IsStack(next, head, q) && s in q
  }

  /** Where a slab can be. A slab without a free bit is on no stack: its owner let it slip, or disowned it. */
  datatype Spot =
    | OnUnsized(t: Tid)
    | OnSized(t: Tid, c: Class)
    | OnGlobal
    | Carried(t: Tid)
    | DetachedFrom(t: Tid)
    | Disowned

  /** Slab `s` is to be found at `w`, judging by the memory and by where the threads are. */
  ghost predicate Found(k: Config, st: State, s: Idx, w: Spot)
    requires s < |st.slabs|
  {
    match w
    case OnUnsized(t) => t < |st.threads| && OnStack(st.next, st.threads[t].unsized.head, s)
    case OnSized(t, c) =>
      t < |st.threads| && c < |st.threads[t].sized| && OnStack(st.next, st.threads[t].sized[c].head, s)
    case OnGlobal => OnStack(st.next, st.head.inner, s)
    case Carried(t) => t < |st.threads| && InFlight(k, st.threads[t].pc, s)
    case DetachedFrom(t) => Exhausted(st.slabs[s]) && st.slabs[s].owner == Some(t)
    case Disowned => Exhausted(st.slabs[s]) && st.slabs[s].owner == None
  }

  /** Every block of the slab is out, and not all have been counted off. */
  predicate Exhausted(slab: Slab) {
    slab.free == {} && slab.remote.inner > 0
  }

  function SpotOf(slab: Slab): Spot {
    match slab.place
    case Unsized(t) => OnUnsized(t)
    case Sized(t, c) => OnSized(t, c)
    case Global => OnGlobal
    case Flight(t) => Carried(t)
    case Detached => if slab.owner.Some? then DetachedFrom(slab.owner.value) else Disowned
  }

  lemma OnIts(next: Nexts, head: Option<Idx>, q: seq<Idx>, s: Idx)
    requires IsStack(next, head, q)
    ensures OnStack(next, head, s) <==> s in q
  {
    if OnStack(next, head, s) {
      var r :| IsStack(next, head, r) && s in r;
      StackUnique(next, head, q, r);
    }
  }

  lemma CarriedIsFlight(k: Config, st: State, t: Tid, s: Idx)
    requires Inv(k, st) && t < |st.threads| && s < |st.slabs| && InFlight(k, st.threads[t].pc, s)
    ensures st.slabs[s].place == Flight(t)
  {
    Self(k, st, t);
    match st.threads[t].pc {
      case BumpOwn(_, start, i) => assert BumpedAt(k, st.next, st.slabs, t, start, i, i, s);
      case BumpNext(_, start, i) => assert BumpedAt(k, st.next, st.slabs, t, start, i + 1, i, s);
      case BumpSet(_, start) => assert BumpedAt(k, st.next, st.slabs, t, start, k.bumpBatch, k.bumpBatch, s);
      case PushLoad(batch) => InBatch(k, st, t, batch, s);
      case PushLink(batch, _) => InBatch(k, st, t, batch, s);
      case PushCas(batch, _) => InBatch(k, st, t, batch, s);
      case _ =>
    }
  }

  lemma InBatch(k: Config, st: State, t: Tid, batch: seq<Idx>, s: Idx)
    requires |st.next| == |st.slabs| && BatchOK(k, st.next, st.slabs, t, batch) && s in batch
    ensures Carries(st.slabs, s, t)
  {
    var i :| 0 <= i < |batch| && batch[i] == s;
    assert Carries(st.slabs, batch[i], t);
  }

  lemma FoundAt(k: Config, st: State, s: Idx, w: Spot)
    requires Inv(k, st) && s < |st.slabs| && Found(k, st, s, w)
    ensures w == SpotOf(st.slabs[s])
  {
    match w
    case OnUnsized(t) =>
      Self(k, st, t);
      OnIts(st.next, st.threads[t].unsized.head, st.threads[t].uchain, s);
    case OnSized(t, c) =>
      Self(k, st, t);
      assert SizedOK(st.next, st.slabs, st.threads[t].sized[c], st.threads[t].schain[c], t, c);
      OnIts(st.next, st.threads[t].sized[c].head, st.threads[t].schain[c], s);
    case OnGlobal => OnIts(st.next, st.head.inner, st.global, s);
    case Carried(t) => CarriedIsFlight(k, st, t, s);
    case DetachedFrom(_) => assert SlabOK(k, st.threads, st.global, st.slabs[s], s);
    case Disowned => assert SlabOK(k, st.threads, st.global, st.slabs[s], s);
  }

  lemma FoundThere(k: Config, st: State, s: Idx)
    requires Inv(k, st) && s < |st.slabs|
    ensures Found(k, st, s, SpotOf(st.slabs[s]))
  {
    assert SlabOK(k, st.threads, st.global, st.slabs[s], s);
    match st.slabs[s].place
    case Unsized(t) =>
      Self(k, st, t);
      OnIts(st.next, st.threads[t].unsized.head, st.threads[t].uchain, s);
    case Sized(t, c) =>
      Self(k, st, t);
      assert SizedOK(st.next, st.slabs, st.threads[t].sized[c], st.threads[t].schain[c], t, c);
      OnIts(st.next, st.threads[t].sized[c].head, st.threads[t].schain[c], s);
    case Global => OnIts(st.next, st.head.inner, st.global, s);
    case Flight(t) =>
    case Detached =>
  }

  /** No slab below the bump pointer is lost and none is shared: it is found in exactly one place. */
  lemma ExactlyOnePlace(k: Config, st: State, s: Idx)
    requires Inv(k, st) && s < st.bump.inner
    ensures exists w :: Found(k, st, s, w)
    ensures forall v, w :: Found(k, st, s, v) && Found(k, st, s, w) ==> v == w
  {
    FoundThere(k, st, s);
    forall v, w | Found(k, st, s, v) && Found(k, st, s, w) ensures v == w {
      FoundAt(k, st, s, v);
      FoundAt(k, st, s, w);
    }
  }

  // What is on a thread's stacks

  /**
  Sized stack `c` of thread `t` holds exactly the slabs that `t` owns, of class `c`, with a free block, and
  that are neither on its unsized stack, nor shared, nor in flight (those keep the class they had last).
  */
  lemma SizedExactly(k: Config, st: State, t: Tid, c: Class, s: Idx)
    requires Inv(k, st) && t < |st.threads| && c < |k.counts| && s < |st.slabs|
    ensures OnStack(st.next, st.threads[t].sized[c].head, s) <==>
            && st.slabs[s].owner == Some(t) && st.slabs[s].cls == c && st.slabs[s].free != {}
            && !OnStack(st.next, st.threads[t].unsized.head, s) && !OnStack(st.next, st.head.inner, s)
            && (forall u :: 0 <= u < |st.threads| ==> !InFlight(k, st.threads[u].pc, s))
  {
    FoundThere(k, st, s);
    assert SlabOK(k, st.threads, st.global, st.slabs[s], s);
    if OnStack(st.next, st.threads[t].sized[c].head, s) {
      FoundAt(k, st, s, OnSized(t, c));
      if OnStack(st.next, st.threads[t].unsized.head, s) { FoundAt(k, st, s, OnUnsized(t)); }
      if OnStack(st.next, st.head.inner, s) { FoundAt(k, st, s, OnGlobal); }
      forall u | 0 <= u < |st.threads| ensures !InFlight(k, st.threads[u].pc, s) {
        if InFlight(k, st.threads[u].pc, s) { FoundAt(k, st, s, Carried(u)); }
      }
    }
  }

  /** The recorded lengths: exact for the unsized stack, an upper bound for the sized ones. */
  lemma LengthsBound(k: Config, st: State, t: Tid, c: Class, q: seq<Idx>, r: seq<Idx>)
    requires Inv(k, st) && t < |st.threads| && c < |k.counts|
    requires IsStack(st.next, st.threads[t].unsized.head, q) && IsStack(st.next, st.threads[t].sized[c].head, r)
    ensures st.threads[t].unsized.len == |q| && st.threads[t].sized[c].len >= |r|
  {
    Self(k, st, t);
    assert SizedOK(st.next, st.slabs, st.threads[t].sized[c], st.threads[t].schain[c], t, c);
    StackUnique(st.next, st.threads[t].unsized.head, q, st.threads[t].uchain);
    StackUnique(st.next, st.threads[t].sized[c].head, r, st.threads[t].schain[c]);
  }

  // The counter of remote frees

  /** As long as a slab has a live block or a place on a sized stack, its counter counts free bits and live blocks. */
  lemma CounterCounts(k: Config, st: State, s: Idx)
    requires Inv(k, st) && s < |st.slabs|
    requires st.slabs[s].blocks != map[] || (exists t, c :: Found(k, st, s, OnSized(t, c)))
    ensures st.slabs[s].remote.inner == |st.slabs[s].free| + |st.slabs[s].blocks| > 0
    ensures st.slabs[s].free !! st.slabs[s].blocks.Keys
  {
    assert SlabOK(k, st.threads, st.global, st.slabs[s], s);
    if exists t, c :: Found(k, st, s, OnSized(t, c)) {
      var t, c :| Found(k, st, s, OnSized(t, c));
      FoundAt(k, st, s, OnSized(t, c));
    }
  }

  /**
  The decrement from one to zero: the slab had no free bit, no other live block, was on no stack, and no
  other thread is in the middle of allocating or freeing a block of it. So one thread claims it, alone.
  */
  lemma LastFreeClaims(k: Config, st: State, t: Tid, s: Idx, b: Block, seen: Cell<nat>)
    requires Inv(k, st) && t < |st.threads| && st.threads[t].pc == RemoteCas(s, b, seen)
    requires s < |st.slabs| && st.slabs[s].remote == seen && seen.inner == 1
    ensures st.slabs[s].free == {} && st.slabs[s].blocks.Keys == {b}
    ensures forall w :: Found(k, st, s, w) ==> w.DetachedFrom? || w.Disowned?
    ensures forall u, x :: 0 <= u < |st.threads| && Handling(st.threads[u].pc, s, x) ==> u == t && x == b
    ensures StepRemoteCas(st, t, s, b, seen).Some?
    ensures var st' := StepRemoteCas(st, t, s, b, seen).value;
            && st'.slabs[s].remote.inner == 0 && st'.slabs[s].blocks == map[] && st'.threads[t].pc == ClaimSteal(s)
            && (forall u :: 0 <= u < |st.threads| && u != t ==> !InFlight(k, st'.threads[u].pc, s))
  {
    LocalView(k, st, t, s);
    LastEffect(k, st, t, s, b, seen);
    forall w | Found(k, st, s, w) ensures w.DetachedFrom? || w.Disowned? { FoundAt(k, st, s, w); }
    forall u, x | 0 <= u < |st.threads| && Handling(st.threads[u].pc, s, x) ensures u == t && x == b {
      HandlingHolds(k, st, u, s, x);
    }
    forall u | 0 <= u < |st.threads| && u != t ensures !InFlight(k, st.threads[u].pc, s) {
      if InFlight(k, st.threads[u].pc, s) { CarriedIsFlight(k, st, u, s); }
    }
  }

  lemma HandlingHolds(k: Config, st: State, u: Tid, s: Idx, x: Block)
    requires Inv(k, st) && u < |st.threads| && Handling(st.threads[u].pc, s, x)
    ensures Holds(st.slabs, s, x, u)
  {
    Self(k, st, u);
  }

  // The global stack

  /** What a step does to the global stack: a push prepends its batch, a pop takes the first slab, nothing else. */
  ghost predicate AtomicStep(st: State, a: Action, st': State, q: seq<Idx>, q': seq<Idx>)
    requires a.t < |st.threads| == |st'.threads|
  {
    match st.threads[a.t].pc
    case PushCas(batch, seen) => if a.Continue? && st.head == seen then q' == batch + q else q' == q
    case GlobalCas(c, seen, _) =>
      if a.Continue? && st.head == seen then
        q != [] && q' == q[1..] && st'.threads[a.t].pc == GlobalOwn(c, q[0])
      else q' == q
    case _ => q' == q
  }

  /**
  The stack behind the tagged head refines an atomic sequence in every step but one: a pop reads the `next`
  field of a slab that may have been taken and reused meanwhile, and if its compare-and-swap then finds the
  head as it was, the rest of the sequence is left behind it just when the link it read is still the link.
  */
  lemma GlobalRefines(k: Config, st: State, a: Action, q: seq<Idx>)
    requires Inv(k, st) && Enabled(k, st, a) && IsStack(st.next, st.head.inner, q)
    ensures Step(k, st, a).Some? && |Step(k, st, a).value.threads| == |st.threads|
    ensures var st' := Step(k, st, a).value;
            !Stale(st, a) <==> exists q' :: IsStack(st'.next, st'.head.inner, q') && AtomicStep(st, a, st', q, q')
  {
    StackUnique(st.next, st.head.inner, q, st.global);
    StepKeeps(k, st, a);
    var st' := Step(k, st, a).value;
    GlobalMoves(k, st, a);
    if Stale(st, a) {
      forall q' | AtomicStep(st, a, st', q, q') ensures !IsStack(st'.next, st'.head.inner, q') {
        PopLinks(k, st, a.t, st.threads[a.t].pc.cls, st.head, st.threads[a.t].pc.next);
        PopTakes(st, a.t);
      }
    } else {
      assert IsStack(st'.next, st'.head.inner, st'.global);
    }
  }

  lemma GlobalMoves(k: Config, st: State, a: Action)
    requires Inv(k, st) && Enabled(k, st, a) && Step(k, st, a).Some?
    ensures var st' := Step(k, st, a).value;
            |st'.threads| == |st.threads| && AtomicStep(st, a, st', st.global, st'.global)
  {
    var pc := st.threads[a.t].pc;
    if a.Continue? {
      if pc.GlobalCas? && st.head == pc.seen {
        PopLinks(k, st, a.t, pc.cls, pc.seen, pc.next);
        PopTakes(st, a.t);
      } else if pc.PushCas? && st.head == pc.seen {
        PushPrepends(k, st, a.t);
      } else {
        GlobalRests(k, st, a.t);
      }
    }
  }

  lemma PopTakes(st: State, t: Tid)
    requires t < |st.threads| && st.threads[t].pc.GlobalCas? && st.head == st.threads[t].pc.seen && StepPop(st, t).Some?
    ensures var st' := StepPop(st, t).value;
            && SizedSame(st, st', t) && st'.global == Tail(st.global) && st'.bump == st.bump && st'.next == st.next
            && st'.head == Cell(Some(t), st.threads[t].version, st.threads[t].pc.next)
            && st.head.inner.Some? && st'.threads[t].pc == GlobalOwn(st.threads[t].pc.cls, st.head.inner.value)
  {
  }

  lemma PushPrepends(k: Config, st: State, t: Tid)
    requires Shaped(k, st) && t < |st.threads| && st.threads[t].pc.PushCas? && st.head == st.threads[t].pc.seen
    requires StepPush(k, st, t).Some?
    ensures var st' := StepPush(k, st, t).value;
            && SizedSame(st, st', t) && st'.global == st.threads[t].pc.batch + st.global && st'.bump == st.bump
            && st'.head.id == Some(t) && st'.head.version == st.threads[t].version
  {
  }

  /** Every other step leaves the record of the global stack alone. */
  lemma GlobalRests(k: Config, st: State, t: Tid)
    requires Shaped(k, st) && t < |st.threads| && StepThread(k, st, t).Some?
    requires var pc := st.threads[t].pc; !((pc.GlobalCas? || pc.PushCas?) && st.head == pc.seen)
    ensures var st' := StepThread(k, st, t).value;
            && OnlyOne(st, st', t) && st'.global == st.global && st'.head == st.head
            && (BumpWins(st, t) || st'.bump == st.bump)
            && (!IsServing(st.threads[t].pc) && !IsReturning(st.threads[t].pc) ==> SizedSame(st, st', t))
  {
    var pc := st.threads[t].pc;
    if IsPopping(pc) { PopRests(st, t); }
    else if IsBumping(pc) { BumpRests(k, st, t); }
    else if IsServing(pc) { ServeRests(k, st, t); }
    else if IsLettingGo(pc) { LetGoRests(k, st, t); }
    else if IsReturning(pc) { ReturnRests(k, st, t); }
    else if IsCountingOff(pc) { RemoteRests(st, t); }
    else if IsAdopting(pc) { AdoptRests(k, st, t); }
    else if IsClaiming(pc) { ClaimRests(st, t); }
    else if !pc.Idle? { PushRests(k, st, t); }
  }

  /** Thread `t`'s compare-and-swap on the bump pointer is about to succeed. */
  predicate BumpWins(st: State, t: Tid)
    requires t < |st.threads|
  {
    st.threads[t].pc.BumpCas? && st.bump == st.threads[t].pc.seenBump
  }

  /** Only thread `t` changes. */
  ghost predicate OnlyOne(st: State, st': State, t: Tid) {
    t < |st.threads| == |st'.threads| && forall u :: 0 <= u < |st.threads| && u != t ==> st'.threads[u] == st.threads[u]
  }

  /** And it leaves its sized stacks alone. */
  ghost predicate SizedSame(st: State, st': State, t: Tid) {
    && OnlyOne(st, st', t)
    && st'.threads[t].sized == st.threads[t].sized && st'.threads[t].schain == st.threads[t].schain
  }

  ghost predicate Rests(st: State, r: Option<State>, t: Tid) {
    r.Some? ==>
      OnlyOne(st, r.value, t) && r.value.global == st.global && r.value.head == st.head && r.value.bump == st.bump
  }

  ghost predicate RestsAll(st: State, r: Option<State>, t: Tid) {
    r.Some? ==>
      SizedSame(st, r.value, t) && r.value.global == st.global && r.value.head == st.head && r.value.bump == st.bump
  }

  lemma PopRests(st: State, t: Tid)
    requires t < |st.threads| && (st.threads[t].pc.GlobalCas? ==> st.head != st.threads[t].pc.seen)
    ensures RestsAll(st, StepPop(st, t), t)
  {}

  lemma AdoptRests(k: Config, st: State, t: Tid)
    requires t < |st.threads|
    ensures RestsAll(st, StepAdopt(k, st, t), t)
  {}

  lemma ClaimRests(st: State, t: Tid)
    requires t < |st.threads|
    ensures RestsAll(st, StepClaim(st, t), t)
  {}

  lemma BumpRests(k: Config, st: State, t: Tid)
    requires t < |st.threads|
    ensures !BumpWins(st, t) ==> RestsAll(st, StepBump(k, st, t), t)
    ensures BumpWins(st, t) && StepBump(k, st, t).Some? ==>
              var st' := StepBump(k, st, t).value;
              && SizedSame(st, st', t) && st'.global == st.global && st'.head == st.head
              && st'.bump.inner == st.bump.inner + k.bumpBatch
              && st'.threads[t].pc == BumpOwn(st.threads[t].pc.cls, st.bump.inner, 0)
  {}

  lemma ServeRests(k: Config, st: State, t: Tid)
    requires Shaped(k, st) && t < |st.threads|
    ensures Rests(st, StepServe(k, st, t), t)
  {}

  lemma LetGoRests(k: Config, st: State, t: Tid)
    requires Shaped(k, st) && t < |st.threads|
    ensures RestsAll(st, StepLetGo(k, st, t), t)
  {}

  lemma RemoteRests(st: State, t: Tid)
    requires t < |st.threads|
    ensures RestsAll(st, StepRemote(st, t), t)
  {}

  lemma ReturnRests(k: Config, st: State, t: Tid)
    requires Shaped(k, st) && t < |st.threads|
    ensures Rests(st, StepReturn(k, st, t), t)
  {}

  lemma PushRests(k: Config, st: State, t: Tid)
    requires Shaped(k, st) && t < |st.threads| && (st.threads[t].pc.PushCas? ==> st.head != st.threads[t].pc.seen)
    ensures RestsAll(st, StepPush(k, st, t), t)
  {}

  /** A step changes the record of no other thread, and sized stacks only when it serves or returns a block. */
  lemma ThreadSame(k: Config, st: State, t: Tid)
    requires Shaped(k, st) && t < |st.threads| && StepThread(k, st, t).Some?
    ensures OnlyOne(st, StepThread(k, st, t).value, t)
    ensures !IsServing(st.threads[t].pc) && !IsReturning(st.threads[t].pc) ==>
              SizedSame(st, StepThread(k, st, t).value, t)
  {
    var pc := st.threads[t].pc;
    if pc.GlobalCas? && st.head == pc.seen {
      PopTakes(st, t);
    } else if pc.PushCas? && st.head == pc.seen {
      PushPrepends(k, st, t);
    } else {
      GlobalRests(k, st, t);
    }
  }

  // The bump pointer

  /** The bump pointer moves only for the thread that wins it, by one batch, and that thread gets the batch. */
  lemma BumpMoves(k: Config, st: State, a: Action)
    requires Shaped(k, st) && Enabled(k, st, a) && Step(k, st, a).Some?
    ensures var st' := Step(k, st, a).value;
            if a.Continue? && BumpWins(st, a.t) then
              && st'.bump.inner == st.bump.inner + k.bumpBatch && |st'.threads| == |st.threads|
              && st'.threads[a.t].pc == BumpOwn(st.threads[a.t].pc.cls, st.bump.inner, 0)
            else st'.bump == st.bump
  {
    var pc := st.threads[a.t].pc;
    if a.Continue? {
      if pc.GlobalCas? && st.head == pc.seen {
        PopTakes(st, a.t);
      } else if pc.PushCas? && st.head == pc.seen {
        PushPrepends(k, st, a.t);
      } else {
        GlobalRests(k, st, a.t);
        BumpRests(k, st, a.t);
      }
    }
  }

  /** Where the ranges handed out in the first `i` steps of a run start. */
  ghost function Starts(states: seq<State>, actions: seq<Action>, i: nat): seq<nat>
    requires i <= |actions| < |states|
  {
    if i == 0 then []
    else
      var j := i - 1;
      Starts(states, actions, j) +
      if actions[j].Continue? && actions[j].t < |states[j].threads| && BumpWins(states[j], actions[j].t)
      then [states[j].bump.inner] else []
  }

  /** Batches of `b` slabs one after the other, up to `end`. */
  ghost predicate Batches(starts: seq<nat>, b: nat, end: nat) {
    if starts == [] then end == 0
    else
      var last := starts[|starts| - 1];
      end == last + b && Batches(starts[..|starts| - 1], b, last)
  }

  lemma BumpAlong(k: Config, n: nat, states: seq<State>, actions: seq<Action>, j: nat)
    requires IsRun(k, n, states, actions) && j < |actions|
    ensures actions[j].t < |states[j].threads|
    ensures states[j + 1].bump.inner ==
            states[j].bump.inner + if actions[j].Continue? && BumpWins(states[j], actions[j].t) then k.bumpBatch else 0
  {
    assert Leads(k, states[j], actions[j], states[j + 1]);
    BumpMoves(k, states[j], actions[j]);
  }

  /** The ranges handed out along any run are batches one after the other: they tile what is below the pointer. */
  lemma {:induction false} BumpsTile(k: Config, n: nat, states: seq<State>, actions: seq<Action>, i: nat)
    requires IsRun(k, n, states, actions) && i <= |actions|
    ensures Batches(Starts(states, actions, i), k.bumpBatch, states[i].bump.inner)
  {
    if i > 0 {
      var j := i - 1;
      BumpsTile(k, n, states, actions, j);
      BumpAlong(k, n, states, actions, j);
      var before, now := Starts(states, actions, j), Starts(states, actions, i);
      if now != before {
        assert now[..|now| - 1] == before;
      }
    }
  }
}
