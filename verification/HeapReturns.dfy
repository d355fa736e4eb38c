/**
A free, from the call of a thread to its return: it releases its block once, into the bitset of the owner or off the
counter of the slab, and what it does to the thread's unsized stack is fixed by whether the slab has become empty.
*/
module HeapReturns {
  import opened Options
  import opened Chains
  import opened Heap
  import opened HeapInvariant
  import opened HeapSteps
  import opened HeapRuns
  import opened HeapLive
  import opened HeapRequests

  /** All blocks of the slab are free in its bitset, or the last one has been counted off. */
  predicate Empty(k: Config, slab: Slab) {
    slab.cls < |k.counts| && (|slab.free| == k.counts[slab.cls] || slab.remote.inner == 0)
  }

  /** The event is a release that leaves its slab empty. */
  predicate Empties(k: Config, e: Event, st': State) {
    e.Released? && e.s < |st'.slabs| && Empty(k, st'.slabs[e.s])
  }

  /** An event of steps `m` up to `i` has left a slab empty. */
  ghost predicate Emptied(k: Config, states: seq<State>, q: seq<Event>, m: nat, i: nat)
    requires m <= i <= |q| < |states|
  {
    i > m && (Emptied(k, states, q, m, i - 1) || Empties(k, q[i - 1], states[i]))
  }

  /** The length of the unsized stack after one more slab has been put on it: a batch goes once it is too long. */
  function Cached(k: Config, len: nat): int {
    if len + 1 <= k.cacheSlabs then len + 1 else len + 1 - k.pushBatch
  }

  predicate IsFreeing(pc: Pc, s: Idx, b: Block) {
    (pc.FreeOwner? || pc.FreeLocal? || pc.RemoteLoad? || pc.RemoteCas?) && pc.s == s && pc.b == b
  }

  predicate IsPushing(pc: Pc) {
    pc.PushLoad? || pc.PushLink? || pc.PushCas?
  }

  /**
  Where a free of block `b` of slab `s` is that began with `len` slabs on the thread's unsized stack, with the events it
  has had and whether the slab has become empty.
  */
  ghost predicate FreeAt(k: Config, st: State, t: Tid, s: Idx, b: Block, len: nat, es: Trail, empty: bool) {
    && t < |st.threads|
    && var pc, now := st.threads[t].pc, st.threads[t].unsized.len;
       if IsFreeing(pc, s, b) then es == Nothing && now == len && !empty
       else
         && es == After(Nothing, Released(s, b))
         && if pc.RemoteDone? then now == len && !empty
            else if IsClaiming(pc) || pc.Unsize? then pc.s == s && now == len && empty
            else if pc.Spill? then now == len + 1 && empty
            else if IsPushing(pc) then now == len + 1 - k.pushBatch && len + 1 > k.cacheSlabs && empty
            else pc.Idle? && now == if empty then Cached(k, len) else len
  }

  ghost predicate FreeGoes(k: Config, st: State, r: Option<State>, t: Tid, s: Idx, b: Block, len: nat, es: Trail,
                           empty: bool)
    requires Shaped(k, st) && t < |st.threads|
  {
    r.Some? ==>
      var e := EventOf(k, st, Continue(t));
      FreeAt(k, r.value, t, s, b, len, Noted(e, es), empty || Empties(k, e, r.value))
  }

  lemma OwnerFrees(k: Config, st: State, t: Tid, s: Idx, b: Block, len: nat)
    requires Inv(k, st) && FreeAt(k, st, t, s, b, len, Nothing, false) && st.threads[t].pc == FreeOwner(s, b)
    ensures FreeGoes(k, st, StepReturn(k, st, t), t, s, b, len, Nothing, false)
  {}

  /** The owner's free goes on to take the slab off its stack exactly when it is empty. */
  lemma LocalFrees(k: Config, st: State, t: Tid, s: Idx, b: Block, len: nat)
    requires Inv(k, st) && FreeAt(k, st, t, s, b, len, Nothing, false) && st.threads[t].pc == FreeLocal(s, b)
    ensures FreeGoes(k, st, StepReturn(k, st, t), t, s, b, len, Nothing, false)
  {
    Self(k, st, t);
    LocalSlab(k, st, t, s, b);
  }

  lemma LocalSlab(k: Config, st: State, t: Tid, s: Idx, b: Block)
    requires Inv(k, st) && t < |st.threads| && Holds(st.slabs, s, b, t)
    ensures st.slabs[s].cls < |k.counts| && st.slabs[s].remote.inner > 0 && b !in st.slabs[s].free
    ensures |st.slabs[s].free + {b}| == |st.slabs[s].free| + 1 <= k.counts[st.slabs[s].cls]
  {
    var slab := st.slabs[s];
    assert SlabOK(k, st.threads, st.global, slab, s);
    assert slab.blocks != map[] && |slab.blocks| > 0;
    assert slab.free + {b} <= Full(k.counts[slab.cls]);
    FewerThan(slab.free + {b}, Full(k.counts[slab.cls]));
  }

  lemma FewerThan(a: set<nat>, b: set<nat>)
    requires a <= b
    ensures |a| <= |b|
  {
    assert b == a + (b - a);
  }

  lemma UnsizeFrees(k: Config, st: State, t: Tid, s: Idx, b: Block, len: nat, es: Trail, empty: bool)
    requires Inv(k, st) && FreeAt(k, st, t, s, b, len, es, empty) && st.threads[t].pc.Unsize?
    ensures FreeGoes(k, st, StepReturn(k, st, t), t, s, b, len, es, empty)
  {}

  /** A free that counts off goes on to claim the slab exactly when it is empty. */
  lemma RemoteFrees(k: Config, st: State, t: Tid, s: Idx, b: Block, len: nat, es: Trail, empty: bool)
    requires Inv(k, st) && FreeAt(k, st, t, s, b, len, es, empty) && IsCountingOff(st.threads[t].pc)
    ensures FreeGoes(k, st, StepRemote(st, t), t, s, b, len, es, empty)
  {
    Self(k, st, t);
    if !st.threads[t].pc.RemoteDone? {
      LocalSlab(k, st, t, s, b);
    }
  }

  lemma ClaimFrees(k: Config, st: State, t: Tid, s: Idx, b: Block, len: nat, es: Trail, empty: bool)
    requires Inv(k, st) && FreeAt(k, st, t, s, b, len, es, empty) && IsClaiming(st.threads[t].pc)
    ensures FreeGoes(k, st, StepClaim(st, t), t, s, b, len, es, empty)
  {}

  lemma PushFrees(k: Config, st: State, t: Tid, s: Idx, b: Block, len: nat, es: Trail, empty: bool)
    requires Inv(k, st) && FreeAt(k, st, t, s, b, len, es, empty)
    requires st.threads[t].pc.Spill? || IsPushing(st.threads[t].pc)
    ensures FreeGoes(k, st, StepPush(k, st, t), t, s, b, len, es, empty)
  {}

  lemma FreeGoesOn(k: Config, st: State, t: Tid, s: Idx, b: Block, len: nat, es: Trail, empty: bool)
    requires Inv(k, st) && FreeAt(k, st, t, s, b, len, es, empty) && !st.threads[t].pc.Idle?
    ensures FreeGoes(k, st, StepThread(k, st, t), t, s, b, len, es, empty)
  {
    var pc := st.threads[t].pc;
    if pc.FreeOwner? { OwnerFrees(k, st, t, s, b, len); }
    else if pc.FreeLocal? { LocalFrees(k, st, t, s, b, len); }
    else if pc.Unsize? { UnsizeFrees(k, st, t, s, b, len, es, empty); }
    else if IsCountingOff(pc) { RemoteFrees(k, st, t, s, b, len, es, empty); }
    else if IsClaiming(pc) { ClaimFrees(k, st, t, s, b, len, es, empty); }
    else { PushFrees(k, st, t, s, b, len, es, empty); }
  }

  lemma FreeStep(k: Config, st: State, a: Action, t: Tid, s: Idx, b: Block, len: nat, es: Trail, empty: bool)
    requires Inv(k, st) && Enabled(k, st, a) && !Stale(st, a) && (a.t == t ==> a == Continue(t))
    requires FreeAt(k, st, t, s, b, len, es, empty) && !st.threads[t].pc.Idle?
    ensures Step(k, st, a).Some? ==>
              var st' := Step(k, st, a).value;
              var e := EventFor(k, st, a, t);
              FreeAt(k, st', t, s, b, len, Noted(e, es), empty || Empties(k, e, st'))
  {
    if a.t == t {
      FreeGoesOn(k, st, t, s, b, len, es, empty);
    } else {
      OtherLeaves(k, st, a, t);
    }
  }

  lemma FreeNext(k: Config, n: nat, states: seq<State>, actions: seq<Action>, t: Tid, s: Idx, b: Block, q: seq<Event>,
                 m: nat, j: nat, len: nat, es: Trail, empty: bool)
    requires ValidConfig(k) && IsRun(k, n, states, actions) && NoStalePop(states, actions)
    requires Watched(k, states, actions, t, q)
    requires Calls(states, actions, t, Free(t, s, b), m, j + 1) && m < j < |actions|
    requires FreeAt(k, states[j], t, s, b, len, es, empty)
    ensures FreeAt(k, states[j + 1], t, s, b, len, Noted(q[j], es), empty || Empties(k, q[j], states[j + 1]))
  {
    RunsKeep(k, n, states, actions, j);
    assert WatchedAt(k, states, actions, t, q, j);
    BusyGoesOn(k, n, states, actions, t, Free(t, s, b), m, j);
    FreeStep(k, states[j], actions[j], t, s, b, len, es, empty);
  }

  lemma FreeFirst(k: Config, n: nat, states: seq<State>, actions: seq<Action>, t: Tid, s: Idx, b: Block, q: seq<Event>,
                  m: nat)
    requires ValidConfig(k) && IsRun(k, n, states, actions) && NoStalePop(states, actions)
    requires Watched(k, states, actions, t, q) && m < |actions| && actions[m] == Free(t, s, b)
    ensures q[m] == Quiet && t < |states[m].threads|
    ensures FreeAt(k, states[m + 1], t, s, b, states[m].threads[t].unsized.len, Nothing, false)
  {
    assert WatchedAt(k, states, actions, t, q, m);
    assert Leads(k, states[m], actions[m], states[m + 1]);
  }

  /**
  From its call on, a free of block `b` of slab `s` has had no event or the release of that block. By the time the
  thread is idle again it has had exactly one, and its unsized stack is as long as before, unless the slab had become
  empty: then it has one more, less a batch if that was one too many.
  */
  lemma {:induction false} FreeServes(k: Config, n: nat, states: seq<State>, actions: seq<Action>, t: Tid, s: Idx,
                                      b: Block, q: seq<Event>, m: nat, i: nat)
    requires ValidConfig(k) && IsRun(k, n, states, actions) && NoStalePop(states, actions)
    requires Watched(k, states, actions, t, q) && Calls(states, actions, t, Free(t, s, b), m, i)
    ensures t < |states[m].threads|
    ensures FreeAt(k, states[i], t, s, b, states[m].threads[t].unsized.len, Events(q, m, i),
                   Emptied(k, states, q, m, i))
    decreases i
  {
    if i == m + 1 {
      FreeFirst(k, n, states, actions, t, s, b, q, m);
      assert Events(q, m, m) == Nothing && !Emptied(k, states, q, m, m);
    } else {
      CallsBefore(states, actions, t, Free(t, s, b), m, i);
      FreeServes(k, n, states, actions, t, s, b, q, m, i - 1);
      FreeNext(k, n, states, actions, t, s, b, q, m, i - 1, states[m].threads[t].unsized.len, Events(q, m, i - 1),
               Emptied(k, states, q, m, i - 1));
    }
  }

  /** What a thread keeps never grows beyond the cache by freeing. */
  lemma FreeKeepsCache(k: Config, n: nat, states: seq<State>, actions: seq<Action>, t: Tid, s: Idx, b: Block,
                       m: nat, i: nat)
    requires ValidConfig(k) && IsRun(k, n, states, actions) && NoStalePop(states, actions)
    requires Calls(states, actions, t, Free(t, s, b), m, i) && t < |states[i].threads| && states[i].threads[t].pc.Idle?
    ensures t < |states[m].threads|
    ensures var len, now := states[m].threads[t].unsized.len, states[i].threads[t].unsized.len;
            now <= len || now <= k.cacheSlabs
  {
    var q := Watch(k, n, states, actions, t);
    FreeServes(k, n, states, actions, t, s, b, q, m, i);
  }

  // Which way a block goes back

  /** A step of thread `u` gives slabs to nobody but itself. */
  ghost predicate OwnersBy(st: State, r: Option<State>, u: Tid) {
    r.Some? ==>
      && |st.slabs| <= |r.value.slabs|
      && forall s :: 0 <= s < |st.slabs| ==>
           r.value.slabs[s].owner == st.slabs[s].owner || r.value.slabs[s].owner in {None, Some(u)}
  }

  lemma PopOwners(st: State, t: Tid)
    requires t < |st.threads|
    ensures OwnersBy(st, StepPop(st, t), t)
  {}

  lemma AdoptOwners(k: Config, st: State, t: Tid)
    requires t < |st.threads|
    ensures OwnersBy(st, StepAdopt(k, st, t), t)
  {}

  lemma ClaimOwners(st: State, t: Tid)
    requires t < |st.threads|
    ensures OwnersBy(st, StepClaim(st, t), t)
  {}

  lemma BumpOwners(k: Config, st: State, t: Tid)
    requires t < |st.threads|
    ensures OwnersBy(st, StepBump(k, st, t), t)
  {}

  lemma ServeOwners(k: Config, st: State, t: Tid)
    requires Shaped(k, st) && t < |st.threads|
    ensures OwnersBy(st, StepServe(k, st, t), t)
  {}

  lemma LetGoOwners(k: Config, st: State, t: Tid)
    requires Shaped(k, st) && t < |st.threads|
    ensures OwnersBy(st, StepLetGo(k, st, t), t)
  {}

  lemma ReturnOwners(k: Config, st: State, t: Tid)
    requires Shaped(k, st) && t < |st.threads|
    ensures OwnersBy(st, StepReturn(k, st, t), t)
  {}

  lemma RemoteOwners(st: State, t: Tid)
    requires t < |st.threads|
    ensures OwnersBy(st, StepRemote(st, t), t)
  {}

  lemma PushOwners(k: Config, st: State, t: Tid)
    requires Shaped(k, st) && t < |st.threads|
    ensures OwnersBy(st, StepPush(k, st, t), t)
  {}

  lemma ThreadOwners(k: Config, st: State, t: Tid)
    requires Shaped(k, st) && t < |st.threads|
    ensures OwnersBy(st, StepThread(k, st, t), t)
  {
    var pc := st.threads[t].pc;
    if IsPopping(pc) { PopOwners(st, t); }
    else if IsAdopting(pc) { AdoptOwners(k, st, t); }
    else if IsClaiming(pc) { ClaimOwners(st, t); }
    else if IsBumping(pc) { BumpOwners(k, st, t); }
    else if IsServing(pc) { ServeOwners(k, st, t); }
    else if IsLettingGo(pc) { LetGoOwners(k, st, t); }
    else if IsReturning(pc) { ReturnOwners(k, st, t); }
    else if IsCountingOff(pc) { RemoteOwners(st, t); }
    else if !pc.Idle? { PushOwners(k, st, t); }
  }

  /** A thread that counts a block off does not own the slab. */
  ghost predicate CountsOthers(st: State, t: Tid)
    requires t < |st.threads|
  {
    var pc := st.threads[t].pc;
    (pc.RemoteLoad? || pc.RemoteCas?) ==> pc.s < |st.slabs| && st.slabs[pc.s].owner != Some(t)
  }

  ghost predicate CountsGo(r: Option<State>, t: Tid) {
    r.Some? ==> t < |r.value.threads| && CountsOthers(r.value, t)
  }

  /** Only reading the owner leads there. */
  lemma ReturnCounts(k: Config, st: State, t: Tid)
    requires Inv(k, st) && t < |st.threads| && IsReturning(st.threads[t].pc)
    ensures CountsGo(StepReturn(k, st, t), t)
  {}

  lemma RemoteCounts(st: State, t: Tid)
    requires t < |st.threads| && CountsOthers(st, t)
    ensures CountsGo(StepRemote(st, t), t)
  {}

  lemma ClaimCounts(st: State, t: Tid)
    requires t < |st.threads|
    ensures CountsGo(StepClaim(st, t), t)
  {}

  lemma PushCounts(k: Config, st: State, t: Tid)
    requires Shaped(k, st) && t < |st.threads|
    ensures CountsGo(StepPush(k, st, t), t)
  {}

  lemma CountsStart(k: Config, st: State, t: Tid, s: Idx, b: Block, len: nat, es: Trail, empty: bool)
    requires Inv(k, st) && FreeAt(k, st, t, s, b, len, es, empty) && !st.threads[t].pc.Idle? && CountsOthers(st, t)
    ensures CountsGo(StepThread(k, st, t), t)
  {
    var pc := st.threads[t].pc;
    if IsReturning(pc) { ReturnCounts(k, st, t); }
    else if IsCountingOff(pc) { RemoteCounts(st, t); }
    else if IsClaiming(pc) { ClaimCounts(st, t); }
    else { PushCounts(k, st, t); }
  }

  lemma CountsNext(k: Config, n: nat, states: seq<State>, actions: seq<Action>, t: Tid, s: Idx, b: Block, m: nat,
                   j: nat)
    requires ValidConfig(k) && IsRun(k, n, states, actions) && NoStalePop(states, actions)
    requires Calls(states, actions, t, Free(t, s, b), m, j + 1) && m < j < |actions|
    requires t < |states[j].threads| && CountsOthers(states[j], t)
    ensures t < |states[j + 1].threads| && CountsOthers(states[j + 1], t)
  {
    RunsKeep(k, n, states, actions, j);
    BusyGoesOn(k, n, states, actions, t, Free(t, s, b), m, j);
    var q := Watch(k, n, states, actions, t);
    FreeServes(k, n, states, actions, t, s, b, q, m, j);
    if actions[j].t == t {
      CountsStart(k, states[j], t, s, b, states[m].threads[t].unsized.len, Events(q, m, j),
                  Emptied(k, states, q, m, j));
    } else {
      OtherLeaves(k, states[j], actions[j], t);
      if actions[j].Continue? { ThreadOwners(k, states[j], actions[j].t); }
    }
  }

  lemma {:induction false} CountsAlong(k: Config, n: nat, states: seq<State>, actions: seq<Action>, t: Tid, s: Idx,
                                       b: Block, m: nat, i: nat)
    requires ValidConfig(k) && IsRun(k, n, states, actions) && NoStalePop(states, actions)
    requires Calls(states, actions, t, Free(t, s, b), m, i)
    ensures t < |states[i].threads| && CountsOthers(states[i], t)
    decreases i
  {
    if i == m + 1 {
      assert Leads(k, states[m], actions[m], states[m + 1]);
    } else {
      CallsBefore(states, actions, t, Free(t, s, b), m, i);
      CountsAlong(k, n, states, actions, t, s, b, m, i - 1);
      CountsNext(k, n, states, actions, t, s, b, m, i - 1);
    }
  }

  /**
  The step that releases the block: if the thread owns the slab, the block is free in the bitset again and the counter
  stays; if not, the counter goes down by one and the bitset stays.
  */
  lemma ReleasesWhere(k: Config, n: nat, states: seq<State>, actions: seq<Action>, t: Tid, s: Idx, b: Block,
                      m: nat, j: nat)
    requires ValidConfig(k) && IsRun(k, n, states, actions) && NoStalePop(states, actions)
    requires Calls(states, actions, t, Free(t, s, b), m, j + 1) && m < j < |actions|
    requires Shaped(k, states[j]) && Enabled(k, states[j], actions[j])
    requires actions[j].t == t && EventOf(k, states[j], actions[j]) == Released(s, b)
    ensures s < |states[j].slabs| && s < |states[j + 1].slabs|
    ensures var slab, slab' := states[j].slabs[s], states[j + 1].slabs[s];
            if slab.owner == Some(t) then slab'.free == slab.free + {b} && slab'.remote == slab.remote
            else slab'.free == slab.free && slab'.remote.inner == slab.remote.inner - 1
  {
    CallsBefore(states, actions, t, Free(t, s, b), m, j + 1);
    CountsAlong(k, n, states, actions, t, s, b, m, j);
    RunsKeep(k, n, states, actions, j);
    BusyGoesOn(k, n, states, actions, t, Free(t, s, b), m, j);
    Self(k, states[j], t);
  }
}
