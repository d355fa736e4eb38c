/** The heap as an allocator: which blocks are live, where they lie, and how each step changes that. */
module HeapLive {
  import opened Options
  import opened Chains
  import opened Heap
  import opened HeapInvariant
  import opened HeapSteps
  import opened HeapRuns
  import opened Sizes

  /** The live blocks, as pairs of slab and block. */
  ghost function Live(st: State): set<(Idx, Block)> {
    set s, b | 0 <= s < |st.slabs| && b in st.slabs[s].blocks :: (s, b)
  }

  /** The addresses of block `b` of slab `s`: from `Lo` up to, and not including, `Hi`. */
  ghost function Lo(br: Bracket, st: State, s: Idx, b: Block): nat
    requires s < |st.slabs| && st.slabs[s].cls < |br.sizes|
  {
    FromBlock(br, st.slabs[s].cls, s, b)
  }

  ghost function Hi(br: Bracket, st: State, s: Idx, b: Block): nat
    requires s < |st.slabs| && st.slabs[s].cls < |br.sizes|
  {
    Lo(br, st, s, b) + br.sizes[st.slabs[s].cls]
  }

  /** The bracket whose counts the heap is configured with. */
  ghost predicate Serves(k: Config, br: Bracket) {
    Fits(br) && br.counts == k.counts
  }

  lemma LiveInClass(k: Config, br: Bracket, st: State, s: Idx, b: Block)
    requires Inv(k, st) && Serves(k, br) && (s, b) in Live(st)
    ensures s < |st.slabs| && st.slabs[s].cls < |br.sizes| && b < br.counts[st.slabs[s].cls]
  {
    LiveIsCounted(k, st, s, b);
  }

  /** Every address of a live block lies in its slab and leads back to the slab and to the block. */
  lemma LiveInside(k: Config, br: Bracket, st: State, s: Idx, b: Block, byte: nat)
    requires Inv(k, st) && Serves(k, br) && (s, b) in Live(st)
    ensures s < |st.slabs| && st.slabs[s].cls < |br.sizes|
    ensures (s + 1) * br.slab <= Lo(br, st, s, b) && Hi(br, st, s, b) <= (s + 2) * br.slab
    ensures Lo(br, st, s, b) <= byte < Hi(br, st, s, b) ==>
              br.slab <= byte && IntoIndex(br, byte) == s && IntoBlock(br, st.slabs[s].cls, byte) == b
  {
    LiveInClass(k, br, st, s, b);
    var c := st.slabs[s].cls;
    BlockInSlab(br, c, b);
    assert (s + 2) * br.slab == (s + 1) * br.slab + br.slab;
    if Lo(br, st, s, b) <= byte < Hi(br, st, s, b) {
      BlockRoundTrip(br, c, s, b, byte - Lo(br, st, s, b));
    }
  }

  /** No two live blocks share an address, whatever their slabs and classes. */
  lemma LiveApart(k: Config, br: Bracket, st: State, s: Idx, b: Block, s': Idx, b': Block)
    requires Inv(k, st) && Serves(k, br) && (s, b) in Live(st) && (s', b') in Live(st) && (s, b) != (s', b')
    ensures s < |st.slabs| && s' < |st.slabs| && st.slabs[s].cls < |br.sizes| && st.slabs[s'].cls < |br.sizes|
    ensures Hi(br, st, s, b) <= Lo(br, st, s', b') || Hi(br, st, s', b') <= Lo(br, st, s, b)
  {
    LiveInClass(k, br, st, s, b);
    LiveInClass(k, br, st, s', b');
    var c, c' := st.slabs[s].cls, st.slabs[s'].cls;
    if s < s' || (s == s' && b < b') {
      BlocksApart(br, c, s, b, c', s', b');
    } else {
      BlocksApart(br, c', s', b', c, s, b);
    }
  }

  /** Both brackets of the allocator are such brackets. */
  lemma BracketServes(k: Config, br: Bracket)
    requires (br == Small() || br == Large()) && k.counts == br.counts
    ensures Serves(k, br)
  {
    if br == Small() { SmallFits(); } else { LargeFits(); }
  }

  /** So along any run of the small or of the large heap without an outdated pop, live blocks share no address. */
  lemma RunsApart(k: Config, br: Bracket, n: nat, states: seq<State>, actions: seq<Action>, i: nat,
                  s: Idx, b: Block, s': Idx, b': Block)
    requires ValidConfig(k) && (br == Small() || br == Large()) && k.counts == br.counts
    requires IsRun(k, n, states, actions) && NoStalePop(states, actions) && i < |states|
    requires (s, b) in Live(states[i]) && (s', b') in Live(states[i]) && (s, b) != (s', b')
    ensures var st := states[i];
            && s < |st.slabs| && s' < |st.slabs| && st.slabs[s].cls < |br.sizes| && st.slabs[s'].cls < |br.sizes|
            && (Hi(br, st, s, b) <= Lo(br, st, s', b') || Hi(br, st, s', b') <= Lo(br, st, s, b))
            && (s + 1) * br.slab <= Lo(br, st, s, b) && Hi(br, st, s, b) <= (s + 2) * br.slab
  {
    RunsKeep(k, n, states, actions, i);
    BracketServes(k, br);
    LiveInside(k, br, states[i], s, b, 0);
    LiveApart(k, br, states[i], s, b, s', b');
  }

  // How steps change the live blocks

  datatype Event = Quiet | Allocated(s: Idx, b: Block) | Released(s: Idx, b: Block)

  /** What an action does to the application's memory. */
  function EventOf(k: Config, st: State, a: Action): Event
    requires Shaped(k, st) && Enabled(k, st, a)
  {
    if !a.Continue? then Quiet else
    match st.threads[a.t].pc
    case Take(c) =>
      if c < |k.counts| && st.threads[a.t].sized[c].head.Some?
         && st.threads[a.t].sized[c].head.value < |st.slabs|
         && st.slabs[st.threads[a.t].sized[c].head.value].free != {} then
        Allocated(st.threads[a.t].sized[c].head.value, Least(st.slabs[st.threads[a.t].sized[c].head.value].free))
      else Quiet
    case FreeLocal(s, b) => Released(s, b)
    case RemoteCas(s, b, seen) => if s < |st.slabs| && st.slabs[s].remote == seen then Released(s, b) else Quiet
    case _ => Quiet
  }

  /** The specification: a set of blocks that an allocation extends by a new one and a free shrinks by an old one. */
  ghost predicate AllocatorStep(live: set<(Idx, Block)>, e: Event, live': set<(Idx, Block)>) {
    match e
    case Quiet => live' == live
    case Allocated(s, b) => (s, b) !in live && live' == live + {(s, b)}
    case Released(s, b) => (s, b) in live && live' == live - {(s, b)}
  }

  /** The live blocks stay, and live blocks keep their class, hence their addresses. */
  ghost predicate SameBlocks(st: State, st': State) {
    && |st.slabs| <= |st'.slabs|
    && (forall s :: 0 <= s < |st.slabs| ==> st'.slabs[s].blocks.Keys == st.slabs[s].blocks.Keys)
    && (forall s :: 0 <= s < |st.slabs| && st.slabs[s].blocks != map[] ==> st'.slabs[s].cls == st.slabs[s].cls)
    && (forall s :: |st.slabs| <= s < |st'.slabs| ==> st'.slabs[s].blocks == map[])
  }

  lemma SameLive(st: State, st': State)
    requires SameBlocks(st, st')
    ensures Live(st') == Live(st)
  {
    forall s, b ensures (s, b) in Live(st') <==> (s, b) in Live(st) {
      if 0 <= s < |st.slabs| { assert b in st'.slabs[s].blocks.Keys <==> b in st.slabs[s].blocks.Keys; }
    }
  }

  ghost predicate Quietly(st: State, r: Option<State>) {
    r.Some? ==> SameBlocks(st, r.value)
  }

  lemma PopQuiet(st: State, t: Tid)
    requires t < |st.threads|
    ensures Quietly(st, StepPop(st, t))
  {}

  lemma AdoptQuiet(k: Config, st: State, t: Tid)
    requires t < |st.threads|
    ensures Quietly(st, StepAdopt(k, st, t))
  {}

  lemma ClaimQuiet(st: State, t: Tid)
    requires t < |st.threads|
    ensures Quietly(st, StepClaim(st, t))
  {}

  lemma BumpQuiet(k: Config, st: State, t: Tid)
    requires t < |st.threads|
    ensures Quietly(st, StepBump(k, st, t))
  {}

  lemma PushQuiet(k: Config, st: State, t: Tid)
    requires Shaped(k, st) && t < |st.threads|
    ensures Quietly(st, StepPush(k, st, t))
  {}

  lemma HandQuiet(k: Config, st: State, t: Tid)
    requires Inv(k, st) && t < |st.threads|
    requires IsLettingGo(st.threads[t].pc)
    ensures Quietly(st, StepLetGo(k, st, t))
  {
    Self(k, st, t);
    var s, b := st.threads[t].pc.s, st.threads[t].pc.b;
    assert st.slabs[s].blocks[b := App].Keys == st.slabs[s].blocks.Keys;
  }

  lemma RefillQuiet(k: Config, st: State, t: Tid, c: Class)
    requires Inv(k, st) && t < |st.threads| && st.threads[t].pc == Refill(c)
    ensures Quietly(st, StepServe(k, st, t))
  {
    Self(k, st, t);
    var s := st.threads[t].uchain[0];
    UnsizedSlabs(k, st, t, 1);
    assert st.threads[t].uchain[..1][0] == s;
  }

  lemma ReturnQuiet(k: Config, st: State, t: Tid)
    requires Shaped(k, st) && t < |st.threads| && !st.threads[t].pc.FreeLocal?
    ensures Quietly(st, StepReturn(k, st, t))
  {}

  lemma RemoteQuiet(st: State, t: Tid)
    requires t < |st.threads|
    requires var pc := st.threads[t].pc; pc.RemoteCas? && pc.s < |st.slabs| ==> st.slabs[pc.s].remote != pc.seenRemote
    ensures Quietly(st, StepRemote(st, t))
  {}

  /** The step a block is handed out: it was free, so it was not live. */
  lemma TakeAllocates(k: Config, st: State, t: Tid, c: Class)
    requires Inv(k, st) && t < |st.threads| && st.threads[t].pc == Take(c)
    ensures EventOf(k, st, Continue(t)).Allocated?
    ensures var e := EventOf(k, st, Continue(t));
            && e.s < |st.slabs| && e.b !in st.slabs[e.s].blocks
            && StepServe(k, st, t).Some?
            && ChangesBlocks(st, StepServe(k, st, t).value, e.s, st.slabs[e.s].blocks.Keys + {e.b})
  {
    Self(k, st, t);
    SizedHead(k, st, t, c);
    var s := st.threads[t].schain[c][0];
    assert SlabOK(k, st.threads, st.global, st.slabs[s], s);
  }

  /** The set of live blocks changes for slab `s` alone, whose class stays. */
  ghost predicate ChangesBlocks(st: State, st': State, s: Idx, keys: set<Block>) {
    && s < |st.slabs| == |st'.slabs|
    && st'.slabs[s].blocks.Keys == keys && st'.slabs[s].cls == st.slabs[s].cls
    && forall x :: 0 <= x < |st.slabs| && x != s ==> st'.slabs[x] == st.slabs[x]
  }

  lemma LiveGrows(st: State, st': State, s: Idx, b: Block)
    requires s < |st.slabs| && ChangesBlocks(st, st', s, st.slabs[s].blocks.Keys + {b})
    ensures Live(st') == Live(st) + {(s, b)}
  {
    forall x, y ensures (x, y) in Live(st') <==> (x, y) in Live(st) || (x, y) == (s, b) {
      if x == s { assert y in st'.slabs[s].blocks.Keys <==> y in st.slabs[s].blocks.Keys + {b}; }
    }
  }

  lemma LiveShrinks(st: State, st': State, s: Idx, b: Block)
    requires s < |st.slabs| && ChangesBlocks(st, st', s, st.slabs[s].blocks.Keys - {b})
    ensures Live(st') == Live(st) - {(s, b)}
  {
    forall x, y ensures (x, y) in Live(st') <==> (x, y) in Live(st) && (x, y) != (s, b) {
      if x == s { assert y in st'.slabs[s].blocks.Keys <==> y in st.slabs[s].blocks.Keys - {b}; }
    }
  }

  lemma FreeReleases(k: Config, st: State, t: Tid)
    requires Shaped(k, st) && t < |st.threads| && StepReturn(k, st, t).Some? && st.threads[t].pc.FreeLocal?
    ensures var pc := st.threads[t].pc;
            && pc.s < |st.slabs|
            && ChangesBlocks(st, StepReturn(k, st, t).value, pc.s, st.slabs[pc.s].blocks.Keys - {pc.b})
  {
    var pc := st.threads[t].pc;
    assert (st.slabs[pc.s].blocks - {pc.b}).Keys == st.slabs[pc.s].blocks.Keys - {pc.b};
  }

  lemma RemoteReleases(st: State, t: Tid)
    requires t < |st.threads| && StepRemote(st, t).Some?
    requires var pc := st.threads[t].pc; pc.RemoteCas? && pc.s < |st.slabs| && st.slabs[pc.s].remote == pc.seenRemote
    ensures var pc := st.threads[t].pc;
            ChangesBlocks(st, StepRemote(st, t).value, pc.s, st.slabs[pc.s].blocks.Keys - {pc.b})
  {
    var pc := st.threads[t].pc;
    assert (st.slabs[pc.s].blocks - {pc.b}).Keys == st.slabs[pc.s].blocks.Keys - {pc.b};
  }

  lemma ThreadQuiet(k: Config, st: State, t: Tid)
    requires Inv(k, st) && t < |st.threads| && EventOf(k, st, Continue(t)).Quiet?
    ensures Quietly(st, StepThread(k, st, t))
  {
    var pc := st.threads[t].pc;
    if IsPopping(pc) { PopQuiet(st, t); }
    else if IsBumping(pc) { BumpQuiet(k, st, t); }
    else if IsAdopting(pc) { AdoptQuiet(k, st, t); }
    else if IsClaiming(pc) { ClaimQuiet(st, t); }
    else if IsReturning(pc) { ReturnQuiet(k, st, t); }
    else if IsCountingOff(pc) { RemoteQuiet(st, t); }
    else if pc.Refill? { RefillQuiet(k, st, t, pc.cls); }
    else if pc.Take? { TakeAllocates(k, st, t, pc.cls); }
    else if IsLettingGo(pc) { HandQuiet(k, st, t); }
    else if !pc.Idle? { PushQuiet(k, st, t); }
  }

  /** One step of a thread, against the specification. */
  lemma ThreadRefines(k: Config, st: State, t: Tid)
    requires Inv(k, st) && t < |st.threads|
    ensures StepThread(k, st, t).Some?
    ensures Refines(st, EventOf(k, st, Continue(t)), StepThread(k, st, t).value, t)
  {
    ThreadKeeps(k, st, t);
    var st' := StepThread(k, st, t).value;
    match EventOf(k, st, Continue(t))
    case Quiet =>
      ThreadQuiet(k, st, t);
      SameLive(st, st');
    case Allocated(s, b) =>
      TakeAllocates(k, st, t, st.threads[t].pc.cls);
      LiveGrows(st, st', s, b);
    case Released(s, b) =>
      Self(k, st, t);
      if st.threads[t].pc.FreeLocal? { FreeReleases(k, st, t); } else { RemoteReleases(st, t); }
      LiveShrinks(st, st', s, b);
  }

  /**
  The step is one of the allocator's, live blocks keep their addresses, and only a block given to a free is released.
  */
  ghost predicate Refines(st: State, e: Event, st': State, t: Tid) {
    && AllocatorStep(Live(st), e, Live(st'))
    && (forall s, b :: (s, b) in Live(st) && (s, b) in Live(st') ==> st'.slabs[s].cls == st.slabs[s].cls)
    && (e.Released? ==> Holds(st.slabs, e.s, e.b, t))
  }

  /**
  The heap refines an allocator: every step of every thread hands out one block that was not live, takes back
  one that was and that its holder gave to a free, or leaves the live blocks alone.
  */
  lemma HeapRefines(k: Config, st: State, a: Action)
    requires Inv(k, st) && Enabled(k, st, a)
    ensures Step(k, st, a).Some? && Refines(st, EventOf(k, st, a), Step(k, st, a).value, a.t)
  {
    StepKeeps(k, st, a);
    var st' := Step(k, st, a).value;
    match a
    case Alloc(t, c) => SameLive(st, st');
    case Free(t, s, b) =>
      assert st'.slabs[s].blocks.Keys == st.slabs[s].blocks.Keys;
      SameLive(st, st');
    case Continue(t) => ThreadRefines(k, st, t);
  }
}
