/** What every step of the heap keeps, stated as an inductive invariant. */
module HeapInvariant {
  import opened Options
  import opened Chains
  import opened Heap

  // What a thread knows

  ghost predicate UnsizedOK(next: Nexts, slabs: seq<Slab>, th: Thread, t: Tid)
    requires |next| == |slabs|
  {
    && IsStack(next, th.unsized.head, th.uchain)
    && th.unsized.len == |th.uchain|
    && forall i :: 0 <= i < |th.uchain| ==> slabs[th.uchain[i]].place == Unsized(t)
  }

  /** The length of a sized stack is only an upper bound: taking a slab out of the middle leaves it unchanged. */
  ghost predicate SizedOK(next: Nexts, slabs: seq<Slab>, stack: Stack, chain: seq<Idx>, t: Tid, c: Class)
    requires |next| == |slabs|
  {
    && IsStack(next, stack.head, chain)
    && stack.len >= |chain|
    && forall i :: 0 <= i < |chain| ==> slabs[chain[i]].place == Sized(t, c)
  }

  ghost predicate StacksOK(k: Config, next: Nexts, slabs: seq<Slab>, th: Thread, t: Tid)
    requires |next| == |slabs|
  {
    && |th.sized| == |th.schain| == |k.counts|
    && UnsizedOK(next, slabs, th, t)
    && forall c {:trigger SizedOK(next, slabs, th.sized[c], th.schain[c], t, c)} :: 0 <= c < |th.sized| ==>
         SizedOK(next, slabs, th.sized[c], th.schain[c], t, c)
  }

  /** A head read earlier named a slab that exists. */
  ghost predicate Known(slabs: seq<Slab>, seen: Head) {
    seen.inner.Some? ==> seen.inner.value < |slabs|
  }

  ghost predicate Wants(k: Config, th: Thread, c: Class) {
    c < |k.counts| && k.counts[c] > 0 && th.uchain == []
  }

  ghost predicate Carries(slabs: seq<Slab>, s: Idx, t: Tid) {
    s < |slabs| && slabs[s].place == Flight(t)
  }

  ghost predicate Holds(slabs: seq<Slab>, s: Idx, b: Block, t: Tid) {
    s < |slabs| && b in slabs[s].blocks && slabs[s].blocks[b] == By(t)
  }

  /** How far `link` is with slab `j` of a bumped range: owners are done up to `owned`, `next` fields up to `linked`. */
  ghost predicate BumpedAt(k: Config, next: Nexts, slabs: seq<Slab>, t: Tid, start: Idx, owned: nat, linked: nat,
                           j: Idx)
    requires j < |slabs| == |next|
  {
    && slabs[j].place == Flight(t)
    && slabs[j].owner == (if j < start + owned then Some(t) else None)
    && (j < start + linked ==> next[j] == if j + 1 < start + k.bumpBatch then Some(j + 1) else None)
  }

  ghost predicate BumpOK(k: Config, next: Nexts, slabs: seq<Slab>, t: Tid, start: Idx, owned: nat, linked: nat) {
    && start + k.bumpBatch <= |slabs| == |next|
    && forall j {:trigger BumpedAt(k, next, slabs, t, start, owned, linked, j)} :: start <= j < start + k.bumpBatch ==>
         BumpedAt(k, next, slabs, t, start, owned, linked, j)
  }

  /** A batch on its way to the global stack: linked up to its last slab, whose link `PushLink` is about to write. */
  ghost predicate BatchOK(k: Config, next: Nexts, slabs: seq<Slab>, t: Tid, batch: seq<Idx>)
    requires |next| == |slabs|
  {
    && batch != [] && NoDup(batch)
    && (forall i :: 0 <= i < |batch| ==>
          Carries(slabs, batch[i], t) && slabs[batch[i]].owner == if k.validate then None else Some(t))
    && Linked(next, batch, next[batch[|batch| - 1]])
  }

  ghost predicate PcOK(k: Config, next: Nexts, slabs: seq<Slab>, th: Thread, t: Tid)
    requires |next| == |slabs|
  {
    match th.pc
    case Idle => true
    case GlobalEmpty(c) => Wants(k, th, c)
    case GlobalLoad(c) => Wants(k, th, c)
    case GlobalNext(c, seen) => Wants(k, th, c) && seen.inner.Some? && Known(slabs, seen)
    case GlobalCas(c, seen, n) =>
      && Wants(k, th, c) && seen.inner.Some? && Known(slabs, seen)
      && th.log == Some(GlobalToUnsized(seen.inner.value, th.version)) && !th.took
    case GlobalOwn(c, s) =>
      Wants(k, th, c) && Carries(slabs, s, t) && (k.validate ==> slabs[s].owner == None) && PopLogged(th, s)
    case GlobalLink(c, s) =>
      Wants(k, th, c) && Carries(slabs, s, t) && slabs[s].owner == Some(t) && PopLogged(th, s)
    case GlobalSet(c, s) =>
      && Wants(k, th, c) && Carries(slabs, s, t) && slabs[s].owner == Some(t) && next[s] == th.unsized.head
      && PopLogged(th, s)
    case BumpLoad(c) => Wants(k, th, c)
    case BumpCas(c, seen) => Wants(k, th, c) && th.log == Some(BumpToUnsized(seen.inner, th.version)) && !th.took
    case BumpOwn(c, start, i) =>
      Wants(k, th, c) && i < k.bumpBatch && BumpOK(k, next, slabs, t, start, i, i) && BumpLogged(th, start)
    case BumpNext(c, start, i) =>
      Wants(k, th, c) && i < k.bumpBatch && BumpOK(k, next, slabs, t, start, i + 1, i) && BumpLogged(th, start)
    case BumpSet(c, start) =>
      Wants(k, th, c) && BumpOK(k, next, slabs, t, start, k.bumpBatch, k.bumpBatch) && BumpLogged(th, start)
    case Refill(c) => c < |k.counts| && k.counts[c] > 0 && th.uchain != []
    case Take(c) => c < |k.counts| && c < |th.schain| && th.schain[c] != []
    case Detach(c, s, b) =>
      && c < |k.counts| && Holds(slabs, s, b, t)
      && slabs[s].place == Detached && slabs[s].owner == Some(t) && slabs[s].cls == c
    case Disown(s, b) => Holds(slabs, s, b, t) && slabs[s].place == Detached && slabs[s].owner == Some(t)
    case FreeOwner(s, b) => Holds(slabs, s, b, t)
    case FreeLocal(s, b) => Holds(slabs, s, b, t) && slabs[s].owner == Some(t)
    case Unsize(c, s) =>
      && c < |k.counts| && s < |slabs| && slabs[s].place == Sized(t, c) && |slabs[s].free| == k.counts[c]
    case Spill => true
    case PushLoad(batch) => BatchOK(k, next, slabs, t, batch) && PushSaved(next, th, batch)
    case PushLink(batch, seen) =>
      BatchOK(k, next, slabs, t, batch) && Known(slabs, seen) && (PushSaved(next, th, batch) || PushLogged(th, batch))
    case PushCas(batch, seen) =>
      && BatchOK(k, next, slabs, t, batch) && Known(slabs, seen) && next[batch[|batch| - 1]] == seen.inner
      && PushLogged(th, batch)
    case RemoteLoad(s, b) => Holds(slabs, s, b, t)
    case RemoteCas(s, b, seen) =>
      && Holds(slabs, s, b, t) && seen.inner > 0
      && th.log == Some(Remote(s, th.version, seen.inner == 1)) && !th.took
    case RemoteDone(s) => s < |slabs|
    case ClaimSteal(s) => Carries(slabs, s, t) && ClaimLogged(th, s)
    case ClaimLink(s) => Carries(slabs, s, t) && slabs[s].owner == Some(t) && ClaimLogged(th, s)
    case ClaimSet(s) =>
      Carries(slabs, s, t) && slabs[s].owner == Some(t) && next[s] == th.unsized.head && ClaimLogged(th, s)
  }

  ghost predicate PopLogged(th: Thread, s: Idx) {
    th.log == Some(GlobalToUnsized(s, th.version)) && th.took
  }

  ghost predicate BumpLogged(th: Thread, start: Idx) {
    th.log == Some(BumpToUnsized(start, th.version)) && th.took
  }

  /** The log of a claim says that the decrement was the last. */
  ghost predicate ClaimLogged(th: Thread, s: Idx) {
    th.log == Some(Remote(s, th.version, true)) && th.took
  }

  /** A batch just cut off: its last slab still leads to the rest of the unsized stack. */
  ghost predicate PushSaved(next: Nexts, th: Thread, batch: seq<Idx>) {
    && th.log.Some? && th.log.value.UnsizedToGlobalSave? && batch != [] && th.log.value.index == batch[0]
    && batch[|batch| - 1] < |next| && next[batch[|batch| - 1]] == th.unsized.head
  }

  ghost predicate PushLogged(th: Thread, batch: seq<Idx>) {
    batch != [] && th.log == Some(UnsizedToGlobal(batch[0], th.version)) && !th.took
  }

  ghost predicate ThreadOK(k: Config, next: Nexts, slabs: seq<Slab>, th: Thread, t: Tid) {
    |next| == |slabs| && StacksOK(k, next, slabs, th, t) && PcOK(k, next, slabs, th, t)
  }

  // What a slab's place says about it

  /** Free and live blocks are disjoint blocks of the slab's class, and the counter counts them all. */
  ghost predicate Counted(k: Config, slab: Slab) {
    && slab.cls < |k.counts|
    && slab.free !! slab.blocks.Keys
    && (forall b :: b in slab.free || b in slab.blocks ==> b < k.counts[slab.cls])
    && slab.remote.inner == |slab.free| + |slab.blocks|
  }

  /** The slabs a thread is carrying from one place to another. */
  ghost predicate InFlight(k: Config, pc: Pc, s: Idx) {
    match pc
    case GlobalOwn(_, x) => s == x
    case GlobalLink(_, x) => s == x
    case GlobalSet(_, x) => s == x
    case BumpOwn(_, start, _) => start <= s < start + k.bumpBatch
    case BumpNext(_, start, _) => start <= s < start + k.bumpBatch
    case BumpSet(_, start) => start <= s < start + k.bumpBatch
    case PushLoad(batch) => s in batch
    case PushLink(batch, _) => s in batch
    case PushCas(batch, _) => s in batch
    case ClaimSteal(x) => s == x
    case ClaimLink(x) => s == x
    case ClaimSet(x) => s == x
    case _ => false
  }

  /** The block whose allocation or free a thread is in the middle of. */
  ghost predicate Handling(pc: Pc, s: Idx, b: Block) {
    match pc
    case Detach(_, x, y) => s == x && b == y
    case Disown(x, y) => s == x && b == y
    case FreeOwner(x, y) => s == x && b == y
    case FreeLocal(x, y) => s == x && b == y
    case RemoteLoad(x, y) => s == x && b == y
    case RemoteCas(x, y, _) => s == x && b == y
    case _ => false
  }

  /** A slab nobody has blocks of: either all of them are free, or the last was counted off. */
  ghost predicate Drained(slab: Slab) {
    slab.blocks == map[] && (slab.free == {} ==> slab.remote.inner == 0)
  }

  ghost predicate PlaceOK(k: Config, threads: seq<Thread>, global: seq<Idx>, slab: Slab, s: Idx) {
    match slab.place
    case Unsized(t) => t < |threads| && s in threads[t].uchain && slab.owner == Some(t) && Drained(slab)
    case Sized(t, c) =>
      && t < |threads| && c < |threads[t].schain| && s in threads[t].schain[c]
      && slab.owner == Some(t) && slab.cls == c && slab.free != {} && Counted(k, slab)
    case Detached => slab.free == {} && slab.blocks != map[] && Counted(k, slab)
    case Global => s in global && Drained(slab) && (k.validate ==> slab.owner == None)
    case Flight(t) => t < |threads| && InFlight(k, threads[t].pc, s) && Drained(slab)
  }

  ghost predicate HoldersOK(threads: seq<Thread>, slab: Slab, s: Idx) {
    forall b :: b in slab.blocks && slab.blocks[b].By? ==>
      slab.blocks[b].t < |threads| && Handling(threads[slab.blocks[b].t].pc, s, b)
  }

  ghost predicate SlabOK(k: Config, threads: seq<Thread>, global: seq<Idx>, slab: Slab, s: Idx) {
    PlaceOK(k, threads, global, slab, s) && HoldersOK(threads, slab, s)
  }

  // The global stack

  ghost predicate GlobalOK(next: Nexts, slabs: seq<Slab>, head: Head, global: seq<Idx>) {
    && |next| == |slabs|
    && IsStack(next, head.inner, global)
    && forall i :: 0 <= i < |global| ==> slabs[global[i]].place == Global
  }

  ghost predicate Inv(k: Config, st: State) {
    && ValidConfig(k)
    && Shaped(k, st)
    && (forall t {:trigger ThreadOK(k, st.next, st.slabs, st.threads[t], t)} :: 0 <= t < |st.threads| ==>
          ThreadOK(k, st.next, st.slabs, st.threads[t], t))
    && (forall s {:trigger SlabOK(k, st.threads, st.global, st.slabs[s], s)} :: 0 <= s < |st.slabs| ==>
          SlabOK(k, st.threads, st.global, st.slabs[s], s))
    && GlobalOK(st.next, st.slabs, st.head, st.global)
  }

  /** Thread `t` is about to pop the head, and the link it read is no longer the link of the slab. */
  predicate Outdated(st: State, t: Tid) {
    && t < |st.threads| && st.threads[t].pc.GlobalCas? && st.head == st.threads[t].pc.seen
    && st.head.inner.Some? && st.head.inner.value < |st.next|
    && st.next[st.head.inner.value] != st.threads[t].pc.next
  }

  // What a thread relies on while others move

  predicate Mine(place: Place, t: Tid) {
    place == Unsized(t) || (place.Sized? && place.t == t) || place == Flight(t)
  }

  /** A step of another thread changes slab `a` into `b` in no way thread `t` can notice. */
  ghost predicate SlabKept(a: Slab, b: Slab, t: Tid) {
    && (Mine(a.place, t) ==> b.place == a.place && b.owner == a.owner && b.cls == a.cls && b.free == a.free)
    && (forall x :: x in a.blocks && a.blocks[x] == By(t) ==>
          && x in b.blocks && b.blocks[x] == By(t)
          && (a.owner == Some(t) ==> b.owner == a.owner && b.place == a.place && b.cls == a.cls && b.free == a.free))
  }

  ghost predicate Kept(next: Nexts, slabs: seq<Slab>, next': Nexts, slabs': seq<Slab>, t: Tid) {
    && |next| == |slabs| <= |slabs'| == |next'|
    && (forall s :: 0 <= s < |slabs| ==> SlabKept(slabs[s], slabs'[s], t))
    && (forall s :: 0 <= s < |slabs| && Mine(slabs[s].place, t) ==> next'[s] == next[s])
  }

  lemma FrameStacks(k: Config, next: Nexts, slabs: seq<Slab>, next': Nexts, slabs': seq<Slab>, th: Thread, t: Tid)
    requires Kept(next, slabs, next', slabs', t) && StacksOK(k, next, slabs, th, t)
    ensures StacksOK(k, next', slabs', th, t)
  {
    StackFrame(next, next', th.unsized.head, th.uchain);
    forall c | 0 <= c < |th.sized|
      ensures SizedOK(next', slabs', th.sized[c], th.schain[c], t, c)
    {
      assert SizedOK(next, slabs, th.sized[c], th.schain[c], t, c);
      StackFrame(next, next', th.sized[c].head, th.schain[c]);
    }
  }

  lemma FrameBatch(k: Config, next: Nexts, slabs: seq<Slab>, next': Nexts, slabs': seq<Slab>, t: Tid, batch: seq<Idx>)
    requires Kept(next, slabs, next', slabs', t) && BatchOK(k, next, slabs, t, batch)
    ensures BatchOK(k, next', slabs', t, batch) && next'[batch[|batch| - 1]] == next[batch[|batch| - 1]]
  {
    assert forall i :: 0 <= i < |batch| ==> Carries(slabs, batch[i], t) && next'[batch[i]] == next[batch[i]];
  }

  lemma FrameBump(k: Config, next: Nexts, slabs: seq<Slab>, next': Nexts, slabs': seq<Slab>, t: Tid,
                  start: Idx, owned: nat, linked: nat)
    requires Kept(next, slabs, next', slabs', t) && BumpOK(k, next, slabs, t, start, owned, linked)
    ensures BumpOK(k, next', slabs', t, start, owned, linked)
  {
    forall j | start <= j < start + k.bumpBatch
      ensures BumpedAt(k, next', slabs', t, start, owned, linked, j)
    {
      assert BumpedAt(k, next, slabs, t, start, owned, linked, j);
      assert SlabKept(slabs[j], slabs'[j], t);
    }
  }

  lemma FrameCarried(next: Nexts, slabs: seq<Slab>, next': Nexts, slabs': seq<Slab>, t: Tid, s: Idx)
    requires Kept(next, slabs, next', slabs', t) && Carries(slabs, s, t)
    ensures Carries(slabs', s, t) && slabs'[s].owner == slabs[s].owner && next'[s] == next[s]
  {
    assert SlabKept(slabs[s], slabs'[s], t);
  }

  lemma FrameHeld(slabs: seq<Slab>, slabs': seq<Slab>, s: Idx, b: Block, t: Tid)
    requires Holds(slabs, s, b, t) && |slabs| <= |slabs'| && SlabKept(slabs[s], slabs'[s], t)
    ensures Holds(slabs', s, b, t)
    ensures slabs[s].owner == Some(t) ==>
              slabs'[s].owner == Some(t) && slabs'[s].place == slabs[s].place && slabs'[s].cls == slabs[s].cls
  {
  }

  ghost predicate Freeing(pc: Pc) {
    pc.Detach? || pc.Disown? || pc.FreeOwner? || pc.FreeLocal? || pc.RemoteLoad? || pc.RemoteCas?
  }

  lemma FramePc(k: Config, next: Nexts, slabs: seq<Slab>, next': Nexts, slabs': seq<Slab>,
                th: Thread, t: Tid)
    requires Kept(next, slabs, next', slabs', t)
    requires PcOK(k, next, slabs, th, t)
    ensures PcOK(k, next', slabs', th, t)
  {
    if IsAdopting(th.pc) || IsClaiming(th.pc) {
      FrameCarried(next, slabs, next', slabs', t, th.pc.s);
    } else if Freeing(th.pc) {
      FrameHeld(slabs, slabs', th.pc.s, th.pc.b, t);
    } else {
      match th.pc {
        case PushLoad(batch) => FrameBatch(k, next, slabs, next', slabs', t, batch);
        case PushLink(batch, _) => FrameBatch(k, next, slabs, next', slabs', t, batch);
        case PushCas(batch, _) => FrameBatch(k, next, slabs, next', slabs', t, batch);
        case BumpOwn(_, start, i) => FrameBump(k, next, slabs, next', slabs', t, start, i, i);
        case BumpNext(_, start, i) => FrameBump(k, next, slabs, next', slabs', t, start, i + 1, i);
        case BumpSet(_, start) => FrameBump(k, next, slabs, next', slabs', t, start, k.bumpBatch, k.bumpBatch);
        case _ =>
      }
    }
  }

  lemma FrameThread(k: Config, next: Nexts, slabs: seq<Slab>, next': Nexts, slabs': seq<Slab>,
                    th: Thread, t: Tid)
    requires ThreadOK(k, next, slabs, th, t)
    requires Kept(next, slabs, next', slabs', t)
    ensures ThreadOK(k, next', slabs', th, t)
  {
    FrameStacks(k, next, slabs, next', slabs', th, t);
    FramePc(k, next, slabs, next', slabs', th, t);
  }
}
