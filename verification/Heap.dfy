/**
The slab heap of one size bracket, shared by any number of threads, as a transition system.

Each step is one access to memory that another thread may write, together with the work a thread does
on memory it alone may touch. A step is a function of the state and the thread that moves, so a run is a
sequence of actions and every interleaving is such a sequence. `None` stands for a panic, a failed
validation or an access out of bounds.

Fields marked "auxiliary" record where a slab is and who holds its blocks. No branch reads them.
*/
module Heap {
  import opened Options
  import opened Chains
  import Cas = DetectableCas

  type Tid = nat
  type Class = nat
  type Block = nat

  /** `counts[c]` is the number of blocks of class `c` in a slab; zero is the class of empty requests. */
  datatype Config = Config(counts: seq<nat>, cacheSlabs: nat, pushBatch: nat, bumpBatch: nat, validate: bool)

  /** What the tuning knobs must satisfy: a batch of zero has no head, a larger one underflows the length. */
  predicate ValidConfig(k: Config) {
    1 <= k.pushBatch <= k.cacheSlabs + 1 && 1 <= k.bumpBatch
  }

  /** A word updated by detectable compare-and-swap: the writer's tag and the value. */
  datatype Cell<+T> = Cell(id: Option<Tid>, version: nat, inner: T)

  type Head = Cell<Option<Idx>>

  datatype Place =
    | Unsized(t: Tid)
    | Sized(t: Tid, c: Class)
    | Detached
    | Global
    | Flight(t: Tid)

  /** Who may free a block that has been handed out: the application, or the operation thread `t` is in. */
  datatype Holder = App | By(t: Tid)

  datatype Slab = Slab(
    owner: Option<Tid>,
    cls: Class,
    free: set<Block>,
    remote: Cell<nat>,
    place: Place,               // auxiliary
    blocks: map<Block, Holder>) // auxiliary: the live blocks

  datatype Stack = Stack(head: Option<Idx>, len: nat)

  datatype Log =
    | UnsizedToSized(next: Option<Idx>, cls: Class)
    | GlobalToUnsized(index: Idx, version: nat)
    | BumpToUnsized(start: nat, version: nat)
    | UnsizedToGlobalSave(index: Idx)
    | UnsizedToGlobal(index: Idx, version: nat)
    | ApplicationToSized(index: Idx, block: Block)
    | Remote(index: Idx, version: nat, last: bool)

  /** Where a thread is in its operation, named after the access it makes next. */
  datatype Pc =
    | Idle
    | GlobalEmpty(cls: Class)
    | GlobalLoad(cls: Class)
    | GlobalNext(cls: Class, seen: Head)
    | GlobalCas(cls: Class, seen: Head, next: Option<Idx>)
    | GlobalOwn(cls: Class, s: Idx)
    | GlobalLink(cls: Class, s: Idx)
    | GlobalSet(cls: Class, s: Idx)
    | BumpLoad(cls: Class)
    | BumpCas(cls: Class, seenBump: Cell<nat>)
    | BumpOwn(cls: Class, start: Idx, i: nat)
    | BumpNext(cls: Class, start: Idx, i: nat)
    | BumpSet(cls: Class, start: Idx)
    | Refill(cls: Class)
    | Take(cls: Class)
    | Detach(cls: Class, s: Idx, b: Block)
    | Disown(s: Idx, b: Block)
    | FreeOwner(s: Idx, b: Block)
    | FreeLocal(s: Idx, b: Block)
    | Unsize(cls: Class, s: Idx)
    | Spill
    | PushLoad(batch: seq<Idx>)
    | PushLink(batch: seq<Idx>, seen: Head)
    | PushCas(batch: seq<Idx>, seen: Head)
    | RemoteLoad(s: Idx, b: Block)
    | RemoteCas(s: Idx, b: Block, seenRemote: Cell<nat>)
    | RemoteDone(s: Idx)
    | ClaimSteal(s: Idx)
    | ClaimLink(s: Idx)
    | ClaimSet(s: Idx)

  datatype Thread = Thread(
    unsized: Stack,
    sized: seq<Stack>,
    entry: nat,            // the thread's entry for itself in the table of sightings
    version: nat,          // of the update in progress, or of the last one
    log: Option<Log>,
    pc: Pc,
    took: bool,            // auxiliary: the compare-and-swap logged last took effect
    uchain: seq<Idx>,      // auxiliary: the slabs on `unsized`
    schain: seq<seq<Idx>>) // auxiliary: the slabs on each `sized` stack

  datatype State = State(
    next: Nexts,
    slabs: seq<Slab>,
    bump: Cell<nat>,
    head: Head,
    threads: seq<Thread>,
    global: seq<Idx>) // auxiliary: the slabs on the global stack

  datatype Action =
    | Alloc(t: Tid, c: Class)
    | Free(t: Tid, s: Idx, b: Block)
    | Continue(t: Tid)

  predicate Shaped(k: Config, st: State) {
    && |st.next| == |st.slabs| == st.bump.inner
    && forall t :: 0 <= t < |st.threads| ==> |st.threads[t].sized| == |st.threads[t].schain| == |k.counts|
  }

  function FreshThread(k: Config): Thread {
    Thread(Stack(None, 0), seq(|k.counts|, _ => Stack(None, 0)), 0, 0, None, Idle, false, [], seq(|k.counts|, _ => []))
  }

  function Init(k: Config, threads: nat): State {
    State([], [], Cell(None, 0, 0), Cell(None, 0, None), seq(threads, _ => FreshThread(k)), [])
  }

  // Helpers

  function Tail(q: seq<Idx>): seq<Idx> {
    if q == [] then [] else q[1..]
  }

  function Drop(q: seq<Idx>, n: nat): seq<Idx> {
    if n <= |q| then q[n..] else []
  }

  function IndexOf(q: seq<Idx>, s: Idx): (i: nat)
    ensures i <= |q|
    ensures s in q <==> i < |q|
    ensures i < |q| ==> q[i] == s
  {
    if q == [] then 0 else if q[0] == s then 0 else 1 + IndexOf(q[1..], s)
  }

  function Erase(q: seq<Idx>, s: Idx): seq<Idx> {
    if IndexOf(q, s) < |q| then Without(q, IndexOf(q, s)) else q
  }

  function Least(s: set<nat>): (m: nat)
    requires s != {}
    ensures m in s && forall x :: x in s ==> m <= x
  {
    LeastExists(s);
    var m :| m in s && forall x :: x in s ==> m <= x;
    m
  }

  lemma LeastExists(s: set<nat>)
    requires s != {}
    ensures exists m :: m in s && forall x :: x in s ==> m <= x
  {
    var m := LeastOf(s);
  }

  lemma {:induction false} LeastOf(s: set<nat>) returns (m: nat)
    requires s != {}
    ensures m in s && forall x :: x in s ==> m <= x
    decreases |s|
  {
    var y :| y in s;
    var below := set x | x in s && x < y;
    assert forall x :: x in s ==> x in below || y <= x;
    m := y;
    if below != {} {
      assert y !in below && below < s;
      Smaller(below, s);
      m := LeastOf(below);
    }
  }

  lemma Smaller(a: set<nat>, b: set<nat>)
    requires a < b
    ensures |a| < |b|
  {
    assert b == a + (b - a);
  }

  /** The blocks of a bitset filled to `n`. */
  function Full(n: nat): (r: set<Block>)
    ensures |r| == n && forall b: nat :: b in r <==> b < n
  {
    if n == 0 then {} else Full(n - 1) + {n - 1}
  }

  // Versions

  /** The start of `update`: the version after the one in the thread's own entry, which is announced there. */
  function Announce(th: Thread): Thread {
    var v := Cas.Next(th.entry);
    th.(entry := v, version := v)
  }

  /** `help` on a value just read: a thread that meets a tag of its own records it over its announcement. */
  function Sees<T>(th: Thread, t: Tid, cell: Cell<T>): Thread {
    if cell.id == Some(t) then th.(entry := cell.version) else th
  }

  function WithThread(st: State, t: Tid, th: Thread): State
    requires t < |st.threads|
  {
    st.(threads := st.threads[t := th])
  }

  function At(st: State, t: Tid, pc: Pc): State
    requires t < |st.threads|
  {
    WithThread(st, t, st.threads[t].(pc := pc))
  }

  /** The operation is over: the block it was handing out, if any, is the application's. */
  function Done(st: State, t: Tid): State
    requires t < |st.threads|
  {
    WithThread(st, t, st.threads[t].(pc := Idle, log := None))
  }

  function WithSlab(st: State, s: Idx, slab: Slab): State
    requires s < |st.slabs|
  {
    st.(slabs := st.slabs[s := slab])
  }

  /** All slabs of a batch change place together; the debugging build also clears their owner on the way out. */
  function Moved(slabs: seq<Slab>, batch: seq<Idx>, place: Place, disown: bool): (r: seq<Slab>)
    ensures |r| == |slabs|
  {
    seq(|slabs|, i requires 0 <= i < |slabs| =>
      if i in batch then slabs[i].(place := place, owner := if disown then None else slabs[i].owner) else slabs[i])
  }

  // Allocation

  /** The unlocked part of `peek`: which of the four sources of a block is tried first. */
  function StepAlloc(k: Config, st: State, t: Tid, c: Class): Option<State>
    requires Shaped(k, st) && t < |st.threads| && c < |k.counts|
  {
    var th := st.threads[t];
    if th.sized[c].head.Some? then Some(At(st, t, Take(c)))
    else if k.counts[c] == 0 then Some(st)
    else if th.unsized.head.Some? then Some(At(st, t, Refill(c)))
    else Some(At(st, t, GlobalEmpty(c)))
  }

  function StepGlobalEmpty(st: State, t: Tid, c: Class): Option<State>
    requires t < |st.threads|
  {
    var th := Sees(st.threads[t], t, st.head);
    Some(WithThread(st, t, th.(pc := if st.head.inner.None? then BumpLoad(c) else GlobalLoad(c))))
  }

  /** Where a pop goes once it has seen `seen` in the head: on to its `next` field, or to the bump pointer. */
  function AfterHead(c: Class, seen: Head): Pc {
    if seen.inner.None? then BumpLoad(c) else GlobalNext(c, seen)
  }

  function StepGlobalLoad(st: State, t: Tid, c: Class): Option<State>
    requires t < |st.threads|
  {
    Some(WithThread(st, t, Sees(Announce(st.threads[t]), t, st.head).(pc := AfterHead(c, st.head))))
  }

  /** Reads `next` of a slab that another thread may have popped, and even reused, in the meantime. */
  function StepGlobalNext(st: State, t: Tid, c: Class, seen: Head): Option<State>
    requires t < |st.threads|
  {
    if seen.inner.None? || seen.inner.value >= |st.next| then None else
    var th := st.threads[t];
    Some(WithThread(st, t, th.(
      log := Some(GlobalToUnsized(seen.inner.value, th.version)), took := false,
      pc := GlobalCas(c, seen, st.next[seen.inner.value]))))
  }

  function StepGlobalCas(st: State, t: Tid, c: Class, seen: Head, next: Option<Idx>): Option<State>
    requires t < |st.threads|
  {
    if st.head != seen then Some(WithThread(st, t, Sees(st.threads[t], t, st.head).(pc := AfterHead(c, st.head)))) else
    if seen.inner.None? || seen.inner.value >= |st.slabs| then None else
    var th := st.threads[t];
    var s := seen.inner.value;
    Some(WithThread(WithSlab(st, s, st.slabs[s].(place := Flight(t))), t,
                    th.(took := true, pc := GlobalOwn(c, s)))
         .(head := Cell(Some(t), th.version, next), global := Tail(st.global)))
  }

  /** `own`, checked in the validating build to find no owner. */
  function StepGlobalOwn(k: Config, st: State, t: Tid, c: Class, s: Idx): Option<State>
    requires t < |st.threads|
  {
    if s >= |st.slabs| || (k.validate && st.slabs[s].owner.Some?) then None else
    Some(At(WithSlab(st, s, st.slabs[s].(owner := Some(t))), t, GlobalLink(c, s)))
  }

  /** First half of pushing a slab in flight on the unsized stack: its `next` field. */
  function StepLink(st: State, t: Tid, s: Idx, then': Pc): Option<State>
    requires t < |st.threads|
  {
    if s >= |st.next| then None else
    Some(At(st.(next := st.next[s := st.threads[t].unsized.head]), t, then'))
  }

  /** Second half: the head and the length. */
  function StepSet(st: State, t: Tid, s: Idx, then': Pc): Option<State>
    requires t < |st.threads|
  {
    if s >= |st.slabs| then None else
    var th := st.threads[t];
    Some(WithThread(WithSlab(st, s, st.slabs[s].(place := Unsized(t))), t,
                    th.(unsized := Stack(Some(s), th.unsized.len + 1), uchain := [s] + th.uchain, pc := then')))
  }

  function StepBumpLoad(st: State, t: Tid, c: Class): Option<State>
    requires t < |st.threads|
  {
    Some(BumpFrom(st, t, Announce(st.threads[t]), c))
  }

  /** Remembers the bump pointer as it is and logs the attempt to move it. */
  function BumpFrom(st: State, t: Tid, th: Thread, c: Class): State
    requires t < |st.threads|
  {
    WithThread(st, t, Sees(th, t, st.bump).(log := Some(BumpToUnsized(st.bump.inner, th.version)), took := false,
                                            pc := BumpCas(c, st.bump)))
  }

  /** What the memory of a slab that was never handed out holds. */
  function ZeroSlab(t: Tid): Slab {
    Slab(None, 0, {}, Cell(None, 0, 0), Flight(t), map[])
  }

  function StepBumpCas(k: Config, st: State, t: Tid, c: Class, seen: Cell<nat>): Option<State>
    requires t < |st.threads|
  {
    if st.bump != seen then Some(BumpFrom(st, t, st.threads[t], c)) else
    var th := st.threads[t];
    Some(WithThread(st, t, th.(took := true, pc := BumpOwn(c, seen.inner, 0)))
         .(next := st.next + seq(k.bumpBatch, _ => None),
           slabs := st.slabs + seq(k.bumpBatch, _ => ZeroSlab(t)),
           bump := Cell(Some(t), th.version, seen.inner + k.bumpBatch)))
  }

  /** One round of `link`: the owner of the `i`-th slab of the range. */
  function StepBumpOwn(k: Config, st: State, t: Tid, c: Class, start: Idx, i: nat): Option<State>
    requires t < |st.threads|
  {
    if start + i >= |st.slabs| || (k.validate && st.slabs[start + i].owner.Some?) then None else
    Some(At(WithSlab(st, start + i, st.slabs[start + i].(owner := Some(t))), t, BumpNext(c, start, i)))
  }

  /** The rest of the round: its `next` field is the following slab of the range, if there is one. */
  function StepBumpNext(k: Config, st: State, t: Tid, c: Class, start: Idx, i: nat): Option<State>
    requires t < |st.threads|
  {
    if start + i >= |st.next| then None else
    var more := i + 1 < k.bumpBatch;
    Some(At(st.(next := st.next[start + i := if more then Some(start + i + 1) else None]), t,
            if more then BumpOwn(c, start, i + 1) else BumpSet(c, start)))
  }

  /** The slabs `start, start + 1, ..`, `n` of them. */
  function Range(start: Idx, n: nat): (q: seq<Idx>)
    ensures |q| == n && forall i :: 0 <= i < n ==> q[i] == start + i
  {
    seq(n, i requires 0 <= i < n => start + i)
  }

  /** The new range replaces the unsized stack. */
  function StepBumpSet(k: Config, st: State, t: Tid, c: Class, start: Idx): Option<State>
    requires t < |st.threads|
  {
    var th := st.threads[t];
    Some(WithThread(st.(slabs := Moved(st.slabs, Range(start, k.bumpBatch), Unsized(t), false)), t,
                    th.(unsized := Stack(Some(start), k.bumpBatch), uchain := Range(start, k.bumpBatch),
                        pc := Refill(c))))
  }

  /** `unsized_to_sized` on the head of the unsized stack; the counter is stored, with a tag of version zero. */
  function StepRefill(k: Config, st: State, t: Tid, c: Class): Option<State>
    requires Shaped(k, st) && t < |st.threads| && c < |k.counts|
  {
    var th := st.threads[t];
    if th.unsized.head.None? then Some(Done(st, t)) else
    var s := th.unsized.head.value;
    if s >= |st.slabs| || th.unsized.len == 0 then None else
    var n := st.next[s];
    var me := Sees(th, t, st.slabs[s].remote);
    Some(WithThread(
      WithSlab(st.(next := st.next[s := th.sized[c].head]), s,
        st.slabs[s].(cls := c, free := Full(k.counts[c]), remote := Cell(Some(t), 0, k.counts[c]),
                     place := Sized(t, c))),
      t,
      me.(log := Some(UnsizedToSized(n, c)),
          sized := th.sized[c := Stack(Some(s), th.sized[c].len + 1)],
          schain := th.schain[c := [s] + th.schain[c]],
          unsized := Stack(n, th.unsized.len - 1),
          uchain := Tail(th.uchain),
          pc := Take(c))))
  }

  /** `peek` and `pop`: the least free block of the head of the sized stack is handed out. */
  function StepTake(k: Config, st: State, t: Tid, c: Class): Option<State>
    requires Shaped(k, st) && t < |st.threads| && c < |k.counts|
  {
    var th := st.threads[t];
    if th.sized[c].head.None? then Some(Done(st, t)) else
    var s := th.sized[c].head.value;
    if s >= |st.slabs| || st.slabs[s].free == {} then None else
    var slab := st.slabs[s];
    var b := Least(slab.free);
    var free := slab.free - {b};
    if free != {} then
      Some(Done(WithSlab(st, s, slab.(free := free, blocks := slab.blocks[b := App])), t))
    else if th.sized[c].len == 0 then None else
      Some(WithThread(WithSlab(st, s, slab.(free := free, blocks := slab.blocks[b := By(t)], place := Detached)), t,
                      th.(sized := th.sized[c := Stack(st.next[s], th.sized[c].len - 1)],
                          schain := th.schain[c := Tail(th.schain[c])],
                          pc := Detach(c, s, b))))
  }

  /** The block goes to the application. */
  function Returned(slab: Slab, b: Block): Slab {
    slab.(blocks := slab.blocks[b := App])
  }

  function StepDetach(k: Config, st: State, t: Tid, c: Class, s: Idx, b: Block): Option<State>
    requires t < |st.threads| && c < |k.counts|
  {
    if s >= |st.slabs| then None else
    var th := Sees(st.threads[t], t, st.slabs[s].remote);
    if st.slabs[s].remote.inner < k.counts[c] then Some(WithThread(st, t, th.(pc := Disown(s, b))))
    else Some(WithThread(WithSlab(st, s, Returned(st.slabs[s], b)), t, th.(pc := Idle, log := None)))
  }

  function StepDisown(k: Config, st: State, t: Tid, s: Idx, b: Block): Option<State>
    requires t < |st.threads|
  {
    if s >= |st.slabs| || (k.validate && st.slabs[s].owner != Some(t)) then None else
    Some(Done(WithSlab(st, s, Returned(st.slabs[s], b).(owner := None)), t))
  }

  // Freeing

  /** The application gives a block it holds to thread `t` to free. */
  function StepFree(st: State, t: Tid, s: Idx, b: Block): Option<State>
    requires t < |st.threads|
  {
    if s >= |st.slabs| then None else
    Some(At(WithSlab(st, s, st.slabs[s].(blocks := st.slabs[s].blocks[b := By(t)])), t, FreeOwner(s, b)))
  }

  function StepFreeOwner(st: State, t: Tid, s: Idx, b: Block): Option<State>
    requires t < |st.threads|
  {
    if s >= |st.slabs| then None else
    Some(At(st, t, if st.slabs[s].owner == Some(t) then FreeLocal(s, b) else RemoteLoad(s, b)))
  }

  /** The owner's free: set the bit, attach a slab that had no free block, and go on if the slab is now full. */
  function StepFreeLocal(k: Config, st: State, t: Tid, s: Idx, b: Block): Option<State>
    requires Shaped(k, st) && t < |st.threads|
  {
    if s >= |st.slabs| || st.slabs[s].cls >= |k.counts| || (k.validate && b in st.slabs[s].free) then None else
    var slab := st.slabs[s];
    var c := slab.cls;
    var th := st.threads[t];
    var free := slab.free + {b};
    var blocks := slab.blocks - {b};
    var full := |free| >= k.counts[c];
    var pc := if full then Unsize(c, s) else Idle;
    var log := if full then Some(ApplicationToSized(s, b)) else None;
    if |free| != 1 then
      Some(WithThread(WithSlab(st, s, slab.(free := free, blocks := blocks)), t, th.(log := log, pc := pc)))
    else
      Some(WithThread(
        WithSlab(st.(next := st.next[s := th.sized[c].head]), s,
                 slab.(free := free, blocks := blocks, place := Sized(t, c))), t,
        th.(sized := th.sized[c := Stack(Some(s), th.sized[c].len + 1)],
            schain := th.schain[c := [s] + th.schain[c]],
            log := log, pc := pc)))
  }

  /** The first half of `sized_to_unsized`: take the slab off its sized stack, wherever on it it is. */
  function Unlinked(next: Nexts, stack: Stack, s: Idx): Option<(Nexts, Stack)>
    requires s < |next|
  {
    if stack.head.None? then None
    else if stack.head.value == s then
      if stack.len == 0 then None else Some((next, Stack(next[s], stack.len - 1)))
    else
      var p := Predecessor(next, stack.head.value, s, stack.len);
      if p.None? || p.value >= |next| then None else
      Some((next[p.value := next[s]], stack)) // the length is left as it was
  }

  function StepUnsize(k: Config, st: State, t: Tid, c: Class, s: Idx): Option<State>
    requires Shaped(k, st) && t < |st.threads| && c < |k.counts|
  {
    if s >= |st.slabs| then None else
    var r := Unlinked(st.next, st.threads[t].sized[c], s);
    if r.None? then None else
    var th := st.threads[t];
    Some(WithThread(
      WithSlab(st.(next := r.value.0[s := th.unsized.head]), s, st.slabs[s].(place := Unsized(t))), t,
      th.(sized := th.sized[c := r.value.1],
          schain := th.schain[c := Erase(th.schain[c], s)],
          unsized := Stack(Some(s), th.unsized.len + 1),
          uchain := [s] + th.uchain,
          pc := Spill)))
  }

  /** `unsized_to_global`, up to the push: cut a batch off the unsized stack once it is long enough. */
  function StepSpill(k: Config, st: State, t: Tid): Option<State>
    requires Shaped(k, st) && t < |st.threads|
  {
    var th := st.threads[t];
    if th.unsized.len <= k.cacheSlabs then Some(Done(st, t)) else
    var batch := Trace(st.next, th.unsized.head, k.pushBatch);
    if batch == [] || th.unsized.len < k.pushBatch
       || (k.validate &&
           exists i :: 0 <= i < |batch| && (batch[i] >= |st.slabs| || st.slabs[batch[i]].owner != Some(t)))
    then None else
    var tail := batch[|batch| - 1];
    if tail >= |st.next| then None else
    Some(WithThread(st.(slabs := Moved(st.slabs, batch, Flight(t), k.validate)), t,
                    th.(log := Some(UnsizedToGlobalSave(batch[0])),
                        unsized := Stack(st.next[tail], th.unsized.len - k.pushBatch),
                        uchain := Drop(th.uchain, |batch|),
                        pc := PushLoad(batch))))
  }

  function StepPushLoad(st: State, t: Tid, batch: seq<Idx>): Option<State>
    requires t < |st.threads|
  {
    Some(WithThread(st, t, Sees(Announce(st.threads[t]), t, st.head).(pc := PushLink(batch, st.head))))
  }

  function StepPushLink(st: State, t: Tid, batch: seq<Idx>, seen: Head): Option<State>
    requires t < |st.threads|
  {
    if batch == [] || batch[|batch| - 1] >= |st.next| then None else
    var th := st.threads[t];
    Some(WithThread(st.(next := st.next[batch[|batch| - 1] := seen.inner]), t,
                    th.(log := Some(UnsizedToGlobal(batch[0], th.version)), took := false, pc := PushCas(batch, seen))))
  }

  function StepPushCas(st: State, t: Tid, batch: seq<Idx>, seen: Head): Option<State>
    requires t < |st.threads|
  {
    if st.head != seen then
      Some(WithThread(st, t, Sees(st.threads[t], t, st.head).(pc := PushLink(batch, st.head))))
    else
    if batch == [] then None else
    var th := st.threads[t];
    Some(WithThread(st.(slabs := Moved(st.slabs, batch, Global, false)), t,
                    th.(took := true, log := None, pc := Idle))
         .(head := Cell(Some(t), th.version, Some(batch[0])), global := batch + st.global))
  }

  // Freeing a block of a slab another thread owns, or nobody does

  /** Logs the decrement about to be tried; a counter at zero would underflow. */
  function DecrementFrom(st: State, t: Tid, th: Thread, s: Idx, b: Block): Option<State>
    requires t < |st.threads| && s < |st.slabs|
  {
    var seen := st.slabs[s].remote;
    if seen.inner == 0 then None else
    Some(WithThread(st, t, Sees(th, t, seen).(log := Some(Remote(s, th.version, seen.inner == 1)), took := false,
                                              pc := RemoteCas(s, b, seen))))
  }

  function StepRemoteLoad(st: State, t: Tid, s: Idx, b: Block): Option<State>
    requires t < |st.threads|
  {
    if s >= |st.slabs| then None else DecrementFrom(st, t, Announce(st.threads[t]), s, b)
  }

  /** The decrement takes effect; whoever takes the counter from one to zero goes on to claim the slab. */
  function StepRemoteCas(st: State, t: Tid, s: Idx, b: Block, seen: Cell<nat>): Option<State>
    requires t < |st.threads|
  {
    if s >= |st.slabs| then None else
    if st.slabs[s].remote != seen then DecrementFrom(st, t, st.threads[t], s, b) else
    if seen.inner == 0 then None else
    var th := st.threads[t];
    var slab := st.slabs[s].(remote := Cell(Some(t), th.version, seen.inner - 1), blocks := st.slabs[s].blocks - {b});
    if seen.inner == 1 then
      Some(WithThread(WithSlab(st, s, slab.(place := Flight(t))), t, th.(took := true, pc := ClaimSteal(s))))
    else
      Some(WithThread(WithSlab(st, s, slab), t, th.(took := true, pc := RemoteDone(s))))
  }

  function StepClaimSteal(st: State, t: Tid, s: Idx): Option<State>
    requires t < |st.threads|
  {
    if s >= |st.slabs| then None else
    Some(At(WithSlab(st, s, st.slabs[s].(owner := Some(t))), t, ClaimLink(s)))
  }

  // The steps, by what the thread is doing

  /** Popping a slab off the global stack. */
  function StepPop(st: State, t: Tid): Option<State>
    requires t < |st.threads|
  {
    match st.threads[t].pc
    case GlobalEmpty(c) => StepGlobalEmpty(st, t, c)
    case GlobalLoad(c) => StepGlobalLoad(st, t, c)
    case GlobalNext(c, seen) => StepGlobalNext(st, t, c, seen)
    case GlobalCas(c, seen, next) => StepGlobalCas(st, t, c, seen, next)
    case _ => None
  }

  predicate IsPopping(pc: Pc) {
    pc.GlobalEmpty? || pc.GlobalLoad? || pc.GlobalNext? || pc.GlobalCas?
  }

  /** Putting a popped slab on the unsized stack. */
  function StepAdopt(k: Config, st: State, t: Tid): Option<State>
    requires t < |st.threads|
  {
    match st.threads[t].pc
    case GlobalOwn(c, s) => StepGlobalOwn(k, st, t, c, s)
    case GlobalLink(c, s) => StepLink(st, t, s, GlobalSet(c, s))
    case GlobalSet(c, s) => StepSet(st, t, s, Refill(c))
    case _ => None
  }

  predicate IsAdopting(pc: Pc) {
    pc.GlobalOwn? || pc.GlobalLink? || pc.GlobalSet?
  }

  /** Claiming a slab whose last block this thread has freed. */
  function StepClaim(st: State, t: Tid): Option<State>
    requires t < |st.threads|
  {
    match st.threads[t].pc
    case ClaimSteal(s) => StepClaimSteal(st, t, s)
    case ClaimLink(s) => StepLink(st, t, s, ClaimSet(s))
    case ClaimSet(s) => StepSet(st, t, s, Spill)
    case _ => None
  }

  predicate IsClaiming(pc: Pc) {
    pc.ClaimSteal? || pc.ClaimLink? || pc.ClaimSet?
  }

  /** Taking a range of new slabs. */
  function StepBump(k: Config, st: State, t: Tid): Option<State>
    requires t < |st.threads|
  {
    match st.threads[t].pc
    case BumpLoad(c) => StepBumpLoad(st, t, c)
    case BumpCas(c, seen) => StepBumpCas(k, st, t, c, seen)
    case BumpOwn(c, start, i) => StepBumpOwn(k, st, t, c, start, i)
    case BumpNext(c, start, i) => StepBumpNext(k, st, t, c, start, i)
    case BumpSet(c, start) => StepBumpSet(k, st, t, c, start)
    case _ => None
  }

  predicate IsBumping(pc: Pc) {
    pc.BumpLoad? || pc.BumpCas? || pc.BumpOwn? || pc.BumpNext? || pc.BumpSet?
  }

  /** Handing out a block. */
  function StepServe(k: Config, st: State, t: Tid): Option<State>
    requires Shaped(k, st) && t < |st.threads|
  {
    match st.threads[t].pc
    case Refill(c) => if c < |k.counts| then StepRefill(k, st, t, c) else None
    case Take(c) => if c < |k.counts| then StepTake(k, st, t, c) else None
    case _ => None
  }

  predicate IsServing(pc: Pc) {
    pc.Refill? || pc.Take?
  }

  /** Letting go of a slab whose last free block is being handed out. */
  function StepLetGo(k: Config, st: State, t: Tid): Option<State>
    requires Shaped(k, st) && t < |st.threads|
  {
    match st.threads[t].pc
    case Detach(c, s, b) => if c < |k.counts| then StepDetach(k, st, t, c, s, b) else None
    case Disown(s, b) => StepDisown(k, st, t, s, b)
    case _ => None
  }

  predicate IsLettingGo(pc: Pc) {
    pc.Detach? || pc.Disown?
  }

  /** Taking a block back into a slab this thread owns. */
  function StepReturn(k: Config, st: State, t: Tid): Option<State>
    requires Shaped(k, st) && t < |st.threads|
  {
    match st.threads[t].pc
    case FreeOwner(s, b) => StepFreeOwner(st, t, s, b)
    case FreeLocal(s, b) => StepFreeLocal(k, st, t, s, b)
    case Unsize(c, s) => if c < |k.counts| then StepUnsize(k, st, t, c, s) else None
    case _ => None
  }

  predicate IsReturning(pc: Pc) {
    pc.FreeOwner? || pc.FreeLocal? || pc.Unsize?
  }

  /** Taking a block back by counting it off. */
  function StepRemote(st: State, t: Tid): Option<State>
    requires t < |st.threads|
  {
    match st.threads[t].pc
    case RemoteLoad(s, b) => StepRemoteLoad(st, t, s, b)
    case RemoteCas(s, b, seen) => StepRemoteCas(st, t, s, b, seen)
    case RemoteDone(_) => Some(Done(st, t))
    case _ => None
  }

  predicate IsCountingOff(pc: Pc) {
    pc.RemoteLoad? || pc.RemoteCas? || pc.RemoteDone?
  }

  /** Giving a batch of empty slabs to the global stack. */
  function StepPush(k: Config, st: State, t: Tid): Option<State>
    requires Shaped(k, st) && t < |st.threads|
  {
    match st.threads[t].pc
    case Spill => StepSpill(k, st, t)
    case PushLoad(batch) => StepPushLoad(st, t, batch)
    case PushLink(batch, seen) => StepPushLink(st, t, batch, seen)
    case PushCas(batch, seen) => StepPushCas(st, t, batch, seen)
    case _ => None
  }

  /** The next step of a thread in the middle of an operation. */
  function StepThread(k: Config, st: State, t: Tid): Option<State>
    requires Shaped(k, st) && t < |st.threads|
  {
    var pc := st.threads[t].pc;
    if pc.Idle? then Some(st)
    else if IsPopping(pc) then StepPop(st, t)
    else if IsAdopting(pc) then StepAdopt(k, st, t)
    else if IsClaiming(pc) then StepClaim(st, t)
    else if IsBumping(pc) then StepBump(k, st, t)
    else if IsServing(pc) then StepServe(k, st, t)
    else if IsLettingGo(pc) then StepLetGo(k, st, t)
    else if IsReturning(pc) then StepReturn(k, st, t)
    else if IsCountingOff(pc) then StepRemote(st, t)
    else StepPush(k, st, t)
  }

  /** A client starts operations on idle threads only, and frees only blocks it holds. */
  predicate Enabled(k: Config, st: State, a: Action) {
    match a
    case Alloc(t, c) => t < |st.threads| && st.threads[t].pc.Idle? && c < |k.counts|
    case Free(t, s, b) =>
      && t < |st.threads| && st.threads[t].pc.Idle? && s < |st.slabs|
      && b in st.slabs[s].blocks && st.slabs[s].blocks[b] == App
    case Continue(t) => t < |st.threads|
  }

  function Step(k: Config, st: State, a: Action): Option<State>
    requires Shaped(k, st) && Enabled(k, st, a)
  {
    match a
    case Alloc(t, c) => StepAlloc(k, st, t, c)
    case Free(t, s, b) => StepFree(st, t, s, b)
    case Continue(t) => StepThread(k, st, t)
  }
}
