/**
The huge allocator with the stores and loads that other threads can fall between. A descriptor is overwritten in place
by a store per field, state before offset before size, while it is in the shared list; a lookup reads the offset and
then the size of one descriptor after the other. Everything else is as in `Huge`, whose steps work on `mem` here.

`Abs` gives the state as `Huge` has it: a descriptor counts as rewritten from the moment its range is taken. The place
of a thread in `mem` is where it will be once its `work` is done; while it looks something up to free it, that is
freeing the right descriptor. That place, `holder`, `was` and `whole` are auxiliary: no branch reads them.
*/
module HugeStores {
  import opened Options
  import opened Claims
  import opened Huge

  datatype Stage = ToLive | ToOffset | ToSize

  /** A lookup of offset `x`, to free the memory there or to map it; `holder` is the descriptor that holds `x`. */
  datatype Look = Look(x: nat, free: bool, holder: Did)

  /**
  `Comparing` has read offset `o` of the first descriptor of `rest`, whose size was `was` then; `whole` says that its
  offset and size belonged together.
  */
  datatype Work =
    | Idle
    | Storing(d: Did, target: Desc, stage: Stage)
    | Walking(look: Look, rest: seq<Did>)
    | Comparing(look: Look, rest: seq<Did>, o: nat, was: nat, whole: bool)
    | Mapping(look: Look, d: Did)

  datatype Machine = Machine(mem: Huge.State, work: seq<Work>)

  function Begin(threads: nat): Machine {
    Machine(Huge.Init(threads), seq(threads, _ => Idle))
  }

  /** Descriptor `d` is being overwritten. */
  predicate Rewriting(st: Machine, d: Did) {
    && d < |st.mem.descs|
    && var t := st.mem.descs[d].owner; t < |st.work| && st.work[t].Storing? && st.work[t].d == d
  }

  function ViewOf(st: Machine, d: Did): Desc
    requires d < |st.mem.descs|
  {
    if Rewriting(st, d) then st.work[st.mem.descs[d].owner].target else st.mem.descs[d]
  }

  function Abs(st: Machine): (a: Huge.State)
    ensures a.claims == st.mem.claims && a.threads == st.mem.threads && |a.descs| == |st.mem.descs|
    ensures forall d :: 0 <= d < |a.descs| ==> a.descs[d] == ViewOf(st, d)
  {
    st.mem.(descs := seq(|st.mem.descs|, d requires 0 <= d < |st.mem.descs| => ViewOf(st, d)))
  }

  /** In memory, descriptor `d` has its new offset and still its old size. */
  predicate Between(st: Machine, d: Did) {
    Rewriting(st, d) && st.work[st.mem.descs[d].owner].stage == ToSize
  }

  /** And that is more than it is getting. */
  predicate Mixed(st: Machine, d: Did) {
    Between(st, d) && ViewOf(st, d).size < st.mem.descs[d].size
  }

  function Lift(mem: Option<Huge.State>, work: seq<Work>): Option<Machine> {
    if mem.None? then None else Some(Machine(mem.value, work))
  }

  /** A range fits: cover it, and start overwriting the descriptor found. A new descriptor is nobody else's yet. */
  function TakeStep(st: Machine, t: Tid, o: nat): Option<Machine>
    requires t < |st.mem.threads| && t < |st.work| && st.mem.threads[t].pc.Taking?
  {
    var me := st.mem.threads[t];
    match me.pc.safe
    case None => Lift(WriteStep(st.mem, t, o), st.work)
    case Some(p) =>
      if p >= |me.list| || me.list[p] >= |st.mem.descs| then None else
      var d := me.list[p];
      var me' := me.(free := me.free - Range(o, me.pc.size), pc := Inserting(d));
      Some(Machine(st.mem.(threads := st.mem.threads[t := me']),
                 st.work[t := Storing(d, Desc(t, o, me.pc.size, Live), ToLive)]))
  }

  function SetDesc(mem: Huge.State, d: Did, it: Desc): Huge.State
    requires d < |mem.descs|
  {
    mem.(descs := mem.descs[d := it])
  }

  /** One store. */
  function StoreStep(st: Machine, t: Tid): Option<Machine>
    requires t < |st.work| && st.work[t].Storing?
  {
    var w := st.work[t];
    if w.d >= |st.mem.descs| then None else
    var it := st.mem.descs[w.d];
    match w.stage
    case ToLive => Some(Machine(SetDesc(st.mem, w.d, it.(life := w.target.life)), st.work[t := w.(stage := ToOffset)]))
    case ToOffset =>
      Some(Machine(SetDesc(st.mem, w.d, it.(offset := w.target.offset)), st.work[t := w.(stage := ToSize)]))
    case ToSize => Some(Machine(SetDesc(st.mem, w.d, it.(size := w.target.size)), st.work[t := Idle]))
  }

  /** A lookup starts at the head of the list of the owner; `None` is the panic of a free that finds nobody. */
  function LookStep(st: Machine, t: Tid, x: nat, free: bool): Option<Machine>
    requires t < |st.mem.threads| && t < |st.work|
  {
    var owner := Lookup(st.mem.claims, x);
    if owner.None? || owner.value >= |st.mem.threads| then if free then None else Some(st) else
    var found := Find(Abs(st), x);
    var look := Look(x, free, if found.Some? then found.value else 0);
    Some(Machine(SetPc(st.mem, t, if free then Freeing(look.holder) else Resting),
               st.work[t := Walking(look, st.mem.threads[owner.value].list)]))
  }

  /** The load of the offset. Mapping without finding anything is an error that the caller gets. */
  function WalkStep(st: Machine, t: Tid): Option<Machine>
    requires t < |st.work| && st.work[t].Walking?
  {
    var w := st.work[t];
    if w.rest == [] then if w.look.free then None else Some(st.(work := st.work[t := Idle]))
    else if w.rest[0] >= |st.mem.descs| then None else
    var it := st.mem.descs[w.rest[0]];
    if w.look.x < it.offset then Some(st.(work := st.work[t := Walking(w.look, w.rest[1..])]))
    else Some(st.(work := st.work[t := Comparing(w.look, w.rest, it.offset, it.size, !Mixed(st, w.rest[0]))]))
  }

  /** The load of the size. */
  predicate Hits(st: Machine, t: Tid)
    requires t < |st.work| && st.work[t].Comparing?
  {
    var w := st.work[t];
    w.rest != [] && w.rest[0] < |st.mem.descs| && w.look.x < w.o + st.mem.descs[w.rest[0]].size
  }

  function CompareStep(st: Machine, t: Tid): Option<Machine>
    requires t < |st.mem.threads| && t < |st.work| && st.work[t].Comparing?
  {
    var w := st.work[t];
    if w.rest == [] || w.rest[0] >= |st.mem.descs| then None
    else if !Hits(st, t) then Some(st.(work := st.work[t := Walking(w.look, w.rest[1..])]))
    else if w.look.free then Some(Machine(SetPc(st.mem, t, Freeing(w.rest[0])), st.work[t := Idle]))
    else Some(st.(work := st.work[t := Mapping(w.look, w.rest[0])]))
  }

  function WorkStep(st: Machine, t: Tid): Option<Machine>
    requires t < |st.mem.threads| && t < |st.work|
  {
    match st.work[t]
    case Idle => Some(st)
    case Storing(_, _, _) => StoreStep(st, t)
    case Walking(_, _) => WalkStep(st, t)
    case Comparing(_, _, _, _, _) => CompareStep(st, t)
    case Mapping(_, d) => Lift(InsertStep(st.mem, t, d), st.work[t := Idle])
  }

  /** Where the range goes if the thread is about to take one. */
  function Fit(mem: Huge.State, t: Tid): Option<nat>
    requires t < |mem.threads|
  {
    var me := mem.threads[t];
    if me.pc.Taking? then FirstFit(me.free, me.pc.size, 0) else None
  }

  /** One step; `None` is a panic. */
  function Act(st: Machine, a: Action): Option<Machine>
    requires a.t < |st.mem.threads| && a.t < |st.work|
  {
    if !st.work[a.t].Idle? then WorkStep(st, a.t) else
    match a
    case Go(t) =>
      var fit := Fit(st.mem, t);
      if fit.Some? then TakeStep(st, t, fit.value) else Lift(GoStep(st.mem, t), st.work)
    case Release(t, x) => LookStep(st, t, x, true)
    case Map(t, x) => LookStep(st, t, x, false)
    case _ => Lift(Huge.Step(st.mem, a), st.work)
  }

  function LookOf(w: Work): Option<Look> {
    if w.Walking? || w.Comparing? || w.Mapping? then Some(w.look) else None
  }

  /** Nobody is about to map what descriptor `d` holds. */
  ghost predicate Unmapping(st: Machine, d: Did) {
    forall u :: 0 <= u < |st.work| && LookOf(st.work[u]).Some? && !LookOf(st.work[u]).value.free ==>
      LookOf(st.work[u]).value.holder != d
  }

  /** As in `Huge`; and nobody frees what somebody is about to map. */
  ghost predicate Allowed(st: Machine, a: Action) {
    && |st.work| == |st.mem.threads| && a.t < |st.work|
    && var pc := st.mem.threads[a.t].pc;
       if !st.work[a.t].Idle? then a.Go? else
       match a
       case Go(t) => !pc.Resting?
       case Allocate(t, size) => pc.Resting? && size > 0
       case Release(t, x) => pc.Resting? && exists d :: Usable(Abs(st), d, x) && Unmapping(st, d)
       case Map(t, x) =>
         pc.Resting? && exists d: nat :: Usable(Abs(st), d, x) && Abs(st).descs[d].offset !in st.mem.threads[t].hazards
       case Refresh(t, d) => (pc.Resting? || pc.Taking?) && d < |st.mem.descs| && st.mem.descs[d].life == Free
  }

  /**
  A lookup is about to take another descriptor for the holder: the offset it read had got ahead of the size, or the
  size has changed since.
  */
  predicate Torn(st: Machine, t: Tid) {
    && t < |st.work| && st.work[t].Comparing? && Hits(st, t)
    && var w := st.work[t];
       w.rest[0] != w.look.holder && (!w.whole || st.mem.descs[w.rest[0]].size != w.was)
  }
}
