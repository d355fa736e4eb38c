/**
The huge allocator: each thread hands out byte ranges of the slots it has claimed and keeps a list of descriptors of
them in shared memory. Any thread may free or map a range. A freed range goes back to its owner only once no thread's
hazard array holds its offset, and its descriptor then lies in the list until it is overwritten in place.

Walking a list, looking into one thread's hazard array, writing a descriptor and claiming slots are one step each here.
`HugeStores` has the stores and loads of the first and the third, `HazardScan` those of the second, `HugeSlots` those of
the last.
*/
module Huge {
  import opened Options
  import opened Claims

  type Did = nat

  const SLOTS := 1024
  const REGION := SLOTS * SLOT_SIZE

  /** The length of a hazard array. */
  const HAZARDS := 1024

  datatype Life = Live | Free | Safe

  /** A descriptor; `owner` is the thread in whose list it is. */
  datatype Desc = Desc(owner: Tid, offset: nat, size: nat, life: Life)

  /**
  `Reusing` is at position `k` of the list and has looked into the hazard arrays of threads below `h`; `safe` is the
  position of the first descriptor found that may be overwritten. `Refreshing` saw descriptor `d` free.
  */
  datatype Pc =
    | Resting
    | Reusing(size: nat, k: nat, h: nat, safe: Option<nat>)
    | Taking(size: nat, safe: Option<nat>)
    | Inserting(d: Did)
    | Freeing(d: Did)
    | Releasing(d: Did)
    | Refreshing(d: Did, back: Pc)

  /** `free` is private to the thread, `list` and `hazards` are shared. */
  datatype Thread = Thread(free: set<nat>, list: seq<Did>, hazards: set<nat>, pc: Pc)

  datatype State = State(claims: seq<Claim>, descs: seq<Desc>, threads: seq<Thread>)

  datatype Action =
    | Allocate(t: Tid, size: nat)
    | Release(t: Tid, x: nat)
    | Map(t: Tid, x: nat)
    | Refresh(t: Tid, d: Did)
    | Go(t: Tid)

  function Init(threads: nat): State {
    State([], [], seq(threads, _ => Thread({}, [], {}, Resting)))
  }

  function Range(o: nat, n: nat): (r: set<nat>)
    ensures forall x :: x in r <==> o <= x < o + n
  {
    if n == 0 then {} else Range(o, n - 1) + {o + n - 1}
  }

  predicate Contains(d: Desc, x: nat) {
    d.offset <= x < d.offset + d.size
  }

  /** A descriptor whose range is not back with its owner. */
  predicate Holds(d: Desc) { d.life != Safe }

  predicate Overlap(d: Desc, e: Desc) {
    d.offset < e.offset + e.size && e.offset < d.offset + d.size
  }

  /** The lowest place where `size` bytes are free. */
  function FirstFit(free: set<nat>, size: nat, from: nat): (r: Option<nat>)
    ensures r.Some? ==> Range(r.value, size) <= free
    ensures forall o: nat :: from <= o < (if r.Some? then r.value else REGION) ==> !(Range(o, size) <= free)
    decreases REGION - from
  {
    if from >= REGION then None
    else if Range(from, size) <= free then Some(from)
    else FirstFit(free, size, from + 1)
  }

  /** The thread whose claim covers offset `x`. */
  function OwnerOf(claims: seq<Claim>, x: nat): Option<Tid> {
    match Covering(claims, x / SLOT_SIZE)
    case None => None
    case Some(c) => Some(c.id)
  }

  /** What `Shared::find` answers. */
  function Lookup(claims: seq<Claim>, x: nat): Option<Tid> {
    if x / SLOT_SIZE >= SLOTS then None else
    match Below(claims, x / SLOT_SIZE)
    case None => None
    case Some(c) => Some(c.id)
  }

  /** The first descriptor of the list whose range contains `x`, whatever its state. */
  function FindIn(descs: seq<Desc>, list: seq<Did>, x: nat): Option<Did> {
    if list == [] then None
    else if list[0] < |descs| && Contains(descs[list[0]], x) then Some(list[0])
    else FindIn(descs, list[1..], x)
  }

  /** `Huge::find`. */
  function Find(st: State, x: nat): Option<Did> {
    var owner := Lookup(st.claims, x);
    if owner.None? || owner.value >= |st.threads| then None
    else FindIn(st.descs, st.threads[owner.value].list, x)
  }

  function SetPc(st: State, t: Tid, pc: Pc): State
    requires t < |st.threads|
  {
    st.(threads := st.threads[t := st.threads[t].(pc := pc)])
  }

  function SetLife(st: State, d: Did, life: Life): State
    requires d < |st.descs|
  {
    st.(descs := st.descs[d := st.descs[d].(life := life)])
  }

  function SetHazards(st: State, t: Tid, hazards: set<nat>): State
    requires t < |st.threads|
  {
    st.(threads := st.threads[t := st.threads[t].(hazards := hazards)])
  }

  function SetFree(st: State, t: Tid, free: set<nat>): State
    requires t < |st.threads|
  {
    st.(threads := st.threads[t := st.threads[t].(free := free)])
  }

  /** `get_or_insert`. */
  function OrElse(o: Option<nat>, k: nat): Option<nat> {
    if o.Some? then o else Some(k)
  }

  /** One look of `reuse` at its current descriptor. */
  function ReuseStep(st: State, t: Tid): Option<State>
    requires t < |st.threads| && st.threads[t].pc.Reusing?
  {
    var me := st.threads[t];
    var pc := me.pc;
    if pc.k >= |me.list| then Some(SetPc(st, t, Taking(pc.size, pc.safe)))
    else if me.list[pc.k] >= |st.descs| then None
    else
      var d := me.list[pc.k];
      var next := Reusing(pc.size, pc.k + 1, 0, pc.safe);
      var found := Reusing(pc.size, pc.k + 1, 0, OrElse(pc.safe, pc.k));
      match st.descs[d].life
      case Live => Some(SetPc(st, t, next))
      case Safe => Some(SetPc(st, t, found))
      case Free =>
        if pc.h < |st.threads| then
          if st.descs[d].offset in st.threads[pc.h].hazards then Some(SetPc(st, t, next))
          else Some(SetPc(st, t, Reusing(pc.size, pc.k, pc.h + 1, pc.safe)))
        else
          Some(SetPc(SetFree(SetLife(st, d, Safe), t, me.free + Range(st.descs[d].offset, st.descs[d].size)),
                     t, found))
  }

  /** No range fits: claim slots. `None` when the region is used up. */
  function ClaimStep(st: State, t: Tid): Option<State>
    requires t < |st.threads| && st.threads[t].pc.Taking?
  {
    var c := Claim(t, SlotCount(st.threads[t].pc.size));
    var end := Total(st.claims);
    if end + c.count > SLOTS then None
    else Some(SetFree(st.(claims := st.claims + [c]), t,
                      st.threads[t].free + Range(end * SLOT_SIZE, c.count * SLOT_SIZE)))
  }

  /** A range fits: cover it and write its descriptor, over the one found or in front of the list. */
  function WriteStep(st: State, t: Tid, o: nat): Option<State>
    requires t < |st.threads| && st.threads[t].pc.Taking?
  {
    var me := st.threads[t];
    var d := Desc(t, o, me.pc.size, Live);
    var free := me.free - Range(o, me.pc.size);
    match me.pc.safe
    case None =>
      var new_ := |st.descs|;
      Some(State(st.claims, st.descs + [d],
                 st.threads[t := Thread(free, [new_] + me.list, me.hazards, Inserting(new_))]))
    case Some(p) =>
      if p >= |me.list| || me.list[p] >= |st.descs| then None
      else Some(State(st.claims, st.descs[me.list[p] := d],
                      st.threads[t := me.(free := free, pc := Inserting(me.list[p]))]))
  }

  /** `insert`, which panics when the array is full, and in a validating build when the offset is there already. */
  function InsertStep(st: State, t: Tid, d: Did): Option<State>
    requires t < |st.threads|
  {
    var hazards := st.threads[t].hazards;
    if d >= |st.descs| || st.descs[d].offset in hazards || |hazards| >= HAZARDS then None
    else Some(SetPc(SetHazards(st, t, hazards + {st.descs[d].offset}), t, Resting))
  }

  /** Remove the hazard for descriptor `d`, if there is one, and go on. */
  function RemoveStep(st: State, t: Tid, d: Did, pc: Pc): Option<State>
    requires t < |st.threads|
  {
    if d >= |st.descs| then None
    else Some(SetPc(SetHazards(st, t, st.threads[t].hazards - {st.descs[d].offset}), t, pc))
  }

  function GoStep(st: State, t: Tid): Option<State>
    requires t < |st.threads|
  {
    var pc := st.threads[t].pc;
    match pc
    case Resting => Some(st)
    case Reusing(_, _, _, _) => ReuseStep(st, t)
    case Taking(size, _) =>
      var fit := FirstFit(st.threads[t].free, size, 0);
      if fit.Some? then WriteStep(st, t, fit.value) else ClaimStep(st, t)
    case Inserting(d) => InsertStep(st, t, d)
    case Freeing(d) => RemoveStep(st, t, d, Releasing(d))
    case Releasing(d) => if d >= |st.descs| then None else Some(SetPc(SetLife(st, d, Free), t, Resting))
    case Refreshing(d, back) => RemoveStep(st, t, d, back)
  }

  /** One step; `None` is a panic. */
  function Step(st: State, a: Action): Option<State>
    requires a.t < |st.threads|
  {
    match a
    case Go(t) => GoStep(st, t)
    case Allocate(t, size) => Some(SetPc(st, t, Reusing(size, 0, 0, None)))
    case Release(t, x) =>
      var d := Find(st, x);
      if d.None? then None else Some(SetPc(st, t, Freeing(d.value)))
    case Map(t, x) =>
      var d := Find(st, x);
      if d.None? then Some(st) else InsertStep(st, t, d.value)
    case Refresh(t, d) => Some(SetPc(st, t, Refreshing(d, st.threads[t].pc)))
  }

  /** The descriptor a thread is handing out or taking back. */
  function Handling(pc: Pc): Option<Did> {
    if pc.Inserting? || pc.Freeing? || pc.Releasing? then Some(pc.d) else None
  }

  /** `x` is in a live range the application has been given and nobody is freeing. */
  ghost predicate Usable(st: State, d: Did, x: nat) {
    && d < |st.descs| && st.descs[d].life == Live && Contains(st.descs[d], x)
    && forall t :: 0 <= t < |st.threads| ==> Handling(st.threads[t].pc) != Some(d)
  }

  /**
  What the application may ask for: sizes above zero, offsets of memory it holds. A thread maps memory it has not
  mapped. `Refresh` is `refresh` seeing a free descriptor; it is called before a free and between reuse and take.
  */
  ghost predicate Enabled(st: State, a: Action) {
    && a.t < |st.threads|
    && var me := st.threads[a.t];
       match a
       case Go(t) => !me.pc.Resting?
       case Allocate(t, size) => me.pc.Resting? && size > 0
       case Release(t, x) => me.pc.Resting? && exists d :: Usable(st, d, x)
       case Map(t, x) => me.pc.Resting? && exists d: nat :: Usable(st, d, x) && st.descs[d].offset !in me.hazards
       case Refresh(t, d) => (me.pc.Resting? || me.pc.Taking?) && d < |st.descs| && st.descs[d].life == Free
  }
}
