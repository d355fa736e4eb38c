/**
Detectable combining: threads announce requests, the one that gets the lock performs everybody's on a private copy of
the state and publishes the copy. The others wait for the lock word to name a published record and look their result
up in it. By the time they look, the record may be in use again for a later round.

Every access to the lock word, a request, the published pointer or an entry of a record is one step, also while a record
is copied, field by field in an order the source leaves open; applying one request is one step. There are no crashes.
*/
module Combining {
  import opened Options

  type Tid = nat
  type Rid = nat

  /** What a record is made of: the data, and for each thread a result and the number of the request it belongs to. */
  datatype Field = Data | Ret(t: Tid) | Number(t: Tid)

  /** Number of threads, rounds per combiner, the sequential operation, the initial data and the order of copying. */
  datatype Config = Config(n: nat, rounds: nat, f: (int, int) -> (int, int), init: int, order: seq<Field>)

  predicate Listed(k: Config, t: Tid) {
    Ret(t) in k.order && Number(t) in k.order
  }

  predicate InRange(k: Config, i: nat)
    requires i < |k.order|
  {
    k.order[i].Data? || k.order[i].t < k.n
  }

  /** The order has every field of a record, and nothing else. */
  ghost predicate Complete(k: Config) {
    && Data in k.order
    && (forall t {:trigger Listed(k, t)} :: 0 <= t < k.n ==> Listed(k, t))
    && (forall i {:trigger InRange(k, i)} :: 0 <= i < |k.order| ==> InRange(k, i))
  }

  predicate ResultBefore(k: Config, i: nat)
    requires i < |k.order|
  {
    k.order[i].Number? ==> Ret(k.order[i].t) in k.order[..i]
  }

  /** Every thread's result is copied before its number. */
  ghost predicate ResultsFirst(k: Config) {
    forall i {:trigger ResultBefore(k, i)} :: 0 <= i < |k.order| ==> ResultBefore(k, i)
  }

  /** An execution: request number `k` of thread `t`, its argument and result. */
  datatype Exec = Exec(t: Tid, k: nat, arg: int, ret: int)

  datatype Request = Request(arg: int, activate: nat)

  /** A state record; `seen` is auxiliary: the executions it reflects. */
  datatype Record = Record(data: int, ret: seq<int>, deactivate: seq<nat>, seen: seq<Exec>)

  datatype Lock = Lock(ptr: Option<Rid>, holder: Option<Tid>)

  datatype Pc =
    | Idle
    | Registering(arg: int)
    | Activating
    | Trying
    | Locking(ptr: Option<Rid>)
    | Waiting
    | Checking(r: Rid)
    | Fetching(r: Rid)
    | Copying(i: nat)
    | Serving(round: nat, q: Tid, served: nat)
    | Applying(round: nat, q: Tid, served: nat, activate: nat)
    | Marking(round: nat, q: Tid, served: nat, activate: nat)
    | Committing
    | Flipping
    | Unlocking(r: Rid)
    | Leaving(r: Rid)
    | Returning(value: int)

  /** `hist` is auxiliary: all executions in order. */
  datatype State = State(
    lock: Lock,
    requests: seq<Request>,
    records: seq<Record>,
    index: seq<nat>,
    pstate: Rid,
    pcs: seq<Pc>,
    hist: seq<Exec>)

  datatype Action = Issue(t: Tid, arg: int) | Go(t: Tid)

  /** Thread `t`'s two records; one more holds the initial state. */
  function Rec(t: Tid, i: nat): Rid { 2 * t + i }

  function Blank(k: Config): Record {
    Record(k.init, seq(k.n, _ => 0), seq(k.n, _ => 0), [])
  }

  function Init(k: Config): State {
    State(Lock(None, None), seq(k.n, _ => Request(0, 0)), seq(2 * k.n + 1, _ => Blank(k)),
          seq(k.n, _ => 0), 2 * k.n, seq(k.n, _ => Idle), [])
  }

  predicate Shaped(k: Config, st: State) {
    && |st.requests| == |st.index| == |st.pcs| == k.n && |st.records| == 2 * k.n + 1 && st.pstate < |st.records|
    && (forall t :: 0 <= t < k.n ==> st.index[t] <= 1)
    && (forall r :: 0 <= r < |st.records| ==> |st.records[r].ret| == |st.records[r].deactivate| == k.n)
  }

  function At(st: State, t: Tid, pc: Pc): State
    requires t < |st.pcs|
  {
    st.(pcs := st.pcs[t := pc])
  }

  /** The record thread `t` works on. */
  function Mine(st: State, t: Tid): Rid
    requires t < |st.index|
  {
    Rec(t, st.index[t])
  }

  /** Announcing a request and trying for the lock. */
  function AskStep(k: Config, st: State, t: Tid): Option<State>
    requires Shaped(k, st) && t < k.n
  {
    match st.pcs[t]
    case Registering(arg) => Some(At(st.(requests := st.requests[t := st.requests[t].(arg := arg)]), t, Activating))
    case Activating =>
      Some(At(st.(requests := st.requests[t := st.requests[t].(activate := st.requests[t].activate + 1)]), t, Trying))
    case Trying => Some(At(st, t, if st.lock.holder.None? then Locking(st.lock.ptr) else Waiting))
    case Locking(ptr) =>
      if st.lock == Lock(ptr, None) then Some(At(st.(lock := Lock(None, Some(t))), t, Copying(0)))
      else Some(At(st, t, Waiting))
    case Waiting =>
      if st.lock.holder.Some? then Some(st)
      else if st.lock.ptr.None? then None
      else Some(At(st, t, Checking(st.lock.ptr.value)))
    case _ => Some(st)
  }

  /** Looking the answer up in a record. */
  function AnswerStep(k: Config, st: State, t: Tid): Option<State>
    requires Shaped(k, st) && t < k.n
  {
    match st.pcs[t]
    case Checking(r) =>
      if r >= |st.records| then None
      else Some(At(st, t, if st.requests[t].activate <= st.records[r].deactivate[t] then Fetching(r) else Trying))
    case Fetching(r) => if r >= |st.records| then None else Some(At(st, t, Returning(st.records[r].ret[t])))
    case Leaving(r) => if r >= |st.records| then None else Some(At(st, t, Returning(st.records[r].ret[t])))
    case Returning(_) => Some(At(st, t, Idle))
    case _ => Some(st)
  }

  /** Apply the request of `q` to the record. */
  function Apply(k: Config, r: Record, q: Tid, e: Exec): Record
    requires q < |r.ret|
  {
    r.(data := k.f(r.data, e.arg).0, ret := r.ret[q := e.ret], seen := r.seen + [e])
  }

  /** One field of `from` over the same field of `r`. */
  function CopyField(r: Record, from: Record, field: Field): Record
    requires field.Data? || (field.t < |r.ret| && field.t < |from.ret|)
    requires field.Data? || (field.t < |r.deactivate| && field.t < |from.deactivate|)
  {
    match field
    case Data => r.(data := from.data)
    case Ret(t) => r.(ret := r.ret[t := from.ret[t]])
    case Number(t) => r.(deactivate := r.deactivate[t := from.deactivate[t]])
  }

  /** Copying the published record and performing requests on the copy. */
  function PerformStep(k: Config, st: State, t: Tid): Option<State>
    requires Shaped(k, st) && t < k.n
  {
    var r := Mine(st, t);
    match st.pcs[t]
    case Copying(i) =>
      if i >= |k.order| || (!k.order[i].Data? && k.order[i].t >= k.n) then None else
      var rec := CopyField(st.records[r], st.records[st.pstate], k.order[i]);
      if i + 1 < |k.order| then Some(At(st.(records := st.records[r := rec]), t, Copying(i + 1)))
      else Some(At(st.(records := st.records[r := rec.(seen := st.records[st.pstate].seen)]), t, Serving(0, 0, 0)))
    case Serving(round, q, served) => Some(At(st, t, ServeNext(k, st, t, round, q, served)))
    case Applying(round, q, served, act) =>
      if q >= k.n then None else
      var e := Exec(q, act, st.requests[q].arg, k.f(st.records[r].data, st.requests[q].arg).1);
      Some(At(st.(records := st.records[r := Apply(k, st.records[r], q, e)], hist := st.hist + [e]),
              t, Marking(round, q, served, act)))
    case Marking(round, q, served, act) =>
      if q >= k.n then None else
      var rec := st.records[r];
      Some(At(st.(records := st.records[r := rec.(deactivate := rec.deactivate[q := act])]),
              t, Serving(round, q + 1, served + 1)))
    case _ => Some(st)
  }

  /** Whether the request of `q` is new, and where to go at the end of a round. */
  function ServeNext(k: Config, st: State, t: Tid, round: nat, q: Tid, served: nat): Pc
    requires Shaped(k, st) && t < k.n
  {
    if q >= k.n then
      if served == 0 || round + 1 >= k.rounds then Committing else Serving(round + 1, 0, 0)
    else if st.requests[q].activate > st.records[Mine(st, t)].deactivate[q] then
      Applying(round, q, served, st.requests[q].activate)
    else Serving(round, q + 1, served)
  }

  /** Publishing the copy, changing to the other record and releasing the lock. */
  function PublishStep(k: Config, st: State, t: Tid): Option<State>
    requires Shaped(k, st) && t < k.n
  {
    var r := Mine(st, t);
    match st.pcs[t]
    case Committing => Some(At(st.(pstate := r), t, Flipping))
    case Flipping => Some(At(st.(index := st.index[t := 1 - st.index[t]]), t, Unlocking(r)))
    case Unlocking(r') => Some(At(st.(lock := Lock(Some(r'), None)), t, Leaving(r')))
    case _ => Some(st)
  }

  /** Between taking the lock and releasing it. */
  predicate Holding(pc: Pc) {
    pc.Copying? || pc.Serving? || pc.Applying? || pc.Marking? || pc.Committing? || pc.Flipping? || pc.Unlocking?
  }

  predicate Publishing(pc: Pc) {
    pc.Committing? || pc.Flipping? || pc.Unlocking?
  }

  predicate Answering(pc: Pc) {
    pc.Checking? || pc.Fetching? || pc.Leaving? || pc.Returning?
  }

  /** One step; `None` is a panic. */
  function Step(k: Config, st: State, a: Action): Option<State>
    requires Shaped(k, st) && a.t < k.n
  {
    match a
    case Issue(t, arg) => Some(At(st, t, Registering(arg)))
    case Go(t) =>
      if Publishing(st.pcs[t]) then PublishStep(k, st, t)
      else if Holding(st.pcs[t]) then PerformStep(k, st, t)
      else if Answering(st.pcs[t]) then AnswerStep(k, st, t)
      else AskStep(k, st, t)
  }

  predicate Enabled(k: Config, st: State, a: Action)
    requires Shaped(k, st)
  {
    a.t < k.n && (a.Issue? <==> st.pcs[a.t].Idle?)
  }

  // The sequential meaning of a history

  function Front(h: seq<Exec>): seq<Exec>
    requires h != []
  {
    h[..|h| - 1]
  }

  /** The data after a history. */
  function Fold(k: Config, h: seq<Exec>): int {
    if h == [] then k.init else k.f(Fold(k, Front(h)), h[|h| - 1].arg).0
  }

  /** Thread `t`'s last execution. */
  function Last(h: seq<Exec>, t: Tid): Option<Exec> {
    if h == [] then None
    else if h[|h| - 1].t == t then Some(h[|h| - 1])
    else Last(Front(h), t)
  }

  /** How many requests of `t` have been executed, and the result of the last. */
  function Done(h: seq<Exec>, t: Tid): nat {
    match Last(h, t)
    case None => 0
    case Some(e) => e.k
  }

  function Result(h: seq<Exec>, t: Tid): int {
    match Last(h, t)
    case None => 0
    case Some(e) => e.ret
  }

  /** Execution `i` is the next request of its thread, with the result of the sequential operation. */
  ghost predicate LegalAt(k: Config, h: seq<Exec>, i: nat)
    requires i < |h|
  {
    h[i].k == Done(h[..i], h[i].t) + 1 && h[i].ret == k.f(Fold(k, h[..i]), h[i].arg).1
  }

  /** Each thread's requests are executed in turn, none twice, each with the result of the sequential operation. */
  ghost predicate Legal(k: Config, h: seq<Exec>) {
    forall i {:trigger LegalAt(k, h, i)} :: 0 <= i < |h| ==> LegalAt(k, h, i)
  }
}
