/** A thread that runs alone gets its answer, from every state in which nobody else has the lock. */
module CombiningProgress {
  import opened Options
  import opened Combining
  import opened CombiningRuns

  /** Thread `t` takes `n` steps, and nobody else does anything. */
  ghost function Alone(k: Config, st: State, t: Tid, n: nat): Option<State>
    requires Shaped(k, st) && t < k.n
    decreases n
  {
    if n == 0 then Some(st) else
    match Step(k, st, Go(t))
    case None => None
    case Some(next) => if Shaped(k, next) then Alone(k, next, t, n - 1) else None
  }

  /** How far a thread is from its answer; below that, how far it is with copying or with its rounds. */
  function Phase(st: State, t: Tid): nat
    requires t < |st.pcs|
  {
    match st.pcs[t]
    case Idle => 0
    case Returning(_) => 1
    case Leaving(_) => 2
    case Fetching(_) => 2
    case Unlocking(_) => 3
    case Flipping => 4
    case Committing => 5
    case Serving(_, _, _) => 6
    case Applying(_, _, _, _) => 6
    case Marking(_, _, _, _) => 6
    case Copying(_) => 7
    case Locking(ptr) => if st.lock == Lock(ptr, None) then 8 else 12
    case Trying => 9
    case Checking(_) => 10
    case Waiting => 11
    case Activating => 13
    case Registering(_) => 14
  }

  function Before(limit: nat, i: nat): nat {
    if i < limit then limit - i else 0
  }

  /** Rounds or fields to go. */
  function Outer(k: Config, pc: Pc): nat {
    match pc
    case Copying(i) => Before(|k.order|, i)
    case Serving(round, _, _) => Before(k.rounds, round)
    case Applying(round, _, _, _) => Before(k.rounds, round)
    case Marking(round, _, _, _) => Before(k.rounds, round)
    case _ => 0
  }

  /** Threads to go in the round. */
  function Inner(k: Config, pc: Pc): nat {
    match pc
    case Serving(_, q, _) => Before(k.n, q)
    case Applying(_, q, _, _) => Before(k.n, q)
    case Marking(_, q, _, _) => Before(k.n, q)
    case _ => 0
  }

  /** Steps to go for the thread that is served. */
  function Part(pc: Pc): nat {
    if pc.Serving? then 2 else if pc.Applying? then 1 else 0
  }

  ghost predicate Nearer(k: Config, st: State, st': State, t: Tid)
    requires t < |st.pcs| && t < |st'.pcs|
  {
    var pc, pc' := st.pcs[t], st'.pcs[t];
    || Phase(st', t) < Phase(st, t)
    || (Phase(st', t) == Phase(st, t) && Outer(k, pc') < Outer(k, pc))
    || (Phase(st', t) == Phase(st, t) && Outer(k, pc') == Outer(k, pc) && Inner(k, pc') < Inner(k, pc))
    || (&& Phase(st', t) == Phase(st, t) && Outer(k, pc') == Outer(k, pc) && Inner(k, pc') == Inner(k, pc)
        && Part(pc') < Part(pc))
  }

  /** Nobody but thread `t` has the lock. */
  predicate Unhindered(st: State, t: Tid) {
    st.lock.holder.None? || st.lock.holder == Some(t)
  }

  ghost predicate NearerStep(k: Config, st: State, r: Option<State>, t: Tid)
    requires t < |st.pcs|
  {
    r.Some? ==> t < |r.value.pcs| && Nearer(k, st, r.value, t) && Unhindered(r.value, t)
  }

  lemma AskNearer(k: Config, st: State, t: Tid)
    requires Shaped(k, st) && t < k.n && Unhindered(st, t) && (st.lock.holder == Some(t) ==> Holding(st.pcs[t]))
    requires var pc := st.pcs[t]; !pc.Idle? && !Publishing(pc) && !Holding(pc) && !Answering(pc)
    ensures NearerStep(k, st, AskStep(k, st, t), t)
  {}

  lemma AnswerNearer(k: Config, st: State, t: Tid)
    requires Shaped(k, st) && t < k.n && Unhindered(st, t) && Answering(st.pcs[t])
    ensures NearerStep(k, st, AnswerStep(k, st, t), t)
  {}

  lemma PerformNearer(k: Config, st: State, t: Tid)
    requires Shaped(k, st) && t < k.n && Unhindered(st, t) && Holding(st.pcs[t]) && !Publishing(st.pcs[t])
    requires PcOK(k, st, t)
    ensures NearerStep(k, st, PerformStep(k, st, t), t)
  {}

  lemma PublishNearer(k: Config, st: State, t: Tid)
    requires Shaped(k, st) && t < k.n && Unhindered(st, t) && Publishing(st.pcs[t])
    ensures NearerStep(k, st, PublishStep(k, st, t), t)
  {}

  /** Every step of its own brings the thread nearer to its answer. */
  lemma StepNearer(k: Config, st: State, t: Tid)
    requires Inv(k, st) && t < k.n && !st.pcs[t].Idle? && Unhindered(st, t)
    ensures NearerStep(k, st, Step(k, st, Go(t)), t)
  {
    var pc := st.pcs[t];
    assert PcOK(k, st, t);
    if Publishing(pc) { PublishNearer(k, st, t); }
    else if Holding(pc) { PerformNearer(k, st, t); }
    else if Answering(pc) { AnswerNearer(k, st, t); }
    else { AskNearer(k, st, t); }
  }

  /** Running alone, the thread is idle again after finitely many steps. */
  lemma {:induction false} AloneReturns(k: Config, st: State, t: Tid) returns (n: nat)
    requires Inv(k, st) && t < k.n && Unhindered(st, t)
    ensures var r := Alone(k, st, t, n); r.Some? && t < |r.value.pcs| && r.value.pcs[t].Idle?
    decreases Phase(st, t), Outer(k, st.pcs[t]), Inner(k, st.pcs[t]), Part(st.pcs[t])
  {
    if st.pcs[t].Idle? {
      n := 0;
    } else {
      StepKeeps(k, st, Go(t));
      StepNearer(k, st, t);
      var m := AloneReturns(k, Step(k, st, Go(t)).value, t);
      n := m + 1;
    }
  }
}
