/** The rounds of a combiner: it goes through all requests again as long as that has found something, up to a limit. */
module CombiningRounds {
  import opened Options
  import opened Combining
  import opened CombiningRuns

  predicate Starts(st: State, t: Tid) {
    t < |st.pcs| && st.pcs[t].Serving? && st.pcs[t].q == 0 && st.pcs[t].served == 0
  }

  /** The last state up to `i` in which thread `t` starts a round. */
  ghost function RoundFrom(states: seq<State>, t: Tid, i: nat): (s: nat)
    requires i < |states|
    ensures s <= i
  {
    if i == 0 || Starts(states[i], t) then i else RoundFrom(states, t, i - 1)
  }

  /** What thread `t` has executed in its round, by its own count. */
  function Served(pc: Pc): Option<nat> {
    match pc
    case Serving(_, _, served) => Some(served)
    case Applying(_, _, served, _) => Some(served)
    case Marking(_, _, served, _) => Some(served + 1)
    case _ => None
  }

  /** The count is right: so much has been executed since the round started. */
  ghost predicate CountsRight(states: seq<State>, t: Tid, i: nat)
    requires i < |states|
  {
    t < |states[i].pcs| &&
    (Served(states[i].pcs[t]).Some? ==>
       |states[i].hist| == |states[RoundFrom(states, t, i)].hist| + Served(states[i].pcs[t]).value)
  }

  /** While a thread is performing requests, nobody else executes anything. */
  lemma OtherExecutesNothing(k: Config, st: State, a: Action, t: Tid)
    requires Shaped(k, st) && LockOK(k, st) && Enabled(k, st, a) && a.t != t && t < k.n && Step(k, st, a).Some?
    requires Served(st.pcs[t]).Some?
    ensures Step(k, st, a).value.hist == st.hist && Step(k, st, a).value.pcs[t] == st.pcs[t]
  {
    assert Holding(st.pcs[t]);
  }

  /** A step of its own executes one request where the count goes up, and none elsewhere. */
  lemma OwnCounts(k: Config, st: State, t: Tid)
    requires Shaped(k, st) && t < k.n && Step(k, st, Go(t)).Some? && !st.pcs[t].Idle?
    ensures var st' := Step(k, st, Go(t)).value;
            && t < |st'.pcs|
            && (Served(st'.pcs[t]).Some? && !Starts(st', t) ==>
                  Served(st.pcs[t]).Some?
                  && |st'.hist| - |st.hist| == Served(st'.pcs[t]).value - Served(st.pcs[t]).value)
  {
  }

  lemma RunStep(k: Config, states: seq<State>, acts: seq<Action>, j: nat)
    requires Complete(k) && ResultsFirst(k) && IsRun(k, states, acts) && j < |acts|
    ensures Shaped(k, states[j]) && LockOK(k, states[j]) && Enabled(k, states[j], acts[j])
    ensures Step(k, states[j], acts[j]) == Some(states[j + 1])
  {
    RunsKeep(k, states, acts, j);
    assert Enabled(k, states[j], acts[j]) && Step(k, states[j], acts[j]) == Some(states[j + 1]);
  }

  lemma CountsNext(k: Config, states: seq<State>, acts: seq<Action>, t: Tid, j: nat)
    requires Complete(k) && ResultsFirst(k) && IsRun(k, states, acts) && t < k.n && j < |acts|
    requires CountsRight(states, t, j)
    ensures CountsRight(states, t, j + 1)
  {
    RunStep(k, states, acts, j);
    if acts[j] == Go(t) {
      OwnCounts(k, states[j], t);
    } else if acts[j].t != t && Served(states[j].pcs[t]).Some? {
      OtherExecutesNothing(k, states[j], acts[j], t);
    }
  }

  lemma {:induction false} CountsAlong(k: Config, states: seq<State>, acts: seq<Action>, t: Tid, i: nat)
    requires Complete(k) && ResultsFirst(k) && IsRun(k, states, acts) && t < k.n && i < |states|
    ensures CountsRight(states, t, i)
    decreases i
  {
    if i > 0 {
      CountsAlong(k, states, acts, t, i - 1);
      CountsNext(k, states, acts, t, i - 1);
    }
  }

  /**
  At the end of a round a combiner starts another exactly when something has been executed since this one started and
  it has rounds left; otherwise it publishes.
  */
  lemma RoundsEnd(k: Config, states: seq<State>, acts: seq<Action>, t: Tid, i: nat)
    requires Complete(k) && ResultsFirst(k) && IsRun(k, states, acts) && t < k.n && i < |acts| && acts[i] == Go(t)
    requires t < |states[i].pcs| && states[i].pcs[t].Serving? && states[i].pcs[t].q >= k.n
    ensures t < |states[i + 1].pcs|
    ensures var round := states[i].pcs[t].round;
            var found := |states[i].hist| > |states[RoundFrom(states, t, i)].hist|;
            states[i + 1].pcs[t] == if found && round + 1 < k.rounds then Serving(round + 1, 0, 0) else Committing
  {
    CountsAlong(k, states, acts, t, i);
    RunStep(k, states, acts, i);
  }
}
