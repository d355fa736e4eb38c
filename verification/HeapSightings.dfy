/**
What a thread's own entry in the table of sightings says, along any run of the heap: the head, the bump pointer and the
counters of slabs share that one entry. It is the version announced last, or that of a tag of its own that the thread
has met since.
*/
module HeapSightings {
  import opened Options
  import opened Chains
  import opened Heap
  import opened HeapRuns
  import opened HeapTheorems
  import opened HeapVersions
  import opened Recovery
  import Cas = DetectableCas

  /** The tag of a cell, if thread `t` wrote it. */
  function Own<T>(cell: Cell<T>, t: Tid): Option<nat> {
    if cell.id == Some(t) then Some(cell.version) else None
  }

  function OwnRemote(st: State, s: Idx, t: Tid): Option<nat> {
    if s < |st.slabs| then Own(st.slabs[s].remote, t) else None
  }

  /**
  The version of the own tag that thread `t` meets in its next step. A step loads a cell when it starts an update or
  looks whether one is due, stores a counter, or fails to swap a cell that is not as the thread remembers it.
  */
  function Meets(st: State, t: Tid): Option<nat>
    requires t < |st.threads|
  {
    match st.threads[t].pc
    case GlobalEmpty(_) => Own(st.head, t)
    case GlobalLoad(_) => Own(st.head, t)
    case GlobalCas(_, seen, _) => if st.head == seen then None else Own(st.head, t)
    case BumpLoad(_) => Own(st.bump, t)
    case BumpCas(_, seen) => if st.bump == seen then None else Own(st.bump, t)
    case Refill(_) =>
      var head := st.threads[t].unsized.head;
      if head.Some? then OwnRemote(st, head.value, t) else None
    case Detach(_, s, _) => OwnRemote(st, s, t)
    case PushLoad(_) => Own(st.head, t)
    case PushCas(_, seen) => if st.head == seen then None else Own(st.head, t)
    case RemoteLoad(s, _) => OwnRemote(st, s, t)
    case RemoteCas(s, _, seen) => if s < |st.slabs| && st.slabs[s].remote == seen then None else OwnRemote(st, s, t)
    case _ => None
  }

  /** The entry after a step that finds it at `entry`. */
  function EntryAfter(st: State, t: Tid, entry: nat): nat
    requires t < |st.threads|
  {
    if Meets(st, t).Some? then Meets(st, t).value
    else if Announcing(st.threads[t].pc) then Cas.Next(entry)
    else entry
  }

  ghost predicate Sights(st: State, r: Option<State>, t: Tid)
    requires t < |st.threads|
  {
    r.Some? ==>
      && t < |r.value.threads|
      && var th, th' := st.threads[t], r.value.threads[t];
         && th'.entry == EntryAfter(st, t, th.entry)
         && th'.version == if Announcing(th.pc) then Cas.Next(th.entry) else th.version
  }

  lemma PopSights(st: State, t: Tid)
    requires t < |st.threads|
    ensures Sights(st, StepPop(st, t), t)
  {}

  lemma AdoptSights(k: Config, st: State, t: Tid)
    requires t < |st.threads|
    ensures Sights(st, StepAdopt(k, st, t), t)
  {}

  lemma ClaimSights(st: State, t: Tid)
    requires t < |st.threads|
    ensures Sights(st, StepClaim(st, t), t)
  {}

  lemma BumpSights(k: Config, st: State, t: Tid)
    requires t < |st.threads|
    ensures Sights(st, StepBump(k, st, t), t)
  {}

  lemma ServeSights(k: Config, st: State, t: Tid)
    requires Shaped(k, st) && t < |st.threads|
    ensures Sights(st, StepServe(k, st, t), t)
  {}

  lemma LetGoSights(k: Config, st: State, t: Tid)
    requires Shaped(k, st) && t < |st.threads|
    ensures Sights(st, StepLetGo(k, st, t), t)
  {}

  lemma ReturnSights(k: Config, st: State, t: Tid)
    requires Shaped(k, st) && t < |st.threads|
    ensures Sights(st, StepReturn(k, st, t), t)
  {}

  lemma RemoteSights(st: State, t: Tid)
    requires t < |st.threads|
    ensures Sights(st, StepRemote(st, t), t)
  {}

  lemma PushSights(k: Config, st: State, t: Tid)
    requires Shaped(k, st) && t < |st.threads|
    ensures Sights(st, StepPush(k, st, t), t)
  {}

  lemma ThreadSights(k: Config, st: State, t: Tid)
    requires Shaped(k, st) && t < |st.threads|
    ensures Sights(st, StepThread(k, st, t), t)
  {
    var pc := st.threads[t].pc;
    if IsPopping(pc) { PopSights(st, t); }
    else if IsAdopting(pc) { AdoptSights(k, st, t); }
    else if IsClaiming(pc) { ClaimSights(st, t); }
    else if IsBumping(pc) { BumpSights(k, st, t); }
    else if IsServing(pc) { ServeSights(k, st, t); }
    else if IsLettingGo(pc) { LetGoSights(k, st, t); }
    else if IsReturning(pc) { ReturnSights(k, st, t); }
    else if IsCountingOff(pc) { RemoteSights(st, t); }
    else if !pc.Idle? { PushSights(k, st, t); }
  }

  /** The entry and the version of thread `t` change by its own steps alone. */
  lemma StepSights(k: Config, st: State, a: Action, t: Tid)
    requires Shaped(k, st) && Enabled(k, st, a) && Step(k, st, a).Some? && t < |st.threads|
    ensures var st' := Step(k, st, a).value;
            && t < |st'.threads|
            && if a == Continue(t) then Sights(st, Some(st'), t)
               else st'.threads[t].entry == st.threads[t].entry && st'.threads[t].version == st.threads[t].version
  {
    if a.Continue? {
      ThreadSame(k, st, a.t);
      ThreadSights(k, st, a.t);
    }
  }

  // Along a run

  /** The own tag that thread `t` meets in an action: none if it is another thread's. */
  function MetIn(st: State, a: Action, t: Tid): Option<nat> {
    if a == Continue(t) && t < |st.threads| then Meets(st, t) else None
  }

  ghost predicate MetAt(states: seq<State>, actions: seq<Action>, t: Tid, q: seq<Option<nat>>, j: nat)
    requires j < |q| && j < |actions| && j < |states|
  {
    q[j] == MetIn(states[j], actions[j], t)
  }

  /** `q` has what thread `t` meets in every step of the run. */
  ghost predicate Meetings(states: seq<State>, actions: seq<Action>, t: Tid, q: seq<Option<nat>>) {
    && |q| == |actions| < |states|
    && forall j {:trigger MetAt(states, actions, t, q, j)} :: 0 <= j < |q| ==> MetAt(states, actions, t, q, j)
  }

  /** What the thread has met last in steps `m` up to `i`. */
  function LastMet(q: seq<Option<nat>>, m: nat, i: nat): Option<nat>
    requires m <= i <= |q|
  {
    if i == m then None else if q[i - 1].Some? then q[i - 1] else LastMet(q, m, i - 1)
  }

  predicate Announces(st: State, a: Action, t: Tid) {
    a == Continue(t) && t < |st.threads| && Announcing(st.threads[t].pc)
  }

  /** Step `m` is the last before state `i` in which thread `t` starts an update. */
  ghost predicate AnnouncedAt(states: seq<State>, actions: seq<Action>, t: Tid, m: nat, i: nat) {
    && m < i <= |actions| < |states| && Announces(states[m], actions[m], t)
    && forall j :: m < j < i ==> !Announces(states[j], actions[j], t)
  }

  lemma AnnouncedBefore(states: seq<State>, actions: seq<Action>, t: Tid, m: nat, j: nat)
    requires AnnouncedAt(states, actions, t, m, j + 1) && m < j
    ensures AnnouncedAt(states, actions, t, m, j) && !Announces(states[j], actions[j], t)
  {
  }

  /** The entry of thread `t`, given what it has met last. */
  predicate EntryIs(st: State, t: Tid, version: nat, met: Option<nat>) {
    && t < |st.threads| && st.threads[t].version == version
    && st.threads[t].entry == if met.Some? then met.value else version
  }

  lemma EntryStarts(k: Config, st: State, a: Action, t: Tid)
    requires Shaped(k, st) && Enabled(k, st, a) && Step(k, st, a).Some? && Announces(st, a, t)
    ensures EntryIs(Step(k, st, a).value, t, Cas.Next(st.threads[t].entry), Meets(st, t))
  {
    StepSights(k, st, a, t);
  }

  lemma EntryGoesOn(k: Config, st: State, a: Action, t: Tid, version: nat, met: Option<nat>)
    requires Shaped(k, st) && Enabled(k, st, a) && Step(k, st, a).Some? && !Announces(st, a, t)
    requires EntryIs(st, t, version, met)
    ensures var now := if a == Continue(t) && Meets(st, t).Some? then Meets(st, t) else met;
            EntryIs(Step(k, st, a).value, t, version, now)
  {
    StepSights(k, st, a, t);
  }

  lemma EntryFirst(k: Config, n: nat, states: seq<State>, actions: seq<Action>, t: Tid, q: seq<Option<nat>>, m: nat)
    requires IsRun(k, n, states, actions) && Meetings(states, actions, t, q)
    requires m < |actions| && Announces(states[m], actions[m], t)
    ensures EntryIs(states[m + 1], t, Cas.Next(states[m].threads[t].entry), q[m])
  {
    assert Leads(k, states[m], actions[m], states[m + 1]);
    assert MetAt(states, actions, t, q, m);
    EntryStarts(k, states[m], actions[m], t);
  }

  lemma EntryNext(k: Config, n: nat, states: seq<State>, actions: seq<Action>, t: Tid, q: seq<Option<nat>>,
                  version: nat, j: nat, met: Option<nat>)
    requires IsRun(k, n, states, actions) && Meetings(states, actions, t, q)
    requires j < |actions| && !Announces(states[j], actions[j], t) && EntryIs(states[j], t, version, met)
    ensures EntryIs(states[j + 1], t, version, if q[j].Some? then q[j] else met)
  {
    assert Leads(k, states[j], actions[j], states[j + 1]);
    assert MetAt(states, actions, t, q, j);
    EntryGoesOn(k, states[j], actions[j], t, version, met);
  }

  /**
  In an update the entry is the version announced, unless the thread has met a tag of its own since: then it is that of
  the last one.
  */
  lemma {:induction false} EntrySince(k: Config, n: nat, states: seq<State>, actions: seq<Action>, t: Tid,
                                      q: seq<Option<nat>>, m: nat, i: nat)
    requires IsRun(k, n, states, actions) && Meetings(states, actions, t, q) && AnnouncedAt(states, actions, t, m, i)
    ensures t < |states[m].threads|
    ensures EntryIs(states[i], t, Cas.Next(states[m].threads[t].entry), LastMet(q, m, i))
    decreases i
  {
    if i == m + 1 {
      EntryFirst(k, n, states, actions, t, q, m);
      assert LastMet(q, m, m) == None;
    } else {
      AnnouncedBefore(states, actions, t, m, i - 1);
      EntrySince(k, n, states, actions, t, q, m, i - 1);
      EntryNext(k, n, states, actions, t, q, Cas.Next(states[m].threads[t].entry), i - 1, LastMet(q, m, i - 1));
    }
  }

  lemma InitEntry(k: Config, n: nat, t: Tid)
    requires t < n
    ensures EntryIs(Init(k, n), t, 0, None)
  {
  }

  /** Before its first update the entry is zero, or that of the last own tag the thread has met. */
  lemma {:induction false} EntryBefore(k: Config, n: nat, states: seq<State>, actions: seq<Action>, t: Tid,
                                       q: seq<Option<nat>>, i: nat)
    requires IsRun(k, n, states, actions) && Meetings(states, actions, t, q) && t < n && i <= |actions|
    requires forall j :: 0 <= j < i ==> !Announces(states[j], actions[j], t)
    ensures EntryIs(states[i], t, 0, LastMet(q, 0, i))
    decreases i
  {
    if i == 0 {
      InitEntry(k, n, t);
    } else {
      EntryBefore(k, n, states, actions, t, q, i - 1);
      EntryNext(k, n, states, actions, t, q, 0, i - 1, LastMet(q, 0, i - 1));
    }
  }

  /** A log that names a version names that of the update in progress. */
  lemma LogNames(k: Config, st: State, t: Tid)
    requires LogsOK(k, st) && t < |st.threads| && st.threads[t].log.Some? && Detects(st.threads[t].log.value)
    ensures st.threads[t].log.value.version == st.threads[t].version
  {
    assert LogOK(k, st.threads[t]);
  }

  /**
  After a crash anywhere in an update of any of the cells, the announcement that `detect` asserts is gone, and recovery
  panics whatever it is told, exactly when the last tag of its own that the thread has met since is of another version.
  */
  lemma AnnouncementLostIff(k: Config, n: nat, states: seq<State>, actions: seq<Action>, t: Tid, q: seq<Option<nat>>,
                            m: nat, i: nat)
    requires ValidConfig(k) && IsRun(k, n, states, actions) && NoStalePop(states, actions)
    requires Meetings(states, actions, t, q) && AnnouncedAt(states, actions, t, m, i) && t < |states[i].threads|
    requires Recoverable(states[i].threads[t].log) && Detects(states[i].threads[t].log.value)
    ensures var met := LastMet(q, m, i);
            !Announced(states[i].threads[t]) <==> met.Some? && met.value != states[i].threads[t].version
    ensures !Announced(states[i].threads[t]) ==> forall detected, b :: Recover(k, states[i], t, detected, b).None?
  {
    EntrySince(k, n, states, actions, t, q, m, i);
    RunsLog(k, n, states, actions, i);
    LogNames(k, states[i], t);
  }
}
