/**
A hazard array while another thread looks for an offset in it. The owner stores entry by entry and the length last;
the other thread loads the length and then one entry after the other. The owner fills a hole with its last entry, and
so can carry an offset from where the scan has not been to where it has been already.
*/
module HazardScan {
  import opened Options

  /** `Growing` has stored the new entry; `Moved` has stored the last entry over `o`, `Cleared` has cleared the last. */
  datatype Owner = Quiet | Growing | Moved(o: nat, index: nat) | Cleared(o: nat)

  datatype Scan = Off | Looking(o: nat, n: nat, i: nat) | Done(o: nat, found: bool)

  datatype State = State(entries: seq<Option<nat>>, len: nat, owner: Owner, scan: Scan)

  datatype Action = Insert(o: nat) | Remove(o: nat) | OwnerGo | Look(o: nat) | ScanGo

  function Init(capacity: nat): State {
    State(seq(capacity, _ => None), 0, Quiet, Off)
  }

  /** Position of an offset among the first `n` entries, or `n`. */
  function Position(entries: seq<Option<nat>>, n: nat, o: nat): (p: nat)
    requires n <= |entries|
    ensures p <= n && (p < n ==> entries[p] == Some(o))
    ensures forall j :: 0 <= j < p ==> entries[j] != Some(o)
  {
    if n == 0 then 0
    else
      var p := Position(entries, n - 1, o);
      if p < n - 1 || entries[n - 1] == Some(o) then p else n
  }

  function OwnerStep(st: State): Option<State> {
    match st.owner
    case Quiet => Some(st)
    case Growing => Some(st.(len := st.len + 1, owner := Quiet))
    case Moved(o, _) =>
      if 0 < st.len <= |st.entries|
      then Some(st.(entries := st.entries[st.len - 1 := None], owner := Cleared(o)))
      else None
    case Cleared(_) => if st.len > 0 then Some(st.(len := st.len - 1, owner := Quiet)) else None
  }

  function ScanStep(st: State): Option<State> {
    match st.scan
    case Looking(o, n, i) =>
      if i >= n then Some(st.(scan := Done(o, false)))
      else if i >= |st.entries| then None
      else if st.entries[i] == Some(o) then Some(st.(scan := Done(o, true)))
      else Some(st.(scan := Looking(o, n, i + 1)))
    case _ => Some(st)
  }

  /** One step; `None` is a panic. */
  function Step(st: State, a: Action): Option<State> {
    match a
    case Insert(o) =>
      if st.len >= |st.entries| then None
      else Some(st.(entries := st.entries[st.len := Some(o)], owner := Growing))
    case Remove(o) =>
      if st.len > |st.entries| then None else
      var p := Position(st.entries, st.len, o);
      if p == st.len then Some(st)
      else Some(st.(entries := st.entries[p := st.entries[st.len - 1]], owner := Moved(o, p)))
    case OwnerGo => OwnerStep(st)
    case Look(o) => Some(st.(scan := Looking(o, st.len, 0)))
    case ScanGo => ScanStep(st)
  }

  predicate At(st: State, j: nat, o: nat) {
    j < st.len && j < |st.entries| && st.entries[j] == Some(o)
  }

  /** The owner inserts what is not there, one operation at a time. */
  ghost predicate Enabled(st: State, a: Action) {
    match a
    case Insert(o) => st.owner.Quiet? && forall j: nat :: !At(st, j, o)
    case Remove(o) => st.owner.Quiet?
    case OwnerGo => !st.owner.Quiet?
    case Look(o) => !st.scan.Looking?
    case ScanGo => st.scan.Looking?
  }

  ghost predicate IsRun(states: seq<State>, acts: seq<Action>, capacity: nat) {
    && |states| == |acts| + 1 && states[0] == Init(capacity)
    && forall n :: 0 <= n < |acts| ==> Enabled(states[n], acts[n]) && Step(states[n], acts[n]) == Some(states[n + 1])
  }

  /** Offset `o` is in the array and not being removed. */
  ghost predicate Held(st: State, o: nat) {
    && (exists j: nat :: At(st, j, o))
    && !(st.owner.Moved? && st.owner.o == o) && !(st.owner.Cleared? && st.owner.o == o)
  }

  /** Entries are unique, but for the last one while it is being moved. */
  ghost predicate Inv(st: State) {
    && st.len <= |st.entries|
    && (st.owner.Growing? ==> st.len < |st.entries| && st.entries[st.len].Some? &&
                              forall j: nat :: !At(st, j, st.entries[st.len].value))
    && (st.owner.Moved? ==> st.owner.index < st.len && st.entries[st.owner.index] == st.entries[st.len - 1])
    && (st.owner.Cleared? ==> st.len > 0 && st.entries[st.len - 1].None? && forall j: nat :: !At(st, j, st.owner.o))
    && (forall i: nat, j: nat, o: nat :: At(st, i, o) && At(st, j, o) && i < j ==>
          st.owner.Moved? && i == st.owner.index && j == st.len - 1)
    && (st.owner.Moved? ==> forall j: nat :: At(st, j, st.owner.o) ==> j == st.owner.index == st.len - 1)
    && (forall j :: st.len <= j < |st.entries| ==> st.entries[j].None? || (st.owner.Growing? && j == st.len))
    && (st.scan.Looking? ==> st.scan.n <= |st.entries|)
  }

  lemma RemoveKeeps(st: State, o: nat)
    requires Inv(st) && Enabled(st, Remove(o))
    ensures Step(st, Remove(o)).Some?
    ensures var st' := Step(st, Remove(o)).value; Inv(st') && |st'.entries| == |st.entries|
  {
    var st' := Step(st, Remove(o)).value;
    if st' != st {
      var p := st'.owner.index;
      assert At(st, p, o);
      assert forall j: nat, q: nat :: At(st', j, q) ==> if j == p then At(st, st.len - 1, q) else At(st, j, q);
    }
  }

  lemma OwnerKeeps(st: State)
    requires Inv(st) && OwnerStep(st).Some?
    ensures var st' := OwnerStep(st).value; Inv(st') && |st'.entries| == |st.entries|
  {
    var st' := OwnerStep(st).value;
    if st.owner.Growing? {
      assert forall j: nat, q: nat :: At(st', j, q) ==> At(st, j, q) || (j == st.len && st.entries[st.len] == Some(q));
    } else {
      assert forall j: nat, q: nat :: At(st', j, q) ==> At(st, j, q);
    }
  }

  lemma StepKeeps(st: State, a: Action)
    requires Inv(st) && Enabled(st, a) && Step(st, a).Some?
    ensures Inv(Step(st, a).value) && |Step(st, a).value.entries| == |st.entries|
  {
    match a
    case Remove(o) => RemoveKeeps(st, o);
    case OwnerGo => OwnerKeeps(st);
    case _ => assert forall j: nat, q: nat :: At(Step(st, a).value, j, q) <==> At(st, j, q);
  }

  lemma {:induction false} RunsKeep(states: seq<State>, acts: seq<Action>, capacity: nat, n: nat)
    requires IsRun(states, acts, capacity) && n < |states|
    ensures Inv(states[n])
  {
    if n > 0 {
      RunsKeep(states, acts, capacity, n - 1);
      assert Enabled(states[n - 1], acts[n - 1]) && Step(states[n - 1], acts[n - 1]) == Some(states[n - 1 + 1]);
      StepKeeps(states[n - 1], acts[n - 1]);
    }
  }

  // What a scan can miss

  /** Offset `o` is not where the scan has still to look, or the scan has ended without it. */
  ghost predicate Lost(st: State, o: nat) {
    match st.scan
    case Off => false
    case Looking(q, n, i) => q == o && forall j: nat :: i <= j < n ==> !At(st, j, o)
    case Done(q, found) => q == o && !found
  }

  /** The owner clears its last entry, which has `o`, having copied it to where the scan has been already. */
  ghost predicate Jumps(st: State, a: Action, o: nat) {
    && a.OwnerGo? && st.owner.Moved? && st.scan.Looking? && st.scan.o == o && st.owner.index < st.scan.i < st.len
    && At(st, st.len - 1, o)
  }

  /** The scan is one for `o`, and has loaded a length above every position of `o`. */
  ghost predicate Scanning(st: State, o: nat) {
    match st.scan
    case Off => false
    case Looking(q, n, _) => q == o && forall j: nat :: At(st, j, o) ==> j < n
    case Done(q, _) => q == o
  }

  lemma StepScans(st: State, a: Action, o: nat)
    requires Inv(st) && Enabled(st, a) && Step(st, a).Some? && !a.Look? && Scanning(st, o)
    requires Held(st, o) && Held(Step(st, a).value, o)
    ensures Scanning(Step(st, a).value, o)
  {
    var st' := Step(st, a).value;
    if a.Remove? && st' != st {
      assert forall j: nat :: At(st', j, o) ==> if j == st'.owner.index then At(st, st.len - 1, o) else At(st, j, o);
    } else if a.OwnerGo? && st.owner.Growing? {
      assert forall j: nat :: At(st', j, o) ==> At(st, j, o) || (j == st.len && st.entries[st.len] == Some(o));
    } else {
      assert forall j: nat :: At(st', j, o) ==> At(st, j, o);
    }
  }

  lemma StepLost(st: State, a: Action, o: nat)
    requires Inv(st) && Enabled(st, a) && Step(st, a).Some? && !a.Look? && Scanning(st, o)
    requires Held(st, o) && Held(Step(st, a).value, o)
    ensures Lost(Step(st, a).value, o) <==> Lost(st, o) || Jumps(st, a, o)
  {
    var st' := Step(st, a).value;
    if a.Remove? && st' != st {
      var p := st'.owner.index;
      assert At(st, p, a.o);
      assert forall j: nat :: At(st', j, o) <==> if j == p then At(st, st.len - 1, o) else At(st, j, o);
    } else if a.OwnerGo? && st.owner.Moved? {
      assert forall j: nat :: At(st', j, o) <==> At(st, j, o) && j != st.len - 1;
      if At(st, st.len - 1, o) {
        assert At(st, st.owner.index, o);
      }
    } else if a.OwnerGo? && st.owner.Cleared? {
      assert forall j: nat :: At(st', j, o) <==> At(st, j, o);
    } else if !a.ScanGo? {
      assert forall j: nat :: At(st', j, o) <==> At(st, j, o);
    } else {
      assert forall j: nat :: At(st', j, o) <==> At(st, j, o);
      if st.scan.i < st.scan.n {
        assert At(st, st.scan.i, o) <==> st.entries[st.scan.i] == Some(o);
      }
    }
  }

  /** From the start of a scan for `o` to here, `o` has been in the array all the time. */
  ghost predicate HeldSince(states: seq<State>, acts: seq<Action>, s: nat, m: nat, o: nat) {
    && s < m < |states| == |acts| + 1 && acts[s] == Look(o)
    && (forall k :: s < k < m ==> !acts[k].Look?)
    && (forall k :: s <= k <= m ==> Held(states[k], o))
  }

  ghost predicate JumpedSince(states: seq<State>, acts: seq<Action>, s: nat, m: nat, o: nat)
    requires m < |states| == |acts| + 1
  {
    exists k :: s < k < m && Jumps(states[k], acts[k], o)
  }

  /**
  A scan misses an offset that has been in the array all the time exactly when its owner, filling a hole, has carried
  the offset past it.
  */
  lemma {:induction false} LostIff(states: seq<State>, acts: seq<Action>, capacity: nat, s: nat, m: nat, o: nat)
    requires IsRun(states, acts, capacity) && HeldSince(states, acts, s, m, o)
    ensures Scanning(states[m], o)
    ensures Lost(states[m], o) <==> JumpedSince(states, acts, s, m, o)
    decreases m
  {
    var k := m - 1;
    assert Enabled(states[k], acts[k]) && Step(states[k], acts[k]) == Some(states[k + 1]);
    RunsKeep(states, acts, capacity, k);
    if k == s {
      var j: nat :| At(states[s], j, o);
      assert At(states[m], j, o);
    } else {
      LostIff(states, acts, capacity, s, k, o);
      StepScans(states[k], acts[k], o);
      StepLost(states[k], acts[k], o);
    }
  }

  /** The answer of a scan for an offset that has been there all the time. */
  lemma ContainsIff(states: seq<State>, acts: seq<Action>, capacity: nat, s: nat, m: nat, o: nat)
    requires IsRun(states, acts, capacity) && HeldSince(states, acts, s, m, o) && states[m].scan.Done?
    ensures states[m].scan == Done(o, !JumpedSince(states, acts, s, m, o))
  {
    LostIff(states, acts, capacity, s, m, o);
  }

  /** A scan on which the owner removes nothing misses nothing. */
  lemma NoRemovalNoLoss(states: seq<State>, acts: seq<Action>, capacity: nat, s: nat, m: nat, o: nat)
    requires IsRun(states, acts, capacity) && HeldSince(states, acts, s, m, o) && states[m].scan.Done?
    requires forall k :: s < k < m ==> !states[k].owner.Moved?
    ensures states[m].scan == Done(o, true)
  {
    ContainsIff(states, acts, capacity, s, m, o);
  }

  // A run on which it happens

  function Schedule(a: nat, b: nat): seq<Action> {
    [Insert(a), OwnerGo, Insert(b), OwnerGo, Look(b), ScanGo, Remove(a), OwnerGo, OwnerGo, ScanGo, ScanGo]
  }

  function After(capacity: nat, a: nat, b: nat): seq<State>
    requires capacity >= 2
  {
    var none := seq(capacity, _ => None);
    var one, two, moved := none[0 := Some(a)], none[0 := Some(a)][1 := Some(b)], none[0 := Some(b)][1 := Some(b)];
    var left := none[0 := Some(b)];
    [State(none, 0, Quiet, Off), State(one, 0, Growing, Off), State(one, 1, Quiet, Off), State(two, 1, Growing, Off),
     State(two, 2, Quiet, Off), State(two, 2, Quiet, Looking(b, 2, 0)), State(two, 2, Quiet, Looking(b, 2, 1)),
     State(moved, 2, Moved(a, 0), Looking(b, 2, 1)), State(left, 2, Cleared(a), Looking(b, 2, 1)),
     State(left, 1, Quiet, Looking(b, 2, 1)), State(left, 1, Quiet, Looking(b, 2, 2)),
     State(left, 1, Quiet, Done(b, false))]
  }

  /**
  The owner has `a` and `b` and removes `a` while somebody looks for `b`. The scan has read `a`, and then finds nothing
  where `b` was, although `b` has been in the array all the time.
  */
  lemma MissesHeld(capacity: nat, a: nat, b: nat)
    requires capacity >= 2 && a != b
    ensures IsRun(After(capacity, a, b), Schedule(a, b), capacity)
    ensures HeldSince(After(capacity, a, b), Schedule(a, b), 4, 11, b)
    ensures After(capacity, a, b)[11].scan == Done(b, false)
  {
    var states, acts := After(capacity, a, b), Schedule(a, b);
    assert states[0] == Init(capacity);
    var two := states[6].entries;
    assert Position(two, 2, a) == 0;
    assert two[0 := two[1]] == states[7].entries;
    assert states[7].entries[1 := None] == states[8].entries;
    forall n | 0 <= n < 11 ensures Enabled(states[n], acts[n]) && Step(states[n], acts[n]) == Some(states[n + 1]) {
    }
    forall k | 4 <= k <= 11 ensures Held(states[k], b) {
      assert At(states[k], if k < 8 then 1 else 0, b);
    }
  }
}
