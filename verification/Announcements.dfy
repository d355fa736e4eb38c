/** The versions a thread announces along a run: when they are all different. */
module Announcements {
  import opened Options
  import opened DetectableCas

  predicate Announces(a: Action, i: Tid) {
    a.Update? && a.i == i
  }

  /** The versions thread `i` announces along the run, in order. */
  function Announced(st: State, acts: seq<Action>, i: Tid): seq<Ver>
    requires Shaped(st) && i < |st.pcs|
    decreases |acts|
  {
    if acts == [] then [] else
    var r := Step(st, acts[0]);
    if r.None? then [] else
    StepShaped(st, acts[0]);
    (if Announces(acts[0], i) then [Next(st.help[i][i])] else []) + Announced(r.value, acts[1..], i)
  }

  /** At every announcement the thread's entry is what the announcement before left there, the first time `last`. */
  predicate Undisturbed(st: State, acts: seq<Action>, i: Tid, last: Ver)
    requires Shaped(st) && i < |st.pcs|
    decreases |acts|
  {
    if acts == [] then true else
    var r := Step(st, acts[0]);
    if r.None? then true else
    StepShaped(st, acts[0]);
    if Announces(acts[0], i) then st.help[i][i] == last && Undisturbed(r.value, acts[1..], i, Next(last))
    else Undisturbed(r.value, acts[1..], i, last)
  }

  predicate Different(q: seq<Ver>) {
    forall m, n :: 0 <= m < n < |q| ==> q[m] != q[n]
  }

  /** The versions after `m` announcements in a row from zero: `1, 2, ..`, and zero at the end of the round. */
  function Row(m: nat): (q: seq<Ver>)
    ensures |q| == m && forall n :: 0 <= n < m ==> q[n] == (n + 1) % VERSIONS
  {
    seq(m, n requires n >= 0 => (n + 1) % VERSIONS)
  }

  /** One of the first `m` versions, or zero. */
  predicate Early(v: Ver, m: nat) {
    v <= m && v < VERSIONS
  }

  /** Every tag of thread `i` that it could still meet, and its entry, is early. */
  ghost predicate Within(st: State, i: Tid, m: nat)
    requires Shaped(st) && i < |st.pcs|
  {
    && Early(st.help[i][i], m)
    && (forall y :: 0 <= y < |st.cells| && st.cells[y].id == Some(i) ==> Early(st.cells[y].version, m))
    && PlaceWithin(st.pcs[i], i, m)
  }

  predicate PlaceWithin(pc: Pc, i: Tid, m: nat) {
    && (Pending(pc).Some? && Pending(pc).value.id == Some(i) ==> Early(Pending(pc).value.version, m))
    && (pc.Announced? || pc.Loaded? || pc.Helped? ==> Early(pc.v, m))
  }

  lemma NextEarly(v: Ver, m: nat)
    requires Early(v, m)
    ensures Early(Next(v), m + 1)
  {
  }

  lemma OtherWithin(st: State, a: Action, i: Tid, m: nat)
    requires Shaped(st) && i < |st.pcs| && Step(st, a).Some? && Within(st, i, m) && a.i != i
    ensures Shaped(Step(st, a).value) && |Step(st, a).value.pcs| == |st.pcs| && Within(Step(st, a).value, i, m)
  {
    BystanderFrame(st, a);
  }

  lemma OwnWithin(st: State, a: Action, i: Tid, m: nat)
    requires Shaped(st) && i < |st.pcs| && Step(st, a).Some? && Within(st, i, m) && a.i == i && !a.Update?
    ensures Shaped(Step(st, a).value) && |Step(st, a).value.pcs| == |st.pcs| && Within(Step(st, a).value, i, m)
  {
    StepShaped(st, a);
  }

  lemma UpdateWithin(st: State, a: Action, i: Tid, m: nat)
    requires Shaped(st) && i < |st.pcs| && Step(st, a).Some? && Within(st, i, m) && Announces(a, i)
    ensures Shaped(Step(st, a).value) && |Step(st, a).value.pcs| == |st.pcs| && Within(Step(st, a).value, i, m + 1)
  {
    StepShaped(st, a);
    NextEarly(st.help[i][i], m);
  }

  lemma StepWithin(st: State, a: Action, i: Tid, m: nat)
    requires Shaped(st) && i < |st.pcs| && Step(st, a).Some? && Within(st, i, m)
    ensures Shaped(Step(st, a).value) && |Step(st, a).value.pcs| == |st.pcs|
    ensures Within(Step(st, a).value, i, if Announces(a, i) then m + 1 else m)
  {
    if a.i != i {
      OtherWithin(st, a, i, m);
    } else if a.Update? {
      UpdateWithin(st, a, i, m);
    } else {
      OwnWithin(st, a, i, m);
    }
  }

  lemma RowDifferent(m: nat)
    requires m <= VERSIONS
    ensures Different(Row(m))
  {
    forall a, b | 0 <= a < b < m ensures Row(m)[a] != Row(m)[b] {
      assert a + 1 < VERSIONS ==> (a + 1) % VERSIONS == a + 1;
      assert b + 1 < VERSIONS ==> (b + 1) % VERSIONS == b + 1;
    }
  }

  /** Undisturbed announcements are the versions in a row. */
  lemma {:induction false} UndisturbedRow(st: State, acts: seq<Action>, i: Tid, m: nat)
    requires Shaped(st) && i < |st.pcs| && Undisturbed(st, acts, i, m % VERSIONS)
    ensures Row(m) + Announced(st, acts, i) == Row(m + |Announced(st, acts, i)|)
    decreases |acts|
  {
    if acts != [] && Step(st, acts[0]).Some? {
      StepShaped(st, acts[0]);
      var st' := Step(st, acts[0]).value;
      if Announces(acts[0], i) {
        NextIsRow(m);
        UndisturbedRow(st', acts[1..], i, m + 1);
        assert Row(m + 1) == Row(m) + [(m + 1) % VERSIONS];
        assert Announced(st, acts, i) == [(m + 1) % VERSIONS] + Announced(st', acts[1..], i);
      } else {
        UndisturbedRow(st', acts[1..], i, m);
      }
    }
  }

  lemma NextIsRow(m: nat)
    ensures Next(m % VERSIONS) == (m + 1) % VERSIONS
  {
  }

  lemma RowRepeats(m: nat, e: Ver, rest: seq<Ver>)
    requires e < m && e < VERSIONS
    ensures !Different(Row(m) + ([Next(e)] + rest))
  {
    var all := Row(m) + ([Next(e)] + rest);
    assert all[m] == Next(e) && all[e] == Row(m)[e];
  }

  lemma EarlyRepeats(m: nat, e: Ver, rest: seq<Ver>)
    requires Early(e, m) && m <= VERSIONS && Different(Row(m) + ([Next(e)] + rest))
    ensures e == m && m < VERSIONS
  {
    if e < m {
      RowRepeats(m, e, rest);
    }
  }

  lemma RowNext(m: nat, rest: seq<Ver>)
    ensures Row(m) + ([(m + 1) % VERSIONS] + rest) == Row(m + 1) + rest
  {
    assert Row(m + 1) == Row(m) + [(m + 1) % VERSIONS];
  }

  /** And nothing else is different throughout: a disturbed entry leads back into the row. */
  lemma {:induction false} DifferentRow(st: State, acts: seq<Action>, i: Tid, m: nat)
    requires Shaped(st) && i < |st.pcs| && Within(st, i, m) && m <= VERSIONS
    requires Different(Row(m) + Announced(st, acts, i))
    ensures Undisturbed(st, acts, i, m % VERSIONS) && m + |Announced(st, acts, i)| <= VERSIONS
    decreases |acts|
  {
    if acts != [] && Step(st, acts[0]).Some? {
      StepWithin(st, acts[0], i, m);
      var st' := Step(st, acts[0]).value;
      if Announces(acts[0], i) {
        var rest := Announced(st', acts[1..], i);
        assert Announced(st, acts, i) == [Next(st.help[i][i])] + rest;
        EarlyRepeats(m, st.help[i][i], rest);
        NextIsRow(m);
        RowNext(m, rest);
        DifferentRow(st', acts[1..], i, m + 1);
      } else {
        assert Announced(st, acts, i) == Announced(st', acts[1..], i);
        DifferentRow(st', acts[1..], i, m);
      }
    }
  }

  lemma InitWithin(cells: nat, threads: nat, i: Tid)
    requires i < threads
    ensures Shaped(Init(cells, threads)) && Within(Init(cells, threads), i, 0)
  {
  }

  /**
  Along any run from the start, of any number of threads and cells, the versions a thread announces are all different if
  and only if there are no more of them than there are versions and the thread makes each announcement with the entry
  that the one before left: no older tag of its own that it met in between has replaced it.
  */
  lemma DifferentIff(cells: nat, threads: nat, acts: seq<Action>, i: Tid)
    requires i < threads
    ensures Shaped(Init(cells, threads)) && |Init(cells, threads).pcs| == threads
    ensures var st := Init(cells, threads);
            Different(Announced(st, acts, i)) <==> |Announced(st, acts, i)| <= VERSIONS && Undisturbed(st, acts, i, 0)
  {
    var st := Init(cells, threads);
    var q := Announced(st, acts, i);
    InitWithin(cells, threads, i);
    assert Row(0) + q == q;
    if Different(q) {
      DifferentRow(st, acts, i, 0);
    }
    if |q| <= VERSIONS && Undisturbed(st, acts, i, 0) {
      UndisturbedRow(st, acts, i, 0);
      RowDifferent(|q|);
    }
  }
}
