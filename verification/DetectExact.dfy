/** `detect` in full: when it is right on every continuation, without panicking, and read by read. */
module DetectExact {
  import opened Options
  import opened DetectableCas

  // Right answers on every continuation

  /** After `acts`, `detect` does not panic and says that the update took effect exactly when it did. */
  ghost predicate RightAfter(st: State, acts: seq<Action>, i: Tid, x: nat, v: Ver)
    requires Shaped(st) && i < |st.pcs| && x < |st.cells| && Run(st, acts).Some?
  {
    Detect(Run(st, acts).value, i, x, v) == Some(Won(st, acts, i, x, v))
  }

  ghost predicate Right(st: State, i: Tid, x: nat, v: Ver)
    requires Shaped(st) && i < |st.pcs| && x < |st.cells|
  {
    forall acts :: AllMind(acts, i, x) && Run(st, acts).Some? ==> RightAfter(st, acts, i, x, v)
  }

  /** No cell at all carries a tag of thread `i`. */
  ghost predicate NoTag(st: State, i: Tid) {
    forall y :: 0 <= y < |st.cells| ==> st.cells[y].id != Some(i)
  }

  /** The announcement is in place, and before the update takes effect there is nothing that could overwrite it. */
  ghost predicate Safe(st: State, i: Tid, v: Ver, won: bool)
    requires Shaped(st) && i < |st.pcs|
  {
    && st.help[i][i] == v
    && (!won ==> NoTag(st, i) && (Pending(st.pcs[i]).Some? ==> Pending(st.pcs[i]).value.id != Some(i)))
  }

  lemma OtherSafe(st: State, a: Action, i: Tid, v: Ver, won: bool)
    requires Shaped(st) && i < |st.pcs| && Safe(st, i, v, won) && Step(st, a).Some? && a.i != i
    ensures Shaped(Step(st, a).value) && |Step(st, a).value.pcs| == |st.pcs| && Safe(Step(st, a).value, i, v, won)
  {
    BystanderFrame(st, a);
  }

  lemma OwnSafe(st: State, a: Action, i: Tid, x: nat, v: Ver, won: bool)
    requires Watched(st, i, x, v, won) && Safe(st, i, v, won) && Step(st, a).Some? && a.i == i && Minds(a, i, x)
    ensures Shaped(Step(st, a).value) && |Step(st, a).value.pcs| == |st.pcs|
    ensures Safe(Step(st, a).value, i, v, won || Wins(st, a, i, x, v))
  {
    StepShaped(st, a);
  }

  lemma {:induction false} RunSafe(st: State, acts: seq<Action>, i: Tid, x: nat, v: Ver, won: bool)
    requires Watched(st, i, x, v, won) && Safe(st, i, v, won) && AllMind(acts, i, x) && Run(st, acts).Some?
    ensures Safe(Run(st, acts).value, i, v, won || Won(st, acts, i, x, v))
    decreases |acts|
  {
    if acts != [] {
      var a := acts[0];
      if a.i == i {
        OwnKeeps(st, a, i, x, v, won);
        OwnSafe(st, a, i, x, v, won);
      } else {
        OtherKeeps(st, a, i, x, v, won);
        OtherSafe(st, a, i, v, won);
      }
      RunSafe(Step(st, a).value, acts[1..], i, x, v, won || Wins(st, a, i, x, v));
    }
  }

  lemma NoTagIsRight(st: State, i: Tid, x: nat, v: Ver)
    requires Fresh(st, i, x, v) && NoTag(st, i)
    ensures Right(st, i, x, v)
  {
    DetectIsExact(st, i, x, v);
    forall acts | AllMind(acts, i, x) && Run(st, acts).Some? ensures RightAfter(st, acts, i, x, v) {
      RunSafe(st, acts, i, x, v, false);
      assert Answers(st, acts, i, x, v);
    }
  }

  /** A thread that meets an older tag of its own on the cell records it over its announcement. */
  lemma OwnTagPanics(st: State, i: Tid, x: nat, v: Ver)
    requires Fresh(st, i, x, v) && st.cells[x].id == Some(i)
    ensures !Right(st, i, x, v)
  {
    var acts := [Load(i)] + [Help(i)];
    var s1 := Step(st, Load(i)).value;
    RunOne(st, Load(i), i, x, v);
    RunOne(s1, Help(i), i, x, v);
    RunConcat(st, [Load(i)], [Help(i)]);
    assert Run(st, acts).value.help[i][i] == st.cells[x].version;
    assert AllMind(acts, i, x) && !RightAfter(st, acts, i, x, v);
  }

  /**
  From a fresh announcement on, and while another thread is idle, `detect` answers right and does not panic on every
  continuation if and only if no cell, this one included, carries a tag of the thread.
  */
  lemma RightIff(st: State, i: Tid, x: nat, v: Ver)
    requires Fresh(st, i, x, v)
    requires exists j :: 0 <= j < |st.pcs| && j != i && st.pcs[j].Ready?
    ensures Right(st, i, x, v) <==> NoTag(st, i)
  {
    if NoTag(st, i) {
      NoTagIsRight(st, i, x, v);
    } else if st.cells[x].id == Some(i) {
      OwnTagPanics(st, i, x, v);
    } else {
      var y :| 0 <= y < |st.cells| && st.cells[y].id == Some(i);
      var j :| 0 <= j < |st.pcs| && j != i && st.pcs[j].Ready?;
      DetectCanFail(st, i, j, x, y, v);
      var acts :| AllMind(acts, i, x) && Run(st, acts).Some? && !Answers(st, acts, i, x, v);
      assert !RightAfter(st, acts, i, x, v);
    }
  }

  /** From the start: updating the same cell a second time is enough for `detect` to panic. */
  lemma DetectPanics(cells: nat, threads: nat, x: nat, i: Tid) returns (st: State)
    requires x < cells && i < threads
    ensures Shaped(Init(cells, threads)) && Run(Init(cells, threads), Whole(i, x) + [Update(i, x)]) == Some(st)
    ensures |st.pcs| == threads && |st.cells| == cells && Fresh(st, i, x, 2) && OnlyOn(st, i, x)
    ensures var r := Run(st, [Load(i)] + [Help(i)]); r.Some? && Detect(r.value, i, x, 2).None?
  {
    var s0 := Init(cells, threads);
    var s1 := WholeRun(s0, i, x, i, 0);
    StartRun(s1, i, x, i, x, 0);
    RunConcat(s0, Whole(i, x), [Update(i, x)]);
    st := Run(s1, [Update(i, x)]).value;
    var s2 := Step(st, Load(i)).value;
    RunOne(st, Load(i), i, x, 2);
    RunOne(s2, Help(i), i, x, 2);
    RunConcat(st, [Load(i)], [Help(i)]);
  }

  // When the announcement is lost

  /** The action has thread `i` record a tag of its own. */
  predicate MeetsOwn(st: State, a: Action, i: Tid) {
    a == Help(i) && i < |st.pcs| && Pending(st.pcs[i]).Some? && Pending(st.pcs[i]).value.id == Some(i)
  }

  /** Somewhere along the run it does. */
  predicate Met(st: State, acts: seq<Action>, i: Tid)
    requires Shaped(st)
    decreases |acts|
  {
    if acts == [] then false else
    var r := Step(st, acts[0]);
    r.Some? && (MeetsOwn(st, acts[0], i) || (StepShaped(st, acts[0]); Met(r.value, acts[1..], i)))
  }

  /** What thread `i` can know of its own tags before its update has taken effect: only older ones. */
  ghost predicate Older(st: State, i: Tid, x: nat, v: Ver, won: bool) {
    && Shaped(st) && i < |st.pcs| && x < |st.cells|
    && Watchee(st.pcs[i], x, v, won)
    && (!won ==> !Tagged(st.cells[x], i, v))
    && (Pending(st.pcs[i]).Some? ==> !Tagged(Pending(st.pcs[i]).value, i, v))
  }

  lemma StepOlder(st: State, a: Action, i: Tid, x: nat, v: Ver, won: bool)
    requires Older(st, i, x, v, won) && Step(st, a).Some? && Minds(a, i, x)
    ensures Older(Step(st, a).value, i, x, v, won || Wins(st, a, i, x, v))
    ensures var st' := Step(st, a).value;
            if MeetsOwn(st, a, i) then st'.help[i][i] != v else st'.help[i][i] == st.help[i][i]
  {
    StepShaped(st, a);
    if a.i != i {
      BystanderFrame(st, a);
    }
  }

  lemma {:induction false} RunOlder(st: State, acts: seq<Action>, i: Tid, x: nat, v: Ver, won: bool)
    requires Older(st, i, x, v, won) && AllMind(acts, i, x) && Run(st, acts).Some?
    ensures Run(st, acts).value.help[i][i] == v <==> st.help[i][i] == v && !Met(st, acts, i)
    decreases |acts|
  {
    if acts != [] {
      StepOlder(st, acts[0], i, x, v, won);
      RunOlder(Step(st, acts[0]).value, acts[1..], i, x, v, won || Wins(st, acts[0], i, x, v));
    }
  }

  /** From a fresh announcement on, `detect` panics exactly when the thread has met a tag of its own since. */
  lemma AnnouncementLostIff(st: State, acts: seq<Action>, i: Tid, x: nat, v: Ver)
    requires Fresh(st, i, x, v) && AllMind(acts, i, x) && Run(st, acts).Some?
    ensures Detect(Run(st, acts).value, i, x, v).None? <==> Met(st, acts, i)
  {
    RunOlder(st, acts, i, x, v, false);
  }

  // The scan, read by read

  /** How many rows from `r` on show the version; before each is read, other threads take the steps of one segment. */
  function ScanFrom(st: State, i: Tid, v: Ver, r: nat, segs: seq<seq<Action>>): Option<nat>
    requires Shaped(st) && i < |st.pcs|
    decreases |segs|
  {
    if r >= |st.pcs| then Some(0)
    else if segs == [] then None
    else
      var s := Run(st, segs[0]);
      if s.None? then None else
      var rest := ScanFrom(s.value, i, v, r + 1, segs[1..]);
      if rest.None? then None else Some(rest.value + if s.value.help[r][i] == v then 1 else 0)
  }

  /** `detect` with other threads moving between the assertion, the load of the cell and the reads of the table. */
  function DetectScan(st: State, i: Tid, x: nat, v: Ver, before: seq<Action>, segs: seq<seq<Action>>): Option<bool>
    requires Shaped(st) && i < |st.pcs| && x < |st.cells|
  {
    if st.help[i][i] != v then None else
    var s := Run(st, before);
    if s.None? then None
    else if Tagged(s.value.cells[x], i, v) then Some(true)
    else
      var count := ScanFrom(s.value, i, v, 0, segs);
      if count.None? then None else Some(count.value > 1)
  }

  /** Nothing of a crashed thread changes any more. */
  lemma {:induction false} RunCrashed(st: State, acts: seq<Action>, i: Tid, x: nat, v: Ver)
    requires Shaped(st) && i < |st.pcs| && st.pcs[i].Crashed? && Run(st, acts).Some?
    ensures Run(st, acts).value.pcs[i].Crashed? && Run(st, acts).value.help[i] == st.help[i]
    ensures !Won(st, acts, i, x, v)
    decreases |acts|
  {
    if acts != [] {
      BystanderFrame(st, acts[0]);
      RunCrashed(Step(st, acts[0]).value, acts[1..], i, x, v);
    }
  }

  /** Whoever has recorded the tag keeps it. */
  lemma {:induction false} RunRemembers(st: State, acts: seq<Action>, i: Tid, x: nat, v: Ver, j: Tid)
    requires Watched(st, i, x, v, true) && st.pcs[i].Crashed? && AllMind(acts, i, x) && Run(st, acts).Some?
    requires Remembers(st, j, i, v)
    ensures Remembers(Run(st, acts).value, j, i, v)
    decreases |acts|
  {
    if acts != [] {
      var a := acts[0];
      BystanderFrame(st, a);
      BystanderRecords(st, a, i, x, v);
      OtherKeeps(st, a, i, x, v, true);
      RunRemembers(Step(st, a).value, acts[1..], i, x, v, j);
    }
  }

  ghost predicate AllSegsMind(segs: seq<seq<Action>>, i: Tid, x: nat) {
    forall n :: 0 <= n < |segs| ==> AllMind(segs[n], i, x)
  }

  /** If the update has not taken effect, only the thread's own row shows the version. */
  lemma {:induction false} ScanMisses(st: State, i: Tid, x: nat, v: Ver, r: nat, segs: seq<seq<Action>>)
    requires Watched(st, i, x, v, false) && st.pcs[i].Crashed? && AllSegsMind(segs, i, x)
    ensures var n := ScanFrom(st, i, v, r, segs); n.Some? ==> n.value <= if r <= i then 1 else 0
    decreases |segs|
  {
    if r < |st.pcs| && segs != [] && Run(st, segs[0]).Some? {
      assert AllMind(segs[0], i, x);
      RunKeeps(st, segs[0], i, x, v, false);
      RunCrashed(st, segs[0], i, x, v);
      var s := Run(st, segs[0]).value;
      assert AllSegsMind(segs[1..], i, x);
      ScanMisses(s, i, x, v, r + 1, segs[1..]);
      assert r != i ==> Bystander(s.pcs[r], s.help[r][i], i, x, v, false);
    }
  }

  /** What the scan relies on once the update has taken effect. */
  ghost predicate Seen(st: State, i: Tid, x: nat, v: Ver, j: Tid) {
    Watched(st, i, x, v, true) && st.pcs[i].Crashed? && st.help[i][i] == v && Remembers(st, j, i, v)
  }

  lemma SeenStays(st: State, acts: seq<Action>, i: Tid, x: nat, v: Ver, j: Tid) returns (s: State)
    requires Seen(st, i, x, v, j) && AllMind(acts, i, x) && Run(st, acts).Some?
    ensures s == Run(st, acts).value && Shaped(s) && |s.pcs| == |st.pcs| && Seen(s, i, x, v, j)
    ensures i != j && j < |s.pcs| && s.help[i][i] == v && s.help[j][i] == v
  {
    s := Run(st, acts).value;
    RunKeeps(st, acts, i, x, v, true);
    RunCrashed(st, acts, i, x, v);
    RunRemembers(st, acts, i, x, v, j);
  }

  /** If it has and the cell does not show it, the scan meets the row of somebody who recorded it. */
  lemma {:induction false} ScanMeets(st: State, i: Tid, x: nat, v: Ver, r: nat, segs: seq<seq<Action>>, j: Tid)
    requires Shaped(st) && i < |st.pcs| && Seen(st, i, x, v, j) && AllSegsMind(segs, i, x)
    ensures var n := ScanFrom(st, i, v, r, segs);
            n.Some? ==> n.value >= (if r <= i then 1 else 0) + (if r <= j then 1 else 0)
    decreases |segs|
  {
    if r < |st.pcs| && segs != [] && Run(st, segs[0]).Some? {
      assert AllMind(segs[0], i, x);
      var s := SeenStays(st, segs[0], i, x, v, j);
      assert AllSegsMind(segs[1..], i, x);
      ScanMeets(s, i, x, v, r + 1, segs[1..], j);
    }
  }

  lemma ScanTells(st: State, i: Tid, x: nat, v: Ver, won: bool, before: seq<Action>, segs: seq<seq<Action>>)
    requires Watched(st, i, x, v, won) && st.pcs[i].Crashed? && st.help[i][i] == v
    requires AllMind(before, i, x) && AllSegsMind(segs, i, x)
    ensures var r := DetectScan(st, i, x, v, before, segs); r.Some? ==> r == Some(won)
  {
    if Run(st, before).Some? {
      RunKeeps(st, before, i, x, v, won);
      RunCrashed(st, before, i, x, v);
      var s := Run(st, before).value;
      assert CellOK(s.cells[x], x, i, x, v, won);
      if !won {
        ScanMisses(s, i, x, v, 0, segs);
      } else if s.cells[x].id != Some(i) {
        var j: nat :| Remembers(s, j, i, v);
        ScanMeets(s, i, x, v, 0, segs, j);
      }
    }
  }

  /**
  Exactness for the code's own order of reads: from a fresh announcement on a cell, with no tag of the thread on
  another, wherever the thread crashes, and whatever others do before and between the reads of `detect`.
  */
  lemma ScanIsExact(st: State, acts: seq<Action>, i: Tid, x: nat, v: Ver, before: seq<Action>, segs: seq<seq<Action>>)
    requires Fresh(st, i, x, v) && OnlyOn(st, i, x) && AllMind(acts, i, x) && Run(st, acts).Some?
    requires Run(st, acts).value.pcs[i].Crashed? && AllMind(before, i, x) && AllSegsMind(segs, i, x)
    ensures var st' := Run(st, acts).value;
            var r := DetectScan(st', i, x, v, before, segs);
            && (r.Some? ==> r == Some(Won(st, acts, i, x, v)))
            && (st'.help[i][i] != v ==> r.None?)
  {
    RunKeeps(st, acts, i, x, v, false);
    if Run(st, acts).value.help[i][i] == v {
      ScanTells(Run(st, acts).value, i, x, v, Won(st, acts, i, x, v), before, segs);
    }
  }
}
