/** When a lookup answers with the wrong descriptor, and what holds on all runs on which none does. */
module HugeLookups {
  import opened Options
  import opened Claims
  import opened Huge
  import opened HugeInvariant
  import opened HugeStores
  import opened HugeRefines
  import HugeRuns

  // One look at the whole list

  /** The search stops at position `k` exactly when nothing before it contains the offset. */
  lemma {:induction false} FindInFirst(descs: seq<Desc>, list: seq<Did>, k: nat, x: nat)
    requires (forall i :: 0 <= i < |list| ==> list[i] < |descs|) && Distinct(list)
    requires k < |list| && Contains(descs[list[k]], x)
    ensures FindIn(descs, list, x) == Some(list[k]) <==> forall i :: 0 <= i < k ==> !Contains(descs[list[i]], x)
    decreases |list|
  {
    if k > 0 {
      var rest := list[1..];
      assert forall i :: 0 <= i < |rest| ==> rest[i] == list[i + 1];
      FindInFirst(descs, rest, k - 1, x);
      if !Contains(descs[list[0]], x) && FindIn(descs, rest, x) == Some(list[k]) {
        assert forall i :: 0 < i < k ==> rest[i - 1] == list[i];
      }
    }
  }

  /** Descriptor `e` is between the stores of its offset and its size, and covers `x` with the old size. */
  predicate Covers(st: Machine, e: Did, x: nat) {
    Between(st, e) && Contains(st.mem.descs[e], x)
  }

  /** Such a descriptor comes before descriptor `d` in the list of its owner. */
  ghost predicate Hidden(st: Machine, d: Did, x: nat)
    requires d < |st.mem.descs|
  {
    var t := st.mem.descs[d].owner;
    && t < |st.mem.threads|
    && var list := st.mem.threads[t].list;
       exists i, j :: 0 <= i < j < |list| && list[j] == d && Covers(st, list[i], x)
  }

  lemma HolderAt(st: Machine, d: Did, x: nat) returns (t: Tid, j: nat)
    requires Sound(st) && d < |st.mem.descs| && Holds(ViewOf(st, d)) && Contains(ViewOf(st, d), x)
    ensures t == st.mem.descs[d].owner == ViewOf(st, d).owner < |st.work|
    ensures Lookup(st.mem.claims, x) == Some(t) && ThreadOK(Abs(st), t)
    ensures j < |st.mem.threads[t].list| && st.mem.threads[t].list[j] == d
  {
    OwnerSame(st, d);
    t := st.mem.descs[d].owner;
    assert DescOK(Abs(st), d) && ThreadOK(Abs(st), t);
    LookupOwner(st.mem.claims, x);
    j :| 0 <= j < |st.mem.threads[t].list| && st.mem.threads[t].list[j] == d;
  }

  /** What covers `x` before its holder is being made smaller. */
  lemma CoversShrinks(st: Machine, t: Tid, i: nat, j: nat, x: nat)
    requires Sound(st) && t < |st.work| && i < j < |st.mem.threads[t].list|
    requires st.mem.threads[t].list[i] < |st.mem.descs| && st.mem.threads[t].list[j] < |st.mem.descs|
    requires var it := ViewOf(st, st.mem.threads[t].list[j]); Holds(it) && Contains(it, x)
    ensures var e := st.mem.threads[t].list[i];
            Contains(st.mem.descs[e], x) <==> Covers(st, e, x) && ViewOf(st, e).size < st.mem.descs[e].size
  {
    if !Mixed(st, st.mem.threads[t].list[i]) {
      NoFalseHit(st, t, i, j, x);
    }
  }

  /**
  `find` on what is in memory answers wrongly exactly when a thread is between the stores of the offset and the size of
  a descriptor that comes before the holder and covers `x` with the new offset and the old size; it never does when
  overwriting makes no range smaller.
  */
  lemma FindWrongIff(st: Machine, d: Did, x: nat)
    requires Sound(st) && d < |st.mem.descs| && !Rewriting(st, d)
    requires Holds(ViewOf(st, d)) && Contains(ViewOf(st, d), x)
    ensures Find(st.mem, x) != Some(d) <==> Hidden(st, d, x)
    ensures Hidden(st, d, x) ==> exists e: Did :: Covers(st, e, x) && ViewOf(st, e).size < st.mem.descs[e].size
  {
    var t, j := HolderAt(st, d, x);
    var list := st.mem.threads[t].list;
    FindInFirst(st.mem.descs, list, j, x);
    forall i | 0 <= i < j
      ensures Contains(st.mem.descs[list[i]], x) <==>
              Covers(st, list[i], x) && ViewOf(st, list[i]).size < st.mem.descs[list[i]].size
    {
      CoversShrinks(st, t, i, j, x);
    }
    if Hidden(st, d, x) {
      var i, k :| 0 <= i < k < |list| && list[k] == d && Covers(st, list[i], x);
      assert k == j;
    }
  }

  // A lookup on its own

  /** Thread `t` takes `n` steps of its work, and nobody else does anything. */
  function Alone(st: Machine, t: Tid, n: nat): Option<Machine>
    requires t < |st.mem.threads| && t < |st.work|
    decreases n
  {
    if n == 0 then Some(st) else
    match WorkStep(st, t)
    case None => None
    case Some(next) => if t < |next.mem.threads| && t < |next.work| then Alone(next, t, n - 1) else None
  }

  /** Where a lookup ends that has found descriptor `d`. */
  function After(st: Machine, t: Tid, look: Look, d: Did): Machine
    requires t < |st.mem.threads| && t < |st.work|
  {
    if look.free then Machine(SetPc(st.mem, t, Freeing(d)), st.work[t := Idle])
    else st.(work := st.work[t := Mapping(look, d)])
  }

  /** The loads one by one give what `find` gives at once, when nobody else does anything. */
  lemma {:induction false} LookAlone(st: Machine, t: Tid) returns (n: nat)
    requires t < |st.mem.threads| && t < |st.work| && st.work[t].Walking?
    requires forall i :: 0 <= i < |st.work[t].rest| ==> st.work[t].rest[i] < |st.mem.descs|
    requires FindIn(st.mem.descs, st.work[t].rest, st.work[t].look.x).Some?
    ensures var w := st.work[t];
            Alone(st, t, n) == Some(After(st, t, w.look, FindIn(st.mem.descs, w.rest, w.look.x).value))
    decreases |st.work[t].rest|
  {
    var w := st.work[t];
    var s1 := WalkStep(st, t).value;
    if Contains(st.mem.descs[w.rest[0]], w.look.x) {
      n := 2;
      var s2 := CompareStep(s1, t).value;
      assert Alone(s2, t, 0) == Some(s2) && Alone(s1, t, 1) == Alone(s2, t, 0);
      assert st.work[t := s1.work[t]][t := s2.work[t]] == st.work[t := s2.work[t]];
    } else {
      var s := if s1.work[t].Walking? then s1 else CompareStep(s1, t).value;
      assert s.work == st.work[t := Walking(w.look, w.rest[1..])];
      var m := LookAlone(s, t);
      n := if s1.work[t].Walking? then m + 1 else m + 2;
      assert s1.work[t].Comparing? ==> Alone(s1, t, m + 1) == Alone(s, t, m);
      var d := FindIn(st.mem.descs, w.rest, w.look.x).value;
      assert After(s, t, w.look, d).work == After(st, t, w.look, d).work;
    }
  }

  // Runs

  ghost predicate Moves(st: Machine, a: Action, st': Machine) {
    Allowed(st, a) && Act(st, a) == Some(st')
  }

  ghost predicate IsRun(states: seq<Machine>, acts: seq<Action>, threads: nat) {
    && |states| == |acts| + 1
    && states[0] == Begin(threads)
    && forall n :: 0 <= n < |acts| ==> Moves(states[n], acts[n], states[n + 1])
  }

  lemma RunGrows(states: seq<Machine>, acts: seq<Action>, threads: nat, a: Action, st: Machine)
    requires IsRun(states, acts, threads) && Moves(states[|acts|], a, st)
    ensures IsRun(states + [st], acts + [a], threads)
  {
    var states', acts' := states + [st], acts + [a];
    forall n | 0 <= n < |acts'| ensures Moves(states'[n], acts'[n], states'[n + 1]) {
      if n < |acts| {
        assert Moves(states[n], acts[n], states[n + 1]);
      }
    }
  }

  /** No lookup takes the wrong descriptor. */
  ghost predicate NoTornLook(states: seq<Machine>, acts: seq<Action>, n: nat) {
    forall m :: 0 <= m < n && m < |acts| && m < |states| ==> !Torn(states[m], acts[m].t)
  }

  lemma BeginSound(threads: nat)
    ensures Sound(Begin(threads)) && Abs(Begin(threads)) == Huge.Init(threads)
  {
    var st := Begin(threads);
    IsAbs(st, Huge.Init(threads));
    HugeRuns.InitKeeps(threads);
    forall t | 0 <= t < |st.work| ensures WorkOK(st, t) && RefreshOK(st, t) {
    }
  }

  lemma {:induction false} RunsKeep(states: seq<Machine>, acts: seq<Action>, threads: nat, n: nat)
    requires IsRun(states, acts, threads) && n < |states| && NoTornLook(states, acts, n)
    ensures Sound(states[n])
  {
    if n == 0 {
      BeginSound(threads);
    } else {
      var m := n - 1;
      RunsKeep(states, acts, threads, m);
      assert Moves(states[m], acts[m], states[m + 1]);
      StepRefines(states[m], acts[m]);
    }
  }

  /** A state of a run of `Huge`. */
  ghost predicate Reached(a: Huge.State, threads: nat) {
    exists states, acts :: HugeRuns.IsRun(states, acts, threads) && states[|acts|] == a
  }

  lemma ReachedNext(a: Huge.State, b: Option<Action>, a': Huge.State, threads: nat)
    requires Reached(a, threads) && Refines(a, b, a')
    ensures Reached(a', threads)
  {
    if b.Some? {
      var states, acts :| HugeRuns.IsRun(states, acts, threads) && states[|acts|] == a;
      var states', acts' := states + [a'], acts + [b.value];
      forall n | 0 <= n < |acts'|
        ensures Huge.Enabled(states'[n], acts'[n]) && Huge.Step(states'[n], acts'[n]) == Some(states'[n + 1])
      {
        if n < |acts| {
          assert states'[n] == states[n] && states'[n + 1] == states[n + 1] && acts'[n] == acts[n];
        }
      }
      assert HugeRuns.IsRun(states', acts', threads) && states'[|acts'|] == a';
    }
  }

  /** Every run on which no lookup is torn is, seen through `Abs`, a run of `Huge`. */
  lemma {:induction false} RunsRefine(states: seq<Machine>, acts: seq<Action>, threads: nat, n: nat)
    requires IsRun(states, acts, threads) && n < |states| && NoTornLook(states, acts, n)
    ensures Reached(Abs(states[n]), threads)
  {
    if n == 0 {
      BeginSound(threads);
      assert HugeRuns.IsRun([Huge.Init(threads)], [], threads);
    } else {
      var m := n - 1;
      RunsRefine(states, acts, threads, m);
      RunsKeep(states, acts, threads, m);
      assert Moves(states[m], acts[m], states[m + 1]);
      StepRefines(states[m], acts[m]);
      ReachedNext(Abs(states[m]), Meaning(states[m], acts[m]), Abs(states[n]), threads);
    }
  }

  // One size

  predicate Asks(pc: Pc, size: nat) {
    match pc
    case Reusing(n, _, _, _) => n == size
    case Taking(n, _) => n == size
    case Refreshing(_, back) => Asks(back, size)
    case _ => true
  }

  predicate Even(st: Machine, t: Tid, size: nat)
    requires t < |st.work|
  {
    match st.work[t]
    case Storing(_, target, _) => target.size == size
    case Comparing(_, rest, _, was, whole) => was == size && whole
    case _ => true
  }

  ghost predicate SameSize(mem: Huge.State, size: nat) {
    && (forall d :: 0 <= d < |mem.descs| ==> mem.descs[d].size == size)
    && (forall t {:trigger Asks(mem.threads[t].pc, size)} :: 0 <= t < |mem.threads| ==> Asks(mem.threads[t].pc, size))
  }

  /** Every range has the same size. */
  ghost predicate OneSize(st: Machine, size: nat) {
    && |st.work| == |st.mem.threads| && SameSize(st.mem, size)
    && (forall t {:trigger Even(st, t, size)} :: 0 <= t < |st.work| ==> Even(st, t, size))
  }

  lemma OneSizeNotTorn(st: Machine, t: Tid, size: nat)
    requires OneSize(st, size) && t < |st.work|
    ensures !Torn(st, t) && (st.work[t].Walking? && st.work[t].rest != [] ==> !Mixed(st, st.work[t].rest[0]))
  {
    assert Even(st, t, size);
    if st.work[t].Walking? && st.work[t].rest != [] && Between(st, st.work[t].rest[0]) {
      assert Even(st, st.mem.descs[st.work[t].rest[0]].owner, size);
    }
  }

  lemma OneSizeWork(st: Machine, t: Tid, size: nat)
    requires OneSize(st, size) && t < |st.work| && !st.work[t].Idle? && WorkStep(st, t).Some?
    ensures OneSize(WorkStep(st, t).value, size)
  {
    var st' := WorkStep(st, t).value;
    OneSizeNotTorn(st, t, size);
    assert Even(st, t, size) && Asks(st.mem.threads[t].pc, size);
    forall u | 0 <= u < |st'.work| ensures Even(st', u, size) && Asks(st'.mem.threads[u].pc, size) {
      assert Even(st, u, size) && Asks(st.mem.threads[u].pc, size);
    }
  }

  lemma SameSizeStays(mem: Huge.State, a: Action, size: nat)
    requires SameSize(mem, size) && a.t < |mem.threads| && (a.Go? || a.Refresh? || (a.Allocate? && a.size == size))
    requires Huge.Step(mem, a).Some?
    ensures SameSize(Huge.Step(mem, a).value, size) && |Huge.Step(mem, a).value.threads| == |mem.threads|
  {
    var mem' := Huge.Step(mem, a).value;
    assert Asks(mem.threads[a.t].pc, size);
    forall u | 0 <= u < |mem'.threads| ensures Asks(mem'.threads[u].pc, size) {
      assert Asks(mem.threads[u].pc, size);
    }
  }

  lemma OneSizeLook(st: Machine, t: Tid, x: nat, free: bool, size: nat)
    requires OneSize(st, size) && t < |st.work| && LookStep(st, t, x, free).Some?
    ensures OneSize(LookStep(st, t, x, free).value, size)
  {
    var st' := LookStep(st, t, x, free).value;
    forall u | 0 <= u < |st'.work| ensures Even(st', u, size) && Asks(st'.mem.threads[u].pc, size) {
      assert Even(st, u, size) && Asks(st.mem.threads[u].pc, size);
    }
  }

  lemma OneSizeOver(st: Machine, t: Tid, size: nat)
    requires OneSize(st, size) && Overwrites(st, Go(t)) && Act(st, Go(t)).Some?
    ensures OneSize(Act(st, Go(t)).value, size)
  {
    var st' := Act(st, Go(t)).value;
    assert Asks(st.mem.threads[t].pc, size);
    forall u | 0 <= u < |st'.work| ensures Even(st', u, size) && Asks(st'.mem.threads[u].pc, size) {
      assert Even(st, u, size) && Asks(st.mem.threads[u].pc, size);
    }
  }

  lemma OneSizeStays(st: Machine, a: Action, size: nat)
    requires OneSize(st, size) && Allowed(st, a) && Act(st, a).Some? && (a.Allocate? ==> a.size == size)
    ensures OneSize(Act(st, a).value, size)
  {
    if !st.work[a.t].Idle? {
      OneSizeWork(st, a.t, size);
    } else if Overwrites(st, a) {
      OneSizeOver(st, a.t, size);
    } else if Plain(st, a) {
      PlainStep(st, a);
      SameSizeStays(st.mem, a, size);
      forall u | 0 <= u < |st.work| ensures Even(Act(st, a).value, u, size) {
        assert Even(st, u, size);
      }
    } else {
      OneSizeLook(st, a.t, a.x, a.Release?, size);
    }
  }

  /** No lookup is torn on a run on which every allocation is of the same size. */
  lemma {:induction false} OneSizeRuns(states: seq<Machine>, acts: seq<Action>, threads: nat, size: nat, n: nat)
    requires IsRun(states, acts, threads) && n < |states|
    requires forall m :: 0 <= m < |acts| && acts[m].Allocate? ==> acts[m].size == size
    ensures OneSize(states[n], size) && NoTornLook(states, acts, n + 1)
  {
    if n > 0 {
      var m := n - 1;
      OneSizeRuns(states, acts, threads, size, m);
      assert Moves(states[m], acts[m], states[m + 1]);
      OneSizeStays(states[m], acts[m], size);
    }
    if n < |acts| {
      assert Moves(states[n], acts[n], states[n + 1]);
      OneSizeNotTorn(states[n], acts[n].t, size);
    }
  }
}
