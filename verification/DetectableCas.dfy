/**
Detectable compare-and-swap: cells tagged with the writer and a version, and a table in which every thread
records, for every other, the tag it saw last. After a crash, `detect` decides from the two whether the
crashed thread's last compare-and-swap took effect.

Several cells share the table. Each access to a cell or to the table is one step, and versions are 16 bits wide.
*/
module DetectableCas {
  import opened Options

  type Tid = nat
  type Ver = nat

  const VERSIONS := 65536

  /** `Version::next`, which wraps around. */
  function Next(v: Ver): Ver { (v + 1) % VERSIONS }

  datatype Cell = Cell(id: Option<Tid>, version: Ver, inner: int)

  predicate Tagged(c: Cell, i: Tid, v: Ver) {
    c.id == Some(i) && c.version == v
  }

  /** Where a thread is: in `load`, in `store`, or in the loop of `update` on cell `x` with version `v`. */
  datatype Pc =
    | Ready
    | Reading(x: nat, seen: Cell)
    | Announced(x: nat, v: Ver)
    | Loaded(x: nat, v: Ver, seen: Cell)
    | Helped(x: nat, v: Ver, seen: Cell)
    | Storing(x: nat, seen: Cell)
    | Writing(x: nat)
    | Crashed

  datatype State = State(cells: seq<Cell>, help: seq<seq<Ver>>, pcs: seq<Pc>)

  /**
  `Update` starts an update, `Cas` tries to put what the closure returned, `Abandon` is a closure that returns nothing.
  `Store` starts a store and `Put` ends it, whatever is in the cell by then.
  */
  datatype Action =
    | Read(i: Tid, x: nat)
    | Update(i: Tid, x: nat)
    | Load(i: Tid)
    | Help(i: Tid)
    | Cas(i: Tid, new_: int)
    | Abandon(i: Tid)
    | Store(i: Tid, x: nat)
    | Put(i: Tid, new_: int)
    | Crash(i: Tid)

  predicate Shaped(st: State) {
    |st.help| == |st.pcs| && forall i :: 0 <= i < |st.help| ==> |st.help[i]| == |st.pcs|
  }

  function SetHelp(st: State, i: Tid, j: Tid, v: Ver): State
    requires Shaped(st) && i < |st.pcs| && j < |st.pcs|
  {
    var row: seq<Ver> := st.help[i][j := v];
    st.(help := st.help[i := row])
  }

  /** `help`: record the tag that was seen, whosever it is. */
  function Record(st: State, i: Tid, seen: Cell): State
    requires Shaped(st) && i < |st.pcs|
  {
    if seen.id.Some? && seen.id.value < |st.pcs| then SetHelp(st, i, seen.id.value, seen.version) else st
  }

  function Go(st: State, i: Tid, pc: Pc): State
    requires i < |st.pcs|
  {
    st.(pcs := st.pcs[i := pc])
  }

  /** One step; `None` when the action does not apply. */
  function Step(st: State, a: Action): Option<State>
    requires Shaped(st)
  {
    if a.i >= |st.pcs| then None else
    var pc := st.pcs[a.i];
    match a
    case Read(i, x) => if pc.Ready? && x < |st.cells| then Some(Go(st, i, Reading(x, st.cells[x]))) else None
    case Update(i, x) =>
      if pc.Ready? && x < |st.cells| then
        var v := Next(st.help[i][i]);
        Some(Go(SetHelp(st, i, i, v), i, Announced(x, v)))
      else None
    case Load(i) =>
      if pc.Announced? && pc.x < |st.cells| then Some(Go(st, i, Loaded(pc.x, pc.v, st.cells[pc.x]))) else None
    case Help(i) =>
      if pc.Reading? then Some(Go(Record(st, i, pc.seen), i, Ready))
      else if pc.Loaded? then Some(Go(Record(st, i, pc.seen), i, Helped(pc.x, pc.v, pc.seen)))
      else if pc.Storing? then Some(Go(Record(st, i, pc.seen), i, Writing(pc.x)))
      else None
    case Cas(i, new_) =>
      if !pc.Helped? || pc.x >= |st.cells| then None
      else if st.cells[pc.x] == pc.seen then
        Some(Go(st.(cells := st.cells[pc.x := Cell(Some(i), pc.v, new_)]), i, Ready))
      else Some(Go(st, i, Loaded(pc.x, pc.v, st.cells[pc.x])))
    case Abandon(i) => if pc.Helped? then Some(Go(st, i, Ready)) else None
    case Store(i, x) => if pc.Ready? && x < |st.cells| then Some(Go(st, i, Storing(x, st.cells[x]))) else None
    case Put(i, new_) =>
      if pc.Writing? && pc.x < |st.cells| then
        Some(Go(st.(cells := st.cells[pc.x := Cell(Some(i), 0, new_)]), i, Ready))
      else None
    case Crash(i) => if pc.Crashed? then None else Some(Go(st, i, Crashed))
  }

  lemma StepShaped(st: State, a: Action)
    requires Shaped(st) && Step(st, a).Some?
    ensures Shaped(Step(st, a).value) && |Step(st, a).value.pcs| == |st.pcs| && |Step(st, a).value.cells| == |st.cells|
  {
  }

  /** How many threads have version `v` in their entry for thread `i`. */
  function Count(help: seq<seq<Ver>>, i: Tid, v: Ver): nat {
    if help == [] then 0 else Count(help[1..], i, v) + (if i < |help[0]| && help[0][i] == v then 1 else 0)
  }

  /**
  `detect`, called by thread `i` for its update of cell `x` with version `v`; panics when its announcement is gone.
  */
  function Detect(st: State, i: Tid, x: nat, v: Ver): Option<bool>
    requires Shaped(st) && i < |st.pcs| && x < |st.cells|
  {
    if st.help[i][i] != v then None
    else Some(Tagged(st.cells[x], i, v) || Count(st.help, i, v) > 1)
  }

  /** The action is thread `i`'s successful compare-and-swap of version `v` on cell `x`. */
  predicate Wins(st: State, a: Action, i: Tid, x: nat, v: Ver) {
    && a.Cas? && a.i == i < |st.pcs| && st.pcs[i].Helped? && st.pcs[i].x == x < |st.cells| && st.pcs[i].v == v
    && st.cells[x] == st.pcs[i].seen
  }

  /** Running a sequence of actions; `None` when one does not apply. */
  function Run(st: State, acts: seq<Action>): (r: Option<State>)
    requires Shaped(st)
    ensures r.Some? ==> Shaped(r.value) && |r.value.pcs| == |st.pcs| && |r.value.cells| == |st.cells|
    decreases |acts|
  {
    if acts == [] then Some(st) else
    var r := Step(st, acts[0]);
    if r.None? then None else (StepShaped(st, acts[0]); Run(r.value, acts[1..]))
  }

  /** Whether thread `i`'s compare-and-swap of version `v` on `x` succeeds somewhere along the run. */
  function Won(st: State, acts: seq<Action>, i: Tid, x: nat, v: Ver): bool
    requires Shaped(st)
    decreases |acts|
  {
    if acts == [] then false else
    var r := Step(st, acts[0]);
    r.Some? && (Wins(st, acts[0], i, x, v) || (StepShaped(st, acts[0]); Won(r.value, acts[1..], i, x, v)))
  }

  // When detection is exact

  /** What a thread has seen and not let go of yet. */
  function Pending(pc: Pc): Option<Cell> {
    if pc.Reading? || pc.Loaded? || pc.Helped? || pc.Storing? then Some(pc.seen) else None
  }

  /** Thread `i` has just announced version `v` for cell `x`, and no trace of that tag is left from earlier. */
  ghost predicate Fresh(st: State, i: Tid, x: nat, v: Ver) {
    && Shaped(st) && i < |st.pcs| && x < |st.cells|
    && st.pcs[i] == Announced(x, v) && st.help[i][i] == v
    && !Tagged(st.cells[x], i, v)
    && forall j :: 0 <= j < |st.pcs| && j != i ==>
         && st.help[j][i] != v
         && (Pending(st.pcs[j]).Some? ==> !Tagged(Pending(st.pcs[j]).value, i, v))
         && !InStore(st.pcs[j], x)
  }

  /** The thread is storing to cell `x`. */
  predicate InStore(pc: Pc, x: nat) {
    (pc.Storing? || pc.Writing?) && pc.x == x
  }

  /** Thread `i`'s tag is on no cell but `x`. */
  ghost predicate OnlyOn(st: State, i: Tid, x: nat) {
    forall y :: 0 <= y < |st.cells| && st.cells[y].id == Some(i) ==> y == x
  }

  /** Thread `i` does nothing but finish its update of `x`, or crash in it, and nobody starts to store to `x`. */
  predicate Minds(a: Action, i: Tid, x: nat) {
    if a.i == i then !a.Read? && !a.Update? && !a.Store? else a.Store? ==> a.x != x
  }

  /** A recorder of the tag: its entry says so, and it holds no other tag of thread `i` it might still record. */
  ghost predicate Remembers(st: State, j: Tid, i: Tid, v: Ver)
    requires Shaped(st) && i < |st.pcs|
  {
    && j < |st.pcs| && j != i && st.help[j][i] == v
    && (Pending(st.pcs[j]).Some? && Pending(st.pcs[j]).value.id == Some(i) ==> Pending(st.pcs[j]).value.version == v)
  }

  /** What is known of another thread from its place and its entry for thread `i`. */
  predicate Bystander(pc: Pc, entry: Ver, i: Tid, x: nat, v: Ver, won: bool) {
    && !InStore(pc, x)
    && (pc.Helped? && Tagged(pc.seen, i, v) ==> entry == v)
    && (!won ==> entry != v && (Pending(pc).Some? ==> !Tagged(pc.seen, i, v)))
  }

  /** The watched thread is in its update of `x`, or done with it; once it has won it is done. */
  predicate Watchee(pc: Pc, x: nat, v: Ver, won: bool) {
    && !pc.Reading? && !pc.Storing? && !pc.Writing?
    && (pc.Announced? || pc.Loaded? || pc.Helped? ==> !won && pc.x == x && pc.v == v)
  }

  /** A tag of thread `i` is on cell `x` only, and it is the new one exactly when the update has taken effect. */
  predicate CellOK(c: Cell, y: nat, i: Tid, x: nat, v: Ver, won: bool) {
    c.id == Some(i) ==> y == x && (c.version == v <==> won)
  }

  ghost predicate Watched(st: State, i: Tid, x: nat, v: Ver, won: bool) {
    && Shaped(st) && i < |st.pcs| && x < |st.cells|
    && (forall y :: 0 <= y < |st.cells| ==> CellOK(st.cells[y], y, i, x, v, won))
    && (forall j :: 0 <= j < |st.pcs| && j != i ==> Bystander(st.pcs[j], st.help[j][i], i, x, v, won))
    && Watchee(st.pcs[i], x, v, won)
    && (won ==> st.cells[x].id == Some(i) || exists j :: Remembers(st, j, i, v))
  }

  // What each step keeps

  lemma CountOthers(help: seq<seq<Ver>>, i: Tid, v: Ver)
    ensures Count(help, i, v) > 0 <==> exists j :: 0 <= j < |help| && i < |help[j]| && help[j][i] == v
  {
    if help != [] {
      CountOthers(help[1..], i, v);
      forall j | 0 <= j < |help| && i < |help[j]| && help[j][i] == v ensures Count(help, i, v) > 0 {
        if j > 0 {
          assert help[1..][j - 1] == help[j];
        }
      }
    }
  }

  /** More than one entry holds `v` exactly when somebody beside `i` has it, given that `i` has it itself. */
  lemma {:induction false} CountMeans(help: seq<seq<Ver>>, i: Tid, k: nat, v: Ver)
    requires k < |help| && i < |help[k]| && help[k][i] == v
    ensures Count(help, i, v) > 1 <==> exists j :: 0 <= j < |help| && j != k && i < |help[j]| && help[j][i] == v
    decreases k
  {
    var rest := help[1..];
    CountOthers(rest, i, v);
    if k == 0 {
      forall j | 0 < j < |help| && i < |help[j]| && help[j][i] == v ensures Count(rest, i, v) > 0 {
        assert rest[j - 1] == help[j];
      }
      if Count(rest, i, v) > 0 {
        var j :| 0 <= j < |rest| && i < |rest[j]| && rest[j][i] == v;
        assert help[j + 1] == rest[j];
      }
    } else {
      assert rest[k - 1] == help[k];
      CountMeans(rest, i, k - 1, v);
      forall j | 0 < j < |help| && j != k && i < |help[j]| && help[j][i] == v ensures Count(help, i, v) > 1 {
        assert rest[j - 1] == help[j];
      }
      if Count(rest, i, v) > 1 {
        var j :| 0 <= j < |rest| && j != k - 1 && i < |rest[j]| && rest[j][i] == v;
        assert help[j + 1] == rest[j];
      }
    }
  }

  /** A step of another thread changes its own place and its own row, and tags cells with its own name only. */
  lemma BystanderFrame(st: State, a: Action)
    requires Shaped(st) && Step(st, a).Some?
    ensures var st' := Step(st, a).value;
            && Shaped(st') && |st'.pcs| == |st.pcs| && |st'.cells| == |st.cells|
            && (forall k :: 0 <= k < |st.pcs| && k != a.i ==> st'.pcs[k] == st.pcs[k] && st'.help[k] == st.help[k])
            && (forall y :: 0 <= y < |st.cells| ==> st'.cells[y] == st.cells[y] || st'.cells[y].id == Some(a.i))
  {
  }

  /** A step of a bystander keeps what is known of it. */
  lemma BystanderStep(st: State, a: Action, i: Tid, x: nat, v: Ver, won: bool)
    requires Watched(st, i, x, v, won) && Step(st, a).Some? && a.i != i && Minds(a, i, x)
    ensures var st' := Step(st, a).value;
            && Shaped(st') && |st'.pcs| == |st.pcs| && |st'.cells| == |st.cells|
            && Bystander(st'.pcs[a.i], st'.help[a.i][i], i, x, v, won)
  {
    assert Bystander(st.pcs[a.i], st.help[a.i][i], i, x, v, won);
    var pc := st.pcs[a.i];
    if Pending(pc).Some? || pc.Announced? {
      assert pc.x < |st.cells| ==> CellOK(st.cells[pc.x], pc.x, i, x, v, won);
    }
  }

  /** Once the update has taken effect, its tag is on the cell or in a record, also after the step. */
  lemma BystanderRecords(st: State, a: Action, i: Tid, x: nat, v: Ver)
    requires Watched(st, i, x, v, true) && Step(st, a).Some? && a.i != i && Minds(a, i, x)
    ensures var st' := Step(st, a).value;
            && Shaped(st') && |st'.pcs| == |st.pcs| && |st'.cells| == |st.cells|
            && (Remembers(st, a.i, i, v) ==> Remembers(st', a.i, i, v))
            && (st.cells[x].id == Some(i) != st'.cells[x].id ==> Remembers(st', a.i, i, v))
  {
    assert Bystander(st.pcs[a.i], st.help[a.i][i], i, x, v, true);
    var pc := st.pcs[a.i];
    if Pending(pc).Some? || pc.Announced? {
      assert pc.x < |st.cells| ==> CellOK(st.cells[pc.x], pc.x, i, x, v, true);
    }
  }

  lemma OtherKeeps(st: State, a: Action, i: Tid, x: nat, v: Ver, won: bool)
    requires Watched(st, i, x, v, won) && Step(st, a).Some? && a.i != i && Minds(a, i, x)
    ensures Watched(Step(st, a).value, i, x, v, won)
  {
    var st' := Step(st, a).value;
    BystanderFrame(st, a);
    BystanderStep(st, a, i, x, v, won);
    if won {
      BystanderRecords(st, a, i, x, v);
      if st.cells[x].id != Some(i) {
        var k: nat :| Remembers(st, k, i, v);
        assert Remembers(st', k, i, v);
      }
    }
  }

  /** The watched thread's own steps. */
  lemma OwnKeeps(st: State, a: Action, i: Tid, x: nat, v: Ver, won: bool)
    requires Watched(st, i, x, v, won) && Step(st, a).Some? && a.i == i && Minds(a, i, x)
    ensures Watched(Step(st, a).value, i, x, v, won || Wins(st, a, i, x, v))
  {
    var st' := Step(st, a).value;
    assert forall k :: 0 <= k < |st.pcs| && k != i ==> st'.pcs[k] == st.pcs[k] && st'.help[k] == st.help[k];
    if won && st.cells[x].id != Some(i) {
      var k: nat :| Remembers(st, k, i, v);
      assert Remembers(st', k, i, v);
    }
  }

  predicate AllMind(acts: seq<Action>, i: Tid, x: nat) {
    forall n :: 0 <= n < |acts| ==> Minds(acts[n], i, x)
  }

  lemma {:induction false} RunKeeps(st: State, acts: seq<Action>, i: Tid, x: nat, v: Ver, won: bool)
    requires Watched(st, i, x, v, won) && AllMind(acts, i, x) && Run(st, acts).Some?
    ensures Watched(Run(st, acts).value, i, x, v, won || Won(st, acts, i, x, v))
    decreases |acts|
  {
    if acts != [] {
      var a := acts[0];
      var won' := won || Wins(st, a, i, x, v);
      if a.i == i {
        OwnKeeps(st, a, i, x, v, won);
      } else {
        OtherKeeps(st, a, i, x, v, won);
      }
      RunKeeps(Step(st, a).value, acts[1..], i, x, v, won');
    }
  }

  /**
  From `st` on, whenever the announcement is in place, `detect` says that the update took effect exactly when it did.
  */
  ghost predicate Exact(st: State, i: Tid, x: nat, v: Ver)
    requires Shaped(st) && i < |st.pcs| && x < |st.cells|
  {
    forall acts :: AllMind(acts, i, x) && Run(st, acts).Some? ==> Answers(st, acts, i, x, v)
  }

  ghost predicate Answers(st: State, acts: seq<Action>, i: Tid, x: nat, v: Ver)
    requires Shaped(st) && i < |st.pcs| && x < |st.cells| && Run(st, acts).Some?
  {
    var st' := Run(st, acts).value;
    st'.help[i][i] == v ==> Detect(st', i, x, v) == Some(Won(st, acts, i, x, v))
  }

  /**
  Detection is exact from the announcement of a fresh version on, whatever the other threads load and update on any
  cell and store to any but `x`, and wherever thread `i` stops, provided that no tag of thread `i` is left on another
  cell.
  */
  lemma DetectIsExact(st: State, i: Tid, x: nat, v: Ver)
    requires Fresh(st, i, x, v) && OnlyOn(st, i, x)
    ensures Exact(st, i, x, v)
  {
    forall acts | AllMind(acts, i, x) && Run(st, acts).Some? ensures Answers(st, acts, i, x, v) {
      RunKeeps(st, acts, i, x, v, false);
      var st' := Run(st, acts).value;
      if st'.help[i][i] == v {
        CountMeans(st'.help, i, i, v);
        if Won(st, acts, i, x, v) && !Tagged(st'.cells[x], i, v) {
          var j: nat :| Remembers(st', j, i, v);
          assert st'.help[j][i] == v;
        }
      }
    }
  }

  // When it is not

  lemma {:induction false} RunConcat(st: State, a: seq<Action>, b: seq<Action>)
    requires Shaped(st) && Run(st, a).Some?
    ensures Run(st, a + b) == Run(Run(st, a).value, b)
    decreases |a|
  {
    if a == [] {
      assert a + b == b;
    } else {
      assert (a + b)[0] == a[0] && (a + b)[1..] == a[1..] + b;
      RunConcat(Step(st, a[0]).value, a[1..], b);
    }
  }

  lemma {:induction false} WonConcat(st: State, a: seq<Action>, b: seq<Action>, i: Tid, x: nat, v: Ver)
    requires Shaped(st) && Run(st, a).Some?
    ensures Won(st, a + b, i, x, v) == (Won(st, a, i, x, v) || Won(Run(st, a).value, b, i, x, v))
    decreases |a|
  {
    if a == [] {
      assert a + b == b;
    } else {
      assert (a + b)[0] == a[0] && (a + b)[1..] == a[1..] + b;
      WonConcat(Step(st, a[0]).value, a[1..], b, i, x, v);
    }
  }

  lemma RunOne(st: State, a: Action, i: Tid, x: nat, v: Ver)
    requires Shaped(st)
    ensures Run(st, [a]) == Step(st, a)
    ensures Won(st, [a], i, x, v) == (Step(st, a).Some? && Wins(st, a, i, x, v))
  {
    if Step(st, a).Some? {
      StepShaped(st, a);
      assert Run(Step(st, a).value, []) == Step(st, a);
    }
  }

  /** The runs of one thread through an update that succeeds, and through a `load`. */
  function Updates(i: Tid): seq<Action> { [Load(i)] + [Help(i)] + [Cas(i, 0)] }

  lemma UpdateRun(st: State, j: Tid, x: nat, i: Tid, v: Ver)
    requires Shaped(st) && j < |st.pcs| && x < |st.cells| && st.pcs[j].Announced? && st.pcs[j].x == x
    ensures Run(st, Updates(j)) == Some(Go(Record(st, j, st.cells[x]), j, Ready).(
                                      cells := st.cells[x := Cell(Some(j), st.pcs[j].v, 0)]))
    ensures Won(st, Updates(j), i, x, v) == (j == i && st.pcs[j].v == v)
  {
    var a, b, c := Load(j), Help(j), Cas(j, 0);
    var s1 := Step(st, a).value;
    var s2 := Step(s1, b).value;
    RunOne(st, a, i, x, v);
    RunOne(s1, b, i, x, v);
    RunOne(s2, c, i, x, v);
    RunConcat(st, [a], [b]);
    WonConcat(st, [a], [b], i, x, v);
    RunConcat(st, [a] + [b], [c]);
    WonConcat(st, [a] + [b], [c], i, x, v);
    assert Step(s2, c).value.pcs == Go(Record(st, j, st.cells[x]), j, Ready).pcs;
  }

  function Looks(j: Tid, y: nat): seq<Action> { [Read(j, y)] + [Help(j)] }

  lemma LookRun(st: State, j: Tid, y: nat, i: Tid, x: nat, v: Ver)
    requires Shaped(st) && j < |st.pcs| && y < |st.cells| && st.pcs[j].Ready?
    ensures Run(st, Looks(j, y)) == Some(Record(st, j, st.cells[y]))
    ensures !Won(st, Looks(j, y), i, x, v)
  {
    var a, b := Read(j, y), Help(j);
    var s1 := Step(st, a).value;
    RunOne(st, a, i, x, v);
    RunOne(s1, b, i, x, v);
    RunConcat(st, [a], [b]);
    WonConcat(st, [a], [b], i, x, v);
    assert Step(s1, b).value.pcs == st.pcs;
  }

  lemma StartRun(st: State, j: Tid, x: nat, i: Tid, z: nat, v: Ver)
    requires Shaped(st) && j < |st.pcs| && x < |st.cells| && st.pcs[j].Ready?
    ensures var w := Next(st.help[j][j]);
            Run(st, [Update(j, x)]) == Some(Go(SetHelp(st, j, j, w), j, Announced(x, w)))
    ensures !Won(st, [Update(j, x)], i, z, v)
  {
    RunOne(st, Update(j, x), i, z, v);
  }

  /** Thread `j` overwrites cell `x` and then looks at cell `y`. */
  function Overlooks(j: Tid, x: nat, y: nat): seq<Action> {
    [Update(j, x)] + (Updates(j) + Looks(j, y))
  }

  /** It ends up with the tag on `y` in its record, whatever it saw on `x`. */
  lemma OverlooksRun(st: State, i: Tid, j: Tid, x: nat, y: nat, v: Ver) returns (st': State)
    requires Shaped(st) && i < |st.pcs| && j < |st.pcs| && j != i && st.pcs[j].Ready?
    requires x < |st.cells| && y < |st.cells| && y != x && st.cells[y].id == Some(i)
    ensures Run(st, Overlooks(j, x, y)) == Some(st')
    ensures Shaped(st') && |st'.pcs| == |st.pcs| && |st'.cells| == |st.cells|
    ensures st'.cells[x].id == Some(j) && st'.help[j][i] == st.cells[y].version
    ensures forall k :: 0 <= k < |st.pcs| && k != j ==> st'.help[k] == st.help[k]
  {
    StartRun(st, j, x, i, x, v);
    var s1 := Run(st, [Update(j, x)]).value;
    UpdateRun(s1, j, x, i, v);
    var s2 := Run(s1, Updates(j)).value;
    LookRun(s2, j, y, i, x, v);
    RunConcat(s1, Updates(j), Looks(j, y));
    RunConcat(st, [Update(j, x)], Updates(j) + Looks(j, y));
    st' := Run(s2, Looks(j, y)).value;
  }

  /** Thread `i` wins; thread `j` sees that, overwrites it, sees the old tag on `y`, and has forgotten the new one. */
  lemma MissesRun(st: State, i: Tid, j: Tid, x: nat, y: nat, v: Ver) returns (st': State)
    requires Fresh(st, i, x, v) && st.cells[x].id != Some(i)
    requires j < |st.pcs| && j != i && st.pcs[j].Ready?
    requires y < |st.cells| && y != x && st.cells[y].id == Some(i) && st.cells[y].version != v
    ensures Run(st, Updates(i) + Overlooks(j, x, y)) == Some(st') && Won(st, Updates(i) + Overlooks(j, x, y), i, x, v)
    ensures Shaped(st') && |st'.pcs| == |st.pcs| && |st'.cells| == |st.cells|
    ensures st'.help[i][i] == v && st'.cells[x].id == Some(j)
    ensures forall k :: 0 <= k < |st'.pcs| && k != i ==> st'.help[k][i] != v
  {
    UpdateRun(st, i, x, i, v);
    var s1 := Run(st, Updates(i)).value;
    st' := OverlooksRun(s1, i, j, x, y, v);
    RunConcat(st, Updates(i), Overlooks(j, x, y));
    WonConcat(st, Updates(i), Overlooks(j, x, y), i, x, v);
  }

  /** An update, alone, from an idle thread. */
  function Whole(i: Tid, x: nat): seq<Action> { [Update(i, x)] + Updates(i) }

  lemma WholeRun(st: State, j: Tid, x: nat, i: Tid, v: Ver) returns (st': State)
    requires Shaped(st) && j < |st.pcs| && x < |st.cells| && st.pcs[j].Ready?
    ensures Run(st, Whole(j, x)) == Some(st')
    ensures j != i ==> !Won(st, Whole(j, x), i, x, v)
    ensures Shaped(st') && |st'.pcs| == |st.pcs| && st'.pcs == st.pcs
    ensures st'.cells == st.cells[x := Cell(Some(j), Next(st.help[j][j]), 0)]
    ensures st'.help[j][j] == if st.cells[x].id == Some(j) then st.cells[x].version else Next(st.help[j][j])
    ensures forall k :: 0 <= k < |st.pcs| && k != j ==> st'.help[k] == st.help[k]
    ensures forall k :: 0 <= k < |st.pcs| && k != j ==>
              st'.help[j][k] == if st.cells[x].id == Some(k) then st.cells[x].version else st.help[j][k]
  {
    StartRun(st, j, x, i, x, v);
    var s1 := Run(st, [Update(j, x)]).value;
    UpdateRun(s1, j, x, i, v);
    RunConcat(st, [Update(j, x)], Updates(j));
    WonConcat(st, [Update(j, x)], Updates(j), i, x, v);
    st' := Run(s1, Updates(j)).value;
  }

  /**
  If `x` carries an older tag of `i`, thread `j` first clears it away, which leaves the version as fresh as it was.
  */
  lemma Clears(st: State, i: Tid, j: Tid, x: nat, y: nat, v: Ver) returns (st': State)
    requires Fresh(st, i, x, v) && j < |st.pcs| && j != i && st.pcs[j].Ready? && y < |st.cells| && y != x
    ensures Run(st, Whole(j, x)) == Some(st')
    ensures Fresh(st', i, x, v) && st'.cells[x].id == Some(j) && st'.cells[y] == st.cells[y]
    ensures |st'.pcs| == |st.pcs| && |st'.cells| == |st.cells| && st'.pcs[j].Ready?
  {
    st' := WholeRun(st, j, x, i, v);
  }

  /**
  The condition is needed: with a tag of `i` left on another cell, and some other thread idle, `detect` can be wrong.
  */
  lemma DetectCanFail(st: State, i: Tid, j: Tid, x: nat, y: nat, v: Ver)
    requires Fresh(st, i, x, v)
    requires j < |st.pcs| && j != i && st.pcs[j].Ready?
    requires y < |st.cells| && y != x && st.cells[y].id == Some(i)
    ensures !Exact(st, i, x, v)
  {
    if st.cells[y].version == v {
      SeesOld(st, i, j, x, y, v);
    } else {
      MissesNew(st, i, j, x, y, v);
    }
  }

  /** The very version is on another cell: looking there is as good as having seen the update. */
  lemma SeesOld(st: State, i: Tid, j: Tid, x: nat, y: nat, v: Ver)
    requires Fresh(st, i, x, v) && j < |st.pcs| && j != i && st.pcs[j].Ready?
    requires y < |st.cells| && y != x && Tagged(st.cells[y], i, v)
    ensures !Exact(st, i, x, v)
  {
    var acts := Looks(j, y);
    LookRun(st, j, y, i, x, v);
    var st' := Run(st, acts).value;
    assert st'.help[j][i] == v && st'.help[i] == st.help[i];
    CountMeans(st'.help, i, i, v);
    assert AllMind(acts, i, x) && !Answers(st, acts, i, x, v);
  }

  /** An older version is on another cell: looking there makes the one who saw the update forget it. */
  lemma MissesNew(st: State, i: Tid, j: Tid, x: nat, y: nat, v: Ver)
    requires Fresh(st, i, x, v) && j < |st.pcs| && j != i && st.pcs[j].Ready?
    requires y < |st.cells| && y != x && st.cells[y].id == Some(i) && st.cells[y].version != v
    ensures !Exact(st, i, x, v)
  {
    var rest := Updates(i) + Overlooks(j, x, y);
    var acts := Whole(j, x) + rest;
    var s1 := Clears(st, i, j, x, y, v);
    var st' := MissesRun(s1, i, j, x, y, v);
    RunConcat(st, Whole(j, x), rest);
    WonConcat(st, Whole(j, x), rest, i, x, v);
    NotDetected(st', i, x, v);
    assert AllMind(acts, i, x) && !Answers(st, acts, i, x, v);
  }

  lemma NotDetected(st: State, i: Tid, x: nat, v: Ver)
    requires Shaped(st) && i < |st.pcs| && x < |st.cells| && st.help[i][i] == v && st.cells[x].id != Some(i)
    requires forall k :: 0 <= k < |st.pcs| && k != i ==> st.help[k][i] != v
    ensures Detect(st, i, x, v) == Some(false)
  {
    CountMeans(st.help, i, i, v);
  }

  /**
  Exactness, both ways: while another thread is idle, `detect` answers right on every continuation exactly when no
  other cell carries a tag of `i`.
  */
  lemma DetectExactIff(st: State, i: Tid, x: nat, v: Ver)
    requires Fresh(st, i, x, v)
    requires exists j :: 0 <= j < |st.pcs| && j != i && st.pcs[j].Ready?
    ensures Exact(st, i, x, v) <==> OnlyOn(st, i, x)
  {
    if OnlyOn(st, i, x) {
      DetectIsExact(st, i, x, v);
    } else {
      var y :| 0 <= y < |st.cells| && st.cells[y].id == Some(i) && y != x;
      var j :| 0 <= j < |st.pcs| && j != i && st.pcs[j].Ready?;
      DetectCanFail(st, i, j, x, y, v);
    }
  }

  function Init(cells: nat, threads: nat): State {
    State(seq(cells, _ => Cell(None, 0, 0)), seq(threads, _ => seq(threads, _ => 0)), seq(threads, _ => Ready))
  }

  /**
  And it is met: from the start, an update of one cell leaves the tag behind that spoils the next update of another.
  */
  lemma DetectFails(cells: nat, threads: nat, x: nat, y: nat, i: Tid) returns (st: State)
    requires x < cells && y < cells && x != y && i < threads && threads > 1
    ensures Shaped(Init(cells, threads)) && Run(Init(cells, threads), Whole(i, y) + [Update(i, x)]) == Some(st)
    ensures |st.pcs| == threads && |st.cells| == cells && Fresh(st, i, x, 2) && !Exact(st, i, x, 2)
  {
    var s0 := Init(cells, threads);
    var s1 := WholeRun(s0, i, y, i, 0);
    StartRun(s1, i, x, i, x, 0);
    RunConcat(s0, Whole(i, y), [Update(i, x)]);
    st := Run(s1, [Update(i, x)]).value;
    var j := if i == 0 then 1 else 0;
    assert st.cells[y].id == Some(i);
    DetectCanFail(st, i, j, x, y, 2);
  }

  /** A store to `x` that has read the cell before thread `i` wins wipes the tag away unseen. */
  lemma StoreHides(st: State, i: Tid, j: Tid, x: nat, v: Ver)
    requires Shaped(st) && i < |st.pcs| && x < |st.cells| && st.pcs[i] == Announced(x, v) && st.help[i][i] == v
    requires forall k :: 0 <= k < |st.pcs| && k != i ==> st.help[k][i] != v
    requires st.cells[x].id != Some(i) && j < |st.pcs| && j != i && st.pcs[j] == Writing(x)
    ensures var acts := Updates(i) + [Put(j, 0)];
            && Run(st, acts).Some? && Won(st, acts, i, x, v)
            && Detect(Run(st, acts).value, i, x, v) == Some(false)
  {
    UpdateRun(st, i, x, i, v);
    var s1 := Run(st, Updates(i)).value;
    RunOne(s1, Put(j, 0), i, x, v);
    RunConcat(st, Updates(i), [Put(j, 0)]);
    WonConcat(st, Updates(i), [Put(j, 0)], i, x, v);
    var st' := Step(s1, Put(j, 0)).value;
    assert st'.cells[x].id == Some(j) && st'.help == s1.help;
    NotDetected(st', i, x, v);
  }

  // The announcement and the versions

  /** The announcement survives a step of thread `i` unless the step records a tag of `i` itself. */
  lemma AnnouncementKept(st: State, a: Action, i: Tid, x: nat)
    requires Shaped(st) && i < |st.pcs| && Step(st, a).Some? && Minds(a, i, x)
    ensures var st' := Step(st, a).value;
            st'.help[i][i] == st.help[i][i]
                || (a == Help(i) && Pending(st.pcs[i]).Some? && st.pcs[i].seen.id == Some(i))
  {
  }

  /**
  Versions are not fresh by themselves: a thread that updates `x`, updates `y`, looks back at `x` and updates `y` again
  puts the very same tag on `y` twice, long before versions wrap around.
  */
  lemma VersionReused(st: State, i: Tid, x: nat, y: nat)
    requires Shaped(st) && i < |st.pcs| && st.pcs[i].Ready?
    requires x < |st.cells| && y < |st.cells| && x != y
    requires st.cells[x].id != Some(i) && st.cells[y].id != Some(i)
    ensures var once := Run(st, Whole(i, x) + Whole(i, y));
            once.Some? &&
            var again := Run(once.value, Looks(i, x) + Whole(i, y));
            again.Some? && once.value.cells[y].id == again.value.cells[y].id == Some(i) &&
            once.value.cells[y].version == again.value.cells[y].version
  {
    var s1 := WholeRun(st, i, x, i, 0);
    var s2 := WholeRun(s1, i, y, i, 0);
    RunConcat(st, Whole(i, x), Whole(i, y));
    LookRun(s2, i, x, i, x, 0);
    var s3 := Run(s2, Looks(i, x)).value;
    var s4 := WholeRun(s3, i, y, i, 0);
    RunConcat(s2, Looks(i, x), Whole(i, y));
    assert s3.help[i][i] == s2.cells[x].version;
  }

  lemma NextDiffers(v: Ver, w: Ver)
    requires v < VERSIONS && w < VERSIONS
    ensures Next(v) == Next(w) <==> v == w
  {
    assert Next(v) == if v + 1 == VERSIONS then 0 else v + 1;
    assert Next(w) == if w + 1 == VERSIONS then 0 else w + 1;
  }

  /**
  The version of an update depends on the thread's own entry alone: two write the same tag just when it is the same.
  */
  lemma VersionReusedIff(st: State, st': State, i: Tid, x: nat)
    requires Shaped(st) && i < |st.pcs| && x < |st.cells| && st.pcs[i].Ready? && st.help[i][i] < VERSIONS
    requires Shaped(st') && i < |st'.pcs| && x < |st'.cells| && st'.pcs[i].Ready? && st'.help[i][i] < VERSIONS
    ensures var r, r' := Run(st, Whole(i, x)), Run(st', Whole(i, x));
            && r.Some? && r'.Some?
            && (r.value.cells[x].version == r'.value.cells[x].version <==> st.help[i][i] == st'.help[i][i])
  {
    var s := WholeRun(st, i, x, i, 0);
    var s' := WholeRun(st', i, x, i, 0);
    NextDiffers(st.help[i][i], st'.help[i][i]);
  }
}
