/**
The order in which a record is copied matters. A thread may look its answer up in a record that is being overwritten: it
reads its number there first, then its result. If the copy brings the new number before the new result, the thread
returns an old result.
*/
module CombiningOrder {
  import opened Options
  import opened Combining
  import opened CombiningRuns

  /** Two threads, one round, an operation that always answers one. */
  function Two(order: seq<Field>): Config {
    Config(2, 1, (d: int, arg: int) => (d, 1), 0, order)
  }

  /** A thread about to return has had its request executed, and returns the result of that. */
  ghost predicate ReturnsRight(st: State, t: Tid)
    requires t < |st.pcs| && t < |st.requests|
  {
    st.pcs[t].Returning? ==>
      && (exists n :: 0 <= n < |st.hist| && Answers(st, t, st.hist[n]))
      && (forall n :: 0 <= n < |st.hist| && Answers(st, t, st.hist[n]) ==> st.hist[n].ret == st.pcs[t].value)
  }

  /** The execution is the one of the thread's latest request. */
  predicate Answers(st: State, t: Tid, e: Exec)
    requires t < |st.requests|
  {
    e.t == t && e.k == st.requests[t].activate
  }

  /** With results first, every thread of every run returns right. */
  lemma ReturnsRightAlong(k: Config, states: seq<State>, acts: seq<Action>, n: nat, t: Tid)
    requires Complete(k) && ResultsFirst(k) && IsRun(k, states, acts) && n < |states| && t < k.n
    ensures t < |states[n].pcs| && t < |states[n].requests| && ReturnsRight(states[n], t)
  {
    RunsKeep(k, states, acts, n);
    if states[n].pcs[t].Returning? {
      var i := ReturnsItsResult(k, states[n], t);
      assert LegalAt(k, states[n].hist, i);
    }
  }

  // Reaching states

  ghost predicate Reaches(k: Config, st: State) {
    exists states, acts :: IsRun(k, states, acts) && states[|acts|] == st
  }

  lemma Start(k: Config)
    ensures Reaches(k, Init(k)) && Shaped(k, Init(k))
  {
    assert IsRun(k, [Init(k)], []);
  }

  lemma StepShaped(k: Config, st: State, a: Action)
    requires Shaped(k, st) && a.t < k.n && Step(k, st, a).Some?
    ensures Shaped(k, Step(k, st, a).value)
  {
  }

  lemma Then(k: Config, st: State, a: Action) returns (st': State)
    requires Reaches(k, st) && Shaped(k, st) && Enabled(k, st, a) && Step(k, st, a).Some?
    ensures st' == Step(k, st, a).value && Reaches(k, st') && Shaped(k, st')
  {
    st' := Step(k, st, a).value;
    StepShaped(k, st, a);
    var states, acts :| IsRun(k, states, acts) && states[|acts|] == st;
    var states', acts' := states + [st'], acts + [a];
    forall n | 0 <= n < |acts'|
      ensures Shaped(k, states'[n]) && Enabled(k, states'[n], acts'[n])
      ensures Step(k, states'[n], acts'[n]) == Some(states'[n + 1])
    {
      if n < |acts| {
        assert states'[n] == states[n] && states'[n + 1] == states[n + 1] && acts'[n] == acts[n];
      }
    }
    assert IsRun(k, states', acts') && states'[|acts'|] == st';
  }

  // The stages of an operation

  ghost predicate IsTwo(k: Config) {
    k.n == 2 && k.rounds == 1 && forall d, arg :: k.f(d, arg).1 == 1
  }

  ghost predicate At2(k: Config, st: State, t: Tid) {
    Reaches(k, st) && Shaped(k, st) && t < k.n && IsTwo(k)
  }

  lemma GoAsk(k: Config, st: State, t: Tid) returns (st': State)
    requires At2(k, st, t) && !st.pcs[t].Idle? && !Holding(st.pcs[t]) && !Answering(st.pcs[t])
    requires AskStep(k, st, t).Some?
    ensures AskStep(k, st, t) == Some(st') && At2(k, st', t)
  {
    st' := Then(k, st, Go(t));
  }

  lemma GoAnswer(k: Config, st: State, t: Tid) returns (st': State)
    requires At2(k, st, t) && Answering(st.pcs[t]) && AnswerStep(k, st, t).Some?
    ensures AnswerStep(k, st, t) == Some(st') && At2(k, st', t)
  {
    st' := Then(k, st, Go(t));
  }

  lemma GoPerform(k: Config, st: State, t: Tid) returns (st': State)
    requires At2(k, st, t) && Holding(st.pcs[t]) && !Publishing(st.pcs[t]) && PerformStep(k, st, t).Some?
    ensures PerformStep(k, st, t) == Some(st') && At2(k, st', t)
  {
    st' := Then(k, st, Go(t));
  }

  lemma GoPublish(k: Config, st: State, t: Tid) returns (st': State)
    requires At2(k, st, t) && Publishing(st.pcs[t]) && PublishStep(k, st, t).Some?
    ensures PublishStep(k, st, t) == Some(st') && At2(k, st', t)
  {
    st' := Then(k, st, Go(t));
  }

  /** Announcing a request. */
  lemma Registers(k: Config, st: State, t: Tid) returns (st': State)
    requires At2(k, st, t) && st.pcs[t].Idle?
    ensures At2(k, st', t)
    ensures st' == st.(requests := st.requests[t := Request(0, st.requests[t].activate + 1)],
                       pcs := st.pcs[t := Trying])
  {
    var s1 := Then(k, st, Issue(t, 0));
    var s2 := GoAsk(k, s1, t);
    st' := GoAsk(k, s2, t);
  }

  /** Announcing a request and getting the lock. */
  lemma Locks(k: Config, st: State, t: Tid) returns (st': State)
    requires At2(k, st, t) && st.pcs[t].Idle? && st.lock.holder.None?
    ensures At2(k, st', t)
    ensures st' == st.(requests := st.requests[t := Request(0, st.requests[t].activate + 1)],
                       lock := Lock(None, Some(t)), pcs := st.pcs[t := Copying(0)])
  {
    var s1 := Registers(k, st, t);
    var s2 := GoAsk(k, s1, t);
    st' := GoAsk(k, s2, t);
  }

  /** Announcing a request while somebody else has the lock. */
  lemma Asks(k: Config, st: State, t: Tid) returns (st': State)
    requires At2(k, st, t) && st.pcs[t].Idle? && st.lock.holder.Some?
    ensures At2(k, st', t)
    ensures st' == st.(requests := st.requests[t := Request(0, st.requests[t].activate + 1)],
                       pcs := st.pcs[t := Waiting])
  {
    var s1 := Registers(k, st, t);
    st' := GoAsk(k, s1, t);
  }

  predicate Fields2(q: seq<Field>) {
    forall i :: 0 <= i < |q| && !q[i].Data? ==> q[i].t < 2
  }

  predicate Record2(r: Record) {
    |r.ret| == |r.deactivate| == 2
  }

  /** A record after the fields of `q` have been copied over it. */
  function Partial(r: Record, from: Record, q: seq<Field>): (c: Record)
    requires Record2(r) && Record2(from) && Fields2(q)
    ensures Record2(c) && c.seen == r.seen
    decreases |q|
  {
    if q == [] then r else CopyField(Partial(r, from, q[..|q| - 1]), from, q[|q| - 1])
  }

  lemma {:induction false} PartialIs(r: Record, from: Record, q: seq<Field>)
    requires Record2(r) && Record2(from) && Fields2(q)
    ensures var c := Partial(r, from, q);
            && c.data == (if Data in q then from.data else r.data)
            && (forall t :: 0 <= t < 2 ==> c.ret[t] == if Ret(t) in q then from.ret[t] else r.ret[t])
            && (forall t :: 0 <= t < 2 ==>
                  c.deactivate[t] == if Number(t) in q then from.deactivate[t] else r.deactivate[t])
    decreases |q|
  {
    if q != [] {
      var p, f := q[..|q| - 1], q[|q| - 1];
      PartialIs(r, from, p);
      assert q == p + [f];
      assert forall g :: g in q <==> g in p || g == f;
    }
  }

  lemma Fields2Of(k: Config)
    requires Complete(k) && k.n == 2
    ensures Fields2(k.order) && forall i :: 0 <= i <= |k.order| ==> Fields2(k.order[..i])
  {
    forall i | 0 <= i < |k.order| && !k.order[i].Data? ensures k.order[i].t < 2 {
      assert InRange(k, i);
    }
  }

  /** Copying, up to field `i`. */
  ghost predicate Copied(k: Config, st: State, st': State, t: Tid, i: nat)
    requires Shaped(k, st) && t < k.n == 2
  {
    && i < |k.order| && Fields2(k.order[..i])
    && st' == st.(records := st'.records, pcs := st.pcs[t := Copying(i)]) && |st'.records| == |st.records|
    && (forall r :: 0 <= r < |st.records| && r != Mine(st, t) ==> st'.records[r] == st.records[r])
    && st'.records[Mine(st, t)] == Partial(st.records[Mine(st, t)], st.records[st.pstate], k.order[..i])
  }

  lemma PartialNext(r: Record, from: Record, q: seq<Field>, i: nat)
    requires Record2(r) && Record2(from) && i < |q| && Fields2(q[..i]) && Fields2(q[..i + 1])
    ensures q[i].Data? || q[i].t < 2
    ensures Partial(r, from, q[..i + 1]) == CopyField(Partial(r, from, q[..i]), from, q[i])
  {
    assert q[..i + 1][..i] == q[..i] && q[..i + 1][i] == q[i];
  }

  lemma CopyOne(k: Config, st: State, s1: State, t: Tid, i: nat) returns (st': State)
    requires At2(k, st, t) && At2(k, s1, t) && Complete(k) && Mine(st, t) != st.pstate
    requires i + 1 < |k.order| && Copied(k, st, s1, t, i)
    ensures At2(k, st', t) && Copied(k, st, st', t, i + 1)
  {
    Fields2Of(k);
    assert InRange(k, i);
    PartialNext(st.records[Mine(st, t)], st.records[st.pstate], k.order, i);
    st' := GoPerform(k, s1, t);
  }

  lemma {:induction false} Copies(k: Config, st: State, t: Tid, i: nat) returns (st': State)
    requires At2(k, st, t) && Complete(k) && st.pcs[t] == Copying(0) && Mine(st, t) != st.pstate && i < |k.order|
    ensures At2(k, st', t) && Copied(k, st, st', t, i)
  {
    Fields2Of(k);
    if i == 0 {
      st' := st;
      assert st.pcs[t := Copying(0)] == st.pcs;
    } else {
      var s1 := Copies(k, st, t, i - 1);
      st' := CopyOne(k, st, s1, t, i - 1);
    }
  }

  lemma PartialAt(k: Config, r: Record, from: Record, t: Tid)
    requires Record2(r) && Record2(from) && Fields2(k.order) && t < 2 && Listed(k, t)
    ensures var c := Partial(r, from, k.order); c.ret[t] == from.ret[t] && c.deactivate[t] == from.deactivate[t]
    ensures Data in k.order ==> Partial(r, from, k.order).data == from.data
  {
    PartialIs(r, from, k.order);
  }

  lemma SameRecord(c: Record, from: Record)
    requires Record2(c) && Record2(from) && c.data == from.data
    requires c.ret[0] == from.ret[0] && c.ret[1] == from.ret[1]
    requires c.deactivate[0] == from.deactivate[0] && c.deactivate[1] == from.deactivate[1]
    ensures c.(seen := from.seen) == from
  {
    assert c.ret == from.ret && c.deactivate == from.deactivate;
  }

  lemma PartialAll(k: Config, r: Record, from: Record)
    requires Listed(k, 0) && Listed(k, 1) && Data in k.order && Record2(r) && Record2(from) && Fields2(k.order)
    ensures Partial(r, from, k.order).(seen := from.seen) == from
  {
    PartialAt(k, r, from, 0);
    PartialAt(k, r, from, 1);
    SameRecord(Partial(r, from, k.order), from);
  }

  lemma CopyLast(k: Config, st: State, s1: State, t: Tid, i: nat) returns (st': State)
    requires At2(k, st, t) && At2(k, s1, t) && Complete(k) && Mine(st, t) != st.pstate
    requires i + 1 == |k.order| && Copied(k, st, s1, t, i) && Fields2(k.order)
    ensures At2(k, st', t) && |st'.records| == |st.records|
    ensures st' == st.(records := st'.records, pcs := st.pcs[t := Serving(0, 0, 0)])
    ensures forall r :: 0 <= r < |st.records| && r != Mine(st, t) ==> st'.records[r] == st.records[r]
    ensures st'.records[Mine(st, t)] == st.records[st.pstate]
  {
    assert InRange(k, i);
    assert k.order[..|k.order| - 1] == k.order[..i];
    assert Listed(k, 0) && Listed(k, 1);
    PartialAll(k, st.records[Mine(st, t)], st.records[st.pstate]);
    st' := GoPerform(k, s1, t);
  }

  lemma CopiesAll(k: Config, st: State, t: Tid) returns (st': State)
    requires At2(k, st, t) && Complete(k) && st.pcs[t] == Copying(0) && Mine(st, t) != st.pstate
    ensures At2(k, st', t)
    ensures st' == st.(records := st.records[Mine(st, t) := st.records[st.pstate]],
                       pcs := st.pcs[t := Serving(0, 0, 0)])
  {
    Fields2Of(k);
    var s1 := Copies(k, st, t, |k.order| - 1);
    st' := CopyLast(k, st, s1, t, |k.order| - 1);
    assert st'.records == st.records[Mine(st, t) := st.records[st.pstate]];
  }

  /** What one round does for thread `q`: its request is executed if it is new. */
  ghost predicate ServedOne(st: State, st': State, r: Rid, q: Tid)
    requires q < 2 && |st.requests| == 2 && r < |st.records| && r < |st'.records|
    requires Record2(st.records[r]) && Record2(st'.records[r])
  {
    if st.requests[q].activate > st.records[r].deactivate[q] then
      && st'.records[r].deactivate[q] == st.requests[q].activate && st'.records[r].ret[q] == 1
      && exists n :: 0 <= n < |st'.hist| && Answers(st, q, st'.hist[n]) && st'.hist[n].ret == 1
    else
      st'.records[r].deactivate[q] == st.records[r].deactivate[q] && st'.records[r].ret[q] == st.records[r].ret[q]
  }

  /** Only the record of thread `t`, the history and its place change. */
  ghost predicate Serves(k: Config, st: State, st': State, t: Tid)
    requires Shaped(k, st) && t < k.n
  {
    && |st'.pcs| == |st.pcs|
    && st' == st.(records := st'.records, hist := st'.hist, pcs := st.pcs[t := st'.pcs[t]])
    && |st'.records| == |st.records| && st.hist <= st'.hist
    && forall r :: 0 <= r < |st.records| && r != Mine(st, t) ==> st'.records[r] == st.records[r]
  }

  lemma Applied(k: Config, st: State, t: Tid, q: Tid, served: nat) returns (st': State)
    requires At2(k, st, t) && st.pcs[t] == Serving(0, q, served) && q < 2
    requires st.requests[q].activate > st.records[Mine(st, t)].deactivate[q]
    ensures At2(k, st', t)
    ensures var r, act := Mine(st, t), st.requests[q].activate;
            var e := Exec(q, act, st.requests[q].arg, 1);
            st' == st.(records := st.records[r := Apply(k, st.records[r], q, e)], hist := st.hist + [e],
                       pcs := st.pcs[t := Marking(0, q, served, act)])
  {
    var s1 := GoPerform(k, st, t);
    st' := GoPerform(k, s1, t);
  }

  lemma ServeNew(k: Config, st: State, t: Tid, q: Tid, served: nat) returns (st': State)
    requires At2(k, st, t) && st.pcs[t] == Serving(0, q, served) && q < 2
    requires st.requests[q].activate > st.records[Mine(st, t)].deactivate[q]
    ensures At2(k, st', t) && Serves(k, st, st', t) && st'.pcs[t] == Serving(0, q + 1, served + 1)
    ensures Record2(st'.records[Mine(st, t)]) && ServedOne(st, st', Mine(st, t), q)
    ensures var r := Mine(st, t);
            forall u :: 0 <= u < 2 && u != q ==>
              && st'.records[r].deactivate[u] == st.records[r].deactivate[u]
              && st'.records[r].ret[u] == st.records[r].ret[u]
  {
    var s1 := Applied(k, st, t, q, served);
    st' := GoPerform(k, s1, t);
    assert Answers(st, q, st'.hist[|st.hist|]);
  }

  lemma ServeOld(k: Config, st: State, t: Tid, q: Tid, served: nat) returns (st': State)
    requires At2(k, st, t) && st.pcs[t] == Serving(0, q, served) && q < 2
    requires st.requests[q].activate <= st.records[Mine(st, t)].deactivate[q]
    ensures At2(k, st', t) && st' == st.(pcs := st.pcs[t := Serving(0, q + 1, served)])
  {
    st' := GoPerform(k, st, t);
  }

  lemma ServeQ(k: Config, st: State, t: Tid, q: Tid, served: nat) returns (st': State)
    requires At2(k, st, t) && st.pcs[t] == Serving(0, q, served) && q < 2
    ensures At2(k, st', t) && Serves(k, st, st', t)
    ensures st'.pcs[t].Serving? && st'.pcs[t].round == 0 && st'.pcs[t].q == q + 1
    ensures Record2(st'.records[Mine(st, t)]) && ServedOne(st, st', Mine(st, t), q)
    ensures var r := Mine(st, t);
            forall u :: 0 <= u < 2 && u != q ==>
              && st'.records[r].deactivate[u] == st.records[r].deactivate[u]
              && st'.records[r].ret[u] == st.records[r].ret[u]
  {
    if st.requests[q].activate > st.records[Mine(st, t)].deactivate[q] {
      st' := ServeNew(k, st, t, q, served);
    } else {
      st' := ServeOld(k, st, t, q, served);
    }
  }

  lemma ServesBoth(k: Config, st: State, t: Tid) returns (st': State)
    requires At2(k, st, t) && st.pcs[t] == Serving(0, 0, 0)
    ensures At2(k, st', t) && Serves(k, st, st', t) && st'.pcs[t] == Committing
    ensures Record2(st'.records[Mine(st, t)])
    ensures ServedOne(st, st', Mine(st, t), 0) && ServedOne(st, st', Mine(st, t), 1)
  {
    var s1 := ServeQ(k, st, t, 0, 0);
    var s2 := ServeQ(k, s1, t, 1, s1.pcs[t].served);
    st' := GoPerform(k, s2, t);
    if n :| 0 <= n < |s1.hist| && Answers(st, 0, s1.hist[n]) && s1.hist[n].ret == 1 {
      assert st'.hist[n] == s1.hist[n];
    }
  }

  /** Publishing the record and coming back. */
  lemma Publishes(k: Config, st: State, t: Tid) returns (st': State)
    requires At2(k, st, t) && st.pcs[t] == Committing
    ensures At2(k, st', t)
    ensures var r := Mine(st, t);
            st' == st.(pstate := r, index := st.index[t := 1 - st.index[t]], lock := Lock(Some(r), None),
                       pcs := st.pcs[t := Leaving(r)])
  {
    var s1 := GoPublish(k, st, t);
    var s2 := GoPublish(k, s1, t);
    st' := GoPublish(k, s2, t);
  }

  lemma Leaves(k: Config, st: State, t: Tid) returns (st': State)
    requires At2(k, st, t) && st.pcs[t].Leaving? && st.pcs[t].r < |st.records|
    ensures At2(k, st', t) && st' == st.(pcs := st.pcs[t := Idle])
  {
    var s1 := GoAnswer(k, st, t);
    st' := GoAnswer(k, s1, t);
  }

  // The run

  /** Thread `b` has performed what there was to perform, and is about to publish its record. */
  ghost predicate Performed(k: Config, st: State, st': State, a: Tid, b: Tid)
    requires Shaped(k, st) && IsTwo(k) && a < 2 && b < 2
  {
    && Shaped(k, st') && st'.pcs == st.pcs[b := Committing] && st'.lock.holder.Some?
    && st'.pstate == st.pstate && st'.index == st.index && (a != b ==> st'.requests[a] == st.requests[a])
    && (forall r :: 0 <= r < |st.records| && r != Mine(st, b) ==> st'.records[r] == st.records[r])
    && (a != b ==>
          var rec, from := st'.records[Mine(st, b)], st.records[st.pstate];
          if st.requests[a].activate > from.deactivate[a] then
            && rec.deactivate[a] == st.requests[a].activate && rec.ret[a] == 1
            && exists n :: 0 <= n < |st'.hist| && Answers(st, a, st'.hist[n]) && st'.hist[n].ret == 1
          else rec.deactivate[a] == from.deactivate[a] && rec.ret[a] == from.ret[a])
  }

  /** Thread `b` has the lock and its record is a copy of the published one. */
  lemma Prepares(k: Config, st: State, b: Tid) returns (st': State)
    requires At2(k, st, b) && Complete(k) && st.pcs[b].Idle? && st.lock.holder.None? && Mine(st, b) != st.pstate
    ensures At2(k, st', b)
    ensures st' == st.(requests := st.requests[b := Request(0, st.requests[b].activate + 1)],
                       lock := Lock(None, Some(b)), records := st.records[Mine(st, b) := st.records[st.pstate]],
                       pcs := st.pcs[b := Serving(0, 0, 0)])
  {
    var s1 := Locks(k, st, b);
    st' := CopiesAll(k, s1, b);
    assert st.pcs[b := Copying(0)][b := Serving(0, 0, 0)] == st.pcs[b := Serving(0, 0, 0)];
  }

  lemma Performs(k: Config, st: State, a: Tid, b: Tid) returns (st': State)
    requires At2(k, st, b) && Complete(k) && a < 2 && a != b && st.pcs[b].Idle? && st.lock.holder.None?
    requires Mine(st, b) != st.pstate
    ensures At2(k, st', b) && Performed(k, st, st', a, b)
  {
    var s1 := Prepares(k, st, b);
    st' := ServesBoth(k, s1, b);
    var r := Mine(st, b);
    assert s1.records[r] == st.records[st.pstate] && s1.requests[a] == st.requests[a];
    assert ServedOne(s1, st', r, a);
    assert forall e :: Answers(s1, a, e) <==> Answers(st, a, e);
  }

  /** Its record is published, and it is idle again. */
  lemma Ends(k: Config, st: State, t: Tid) returns (st': State)
    requires At2(k, st, t) && st.pcs[t] == Committing
    ensures At2(k, st', t)
    ensures var r := Mine(st, t);
            st' == st.(pstate := r, index := st.index[t := 1 - st.index[t]], lock := Lock(Some(r), None),
                       pcs := st.pcs[t := Idle])
  {
    var s1 := Publishes(k, st, t);
    st' := Leaves(k, s1, t);
    assert st.pcs[t := Leaving(Mine(st, t))][t := Idle] == st.pcs[t := Idle];
  }

  /** A whole operation of thread `b`, which serves the waiting request of thread `a`. */
  lemma Operates(k: Config, st: State, a: Tid, b: Tid) returns (st': State)
    requires At2(k, st, b) && Complete(k) && a < 2 && a != b && st.pcs[b].Idle? && st.lock.holder.None?
    requires Mine(st, b) != st.pstate
    requires st.requests[a].activate == 1 && st.records[st.pstate].deactivate[a] == 0
    ensures At2(k, st', b) && |st'.pcs| == 2 && st'.pcs == st.pcs && st'.lock.holder.None?
    ensures st'.pstate == Mine(st, b) && st'.index == st.index[b := 1 - st.index[b]]
    ensures st'.requests[a] == st.requests[a]
    ensures forall r :: 0 <= r < |st.records| && r != Mine(st, b) ==> st'.records[r] == st.records[r]
    ensures st'.records[Mine(st, b)].deactivate[a] == 1 && st'.records[Mine(st, b)].ret[a] == 1
    ensures exists n :: 0 <= n < |st'.hist| && Answers(st', a, st'.hist[n]) && st'.hist[n].ret == 1
  {
    var s1 := Performs(k, st, a, b);
    st' := Ends(k, s1, b);
    var n :| 0 <= n < |s1.hist| && Answers(st, a, s1.hist[n]) && s1.hist[n].ret == 1;
    assert Answers(st', a, st'.hist[n]);
    assert st'.pcs == st.pcs;
  }

  lemma Begins(k: Config, b: Tid) returns (st: State)
    requires IsTwo(k) && b < 2
    ensures st == Init(k) && At2(k, st, b) && st.pcs[0].Idle? && st.pcs[1].Idle?
    ensures Mine(st, b) == Rec(b, 0) != st.pstate
    ensures st.requests[0].activate == 0 && st.requests[1].activate == 0 && st.index[b] == 0
    ensures forall t :: 0 <= t < 2 ==> st.records[st.pstate].deactivate[t] == 0 && st.records[st.pstate].ret[t] == 0
  {
    Start(k);
    st := Init(k);
  }

  /** Thread `a` asks too late for the first operation of thread `b`, and is about to look into its record. */
  lemma LooksLate(k: Config, a: Tid, b: Tid) returns (st: State)
    requires IsTwo(k) && Complete(k) && a < 2 && b < 2 && a != b
    ensures At2(k, st, b) && st.pcs[a] == Checking(Rec(b, 0)) && st.pcs[b].Idle? && st.lock.holder.None?
    ensures st.pstate == Rec(b, 0) && st.index[b] == 1 && st.requests[a].activate == 1
    ensures st.records[Rec(b, 0)].deactivate[a] == 0 && st.records[Rec(b, 0)].ret[a] == 0
  {
    var s0 := Begins(k, b);
    var s1 := Performs(k, s0, a, b);
    var s2 := Asks(k, s1, a);
    var s3 := Ends(k, s2, b);
    st := GoAsk(k, s3, a);
  }

  lemma NumberFirst(k: Config, r: Record, from: Record, a: Tid, p: nat)
    requires Record2(r) && Record2(from) && a < 2 && p < |k.order| && Fields2(k.order[..p + 1])
    requires k.order[p] == Number(a) && Ret(a) !in k.order[..p]
    ensures var c := Partial(r, from, k.order[..p + 1]); c.deactivate[a] == from.deactivate[a] && c.ret[a] == r.ret[a]
  {
    PartialIs(r, from, k.order[..p + 1]);
    assert k.order[..p + 1] == k.order[..p] + [Number(a)];
  }

  /** Thread `b` starts an operation and has overwritten the number of thread `a`, but not its result. */
  lemma Overwrites(k: Config, st: State, a: Tid, b: Tid, p: nat) returns (st': State)
    requires At2(k, st, b) && Complete(k) && a < 2 && a != b && st.pcs[b].Idle? && st.lock.holder.None?
    requires p + 1 < |k.order| && k.order[p] == Number(a) && Ret(a) !in k.order[..p] && Mine(st, b) != st.pstate
    ensures At2(k, st', b) && |st'.pcs| == |st'.requests| == 2 && st'.pcs[a] == st.pcs[a] && st'.hist == st.hist
    ensures st'.requests[a] == st.requests[a] && |st'.records| == |st.records|
    ensures var c := st'.records[Mine(st, b)];
            && Record2(c) && c.deactivate[a] == st.records[st.pstate].deactivate[a]
            && c.ret[a] == st.records[Mine(st, b)].ret[a]
  {
    var s1 := Locks(k, st, b);
    st' := Copies(k, s1, b, p + 1);
    NumberFirst(k, s1.records[Mine(st, b)], s1.records[s1.pstate], a, p);
  }

  /** The second operation serves it, the third overwrites the record it is looking into, number first. */
  lemma Overtaken(k: Config, a: Tid, b: Tid, p: nat) returns (st: State)
    requires IsTwo(k) && Complete(k) && a < 2 && b < 2 && a != b
    requires p + 1 < |k.order| && k.order[p] == Number(a) && Ret(a) !in k.order[..p]
    ensures At2(k, st, a) && st.pcs[a] == Checking(Rec(b, 0)) && st.requests[a].activate == 1
    ensures st.records[Rec(b, 0)].deactivate[a] == 1 && st.records[Rec(b, 0)].ret[a] == 0
    ensures exists n :: 0 <= n < |st.hist| && Answers(st, a, st.hist[n]) && st.hist[n].ret == 1
  {
    var s1 := LooksLate(k, a, b);
    var s2 := Operates(k, s1, a, b);
    st := Overwrites(k, s2, a, b, p);
    var n :| 0 <= n < |s2.hist| && Answers(s2, a, s2.hist[n]) && s2.hist[n].ret == 1;
    assert Answers(st, a, st.hist[n]);
  }

  lemma ReturnsOld(k: Config, a: Tid, b: Tid, p: nat) returns (st: State)
    requires IsTwo(k) && Complete(k) && a < 2 && b < 2 && a != b
    requires p + 1 < |k.order| && k.order[p] == Number(a) && Ret(a) !in k.order[..p]
    ensures Reaches(k, st) && Shaped(k, st) && !ReturnsRight(st, a)
  {
    var s1 := Overtaken(k, a, b, p);
    var s2 := GoAnswer(k, s1, a);
    st := GoAnswer(k, s2, a);
    var n :| 0 <= n < |s1.hist| && Answers(s1, a, s1.hist[n]) && s1.hist[n].ret == 1;
    assert Answers(st, a, st.hist[n]);
  }

  /** Every thread of every reachable state returns right. */
  ghost predicate AllReturnRight(k: Config) {
    forall st, t: nat :: Reaches(k, st) && t < |st.pcs| && t < |st.requests| && t < k.n ==> ReturnsRight(st, t)
  }

  /**
  Both ways, for two threads: every thread returns the result of its own request on every run if and only if the order
  of copying brings each thread's result before its number.
  */
  lemma RightIff(order: seq<Field>)
    requires Complete(Two(order))
    ensures AllReturnRight(Two(order)) <==> ResultsFirst(Two(order))
  {
    var k := Two(order);
    if ResultsFirst(k) {
      forall st, t: nat | Reaches(k, st) && t < |st.pcs| && t < |st.requests| && t < k.n ensures ReturnsRight(st, t) {
        var states, acts :| IsRun(k, states, acts) && states[|acts|] == st;
        ReturnsRightAlong(k, states, acts, |acts|, t);
      }
    } else {
      var p :| 0 <= p < |k.order| && !ResultBefore(k, p);
      assert InRange(k, p);
      var a := k.order[p].t;
      assert Listed(k, a);
      assert k.order[..p + 1] == k.order[..p] + [Number(a)];
      var st := ReturnsOld(k, a, 1 - a, p);
    }
  }
}
