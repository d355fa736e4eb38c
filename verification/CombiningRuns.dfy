/** Every request is executed exactly once and its issuer gets the result. */
module CombiningRuns {
  import opened Options
  import opened Combining

  /** Thread `t` has a private copy that is ahead of the published record. */
  predicate Performing(pc: Pc) {
    pc.Serving? || pc.Applying? || pc.Marking? || pc.Committing?
  }

  /** The record agrees with the executions it reflects. */
  ghost predicate Snap(k: Config, r: Record) {
    && |r.ret| == |r.deactivate| == k.n
    && r.data == Fold(k, r.seen)
    && (forall t :: 0 <= t < k.n ==> r.ret[t] == Result(r.seen, t))
    && (forall t :: 0 <= t < k.n ==> r.deactivate[t] == Done(r.seen, t))
  }

  /** The same but for the entry of `q`, which still has the number before. */
  ghost predicate HalfSnap(k: Config, r: Record, q: Tid, act: nat) {
    && |r.ret| == |r.deactivate| == k.n && q < k.n
    && r.data == Fold(k, r.seen)
    && (forall t :: 0 <= t < k.n ==> r.ret[t] == Result(r.seen, t))
    && (forall t :: 0 <= t < k.n && t != q ==> r.deactivate[t] == Done(r.seen, t))
    && Done(r.seen, q) == act && r.deactivate[q] < act
  }

  /** Whose turn the marking step of the lock holder is at, if it is at one. */
  function HalfDone(st: State): Option<Rid> {
    if st.lock.holder.Some? && st.lock.holder.value < |st.pcs| && st.lock.holder.value < |st.index|
       && st.pcs[st.lock.holder.value].Marking?
    then Some(Mine(st, st.lock.holder.value)) else None
  }

  /** The record being worked on, if there is one. */
  function InWork(st: State): Option<Rid> {
    if st.lock.holder.Some? && st.lock.holder.value < |st.pcs| && st.lock.holder.value < |st.index|
       && Performing(st.pcs[st.lock.holder.value])
    then Some(Mine(st, st.lock.holder.value)) else None
  }

  /** The record being copied into, if there is one. */
  function InCopy(st: State): Option<Rid> {
    if st.lock.holder.Some? && st.lock.holder.value < |st.pcs| && st.lock.holder.value < |st.index|
       && st.pcs[st.lock.holder.value].Copying?
    then Some(Mine(st, st.lock.holder.value)) else None
  }

  /** Half old, half new: the fields in `copied` are those after `h`, among them the result for every number. */
  ghost predicate Blend(k: Config, r: Record, h: seq<Exec>, copied: seq<Field>) {
    && |r.ret| == |r.deactivate| == k.n
    && (Data in copied ==> r.data == Fold(k, h))
    && (forall t :: 0 <= t < k.n ==> r.ret[t] == Result(if Ret(t) in copied then h else r.seen, t))
    && (forall t :: 0 <= t < k.n ==> r.deactivate[t] == Done(if Number(t) in copied then h else r.seen, t))
    && (forall t :: 0 <= t < k.n && Number(t) in copied ==> Ret(t) in copied)
  }

  /** Every record reflects a prefix of the history: all of it when in work, else no more than the published one. */
  ghost predicate RecordOK(k: Config, st: State, r: Rid)
    requires r < |st.records| && st.pstate < |st.records|
  {
    var rec := st.records[r];
    && (HalfDone(st) != Some(r) && InCopy(st) != Some(r) ==> Snap(k, rec))
    && (InCopy(st) == Some(r) ==>
          var i := st.pcs[st.lock.holder.value].i;
          i <= |k.order| && Blend(k, rec, st.records[st.pstate].seen, k.order[..i]))
    && (if InWork(st) == Some(r) then rec.seen == st.hist else rec.seen <= st.records[st.pstate].seen)
  }

  /** Waiting for an answer. */
  predicate Asking(pc: Pc) {
    !pc.Idle? && !pc.Registering? && !pc.Activating?
  }

  /** Asking without having found the answer. */
  predicate Looking(pc: Pc) {
    pc.Trying? || pc.Locking? || pc.Waiting? || pc.Checking?
  }

  /** A request is outstanding when it has been activated and not executed. */
  ghost predicate RequestOK(st: State, t: Tid)
    requires t < |st.pcs| && t < |st.requests|
  {
    var act := st.requests[t].activate;
    && (!Asking(st.pcs[t]) ==> act == Done(st.hist, t))
    && (Asking(st.pcs[t]) ==> act == Done(st.hist, t) || act == Done(st.hist, t) + 1)
    && (Asking(st.pcs[t]) && act == Done(st.hist, t) ==>
          Last(st.hist, t).Some? && Last(st.hist, t).value.arg == st.requests[t].arg)
  }

  ghost predicate PcOK(k: Config, st: State, t: Tid)
    requires Shaped(k, st) && t < k.n
  {
    var act := st.requests[t].activate;
    var answered := act == Done(st.hist, t);
    match st.pcs[t]
    case Checking(r) => r < |st.records|
    case Copying(i) => i < |k.order|
    case Fetching(r) => r < |st.records| && answered && st.records[r].deactivate[t] == act
    case Serving(round, q, served) => q <= k.n && (round > 0 || q > t ==> answered)
    case Applying(round, q, served, a) =>
      && q < k.n && a == st.requests[q].activate && a == Done(st.hist, q) + 1 && Asking(st.pcs[q])
      && (round > 0 || q > t ==> answered)
    case Marking(round, q, served, a) =>
      && q < k.n && (round > 0 || q >= t ==> answered)
      && a == st.requests[q].activate && HalfSnap(k, st.records[Mine(st, t)], q, a)
      && (forall r :: 0 <= r < |st.records| ==> st.records[r].deactivate[q] < a)
      && (q == t || Looking(st.pcs[q]))
    case Committing => answered
    case Flipping => answered && st.pstate == Mine(st, t)
    case Unlocking(r) => answered && st.pstate == r && r == Rec(t, 1 - st.index[t])
    case Leaving(r) => answered && r == Rec(t, 1 - st.index[t]) && st.records[r].deactivate[t] == act
    case Returning(v) => answered && v == Result(st.hist, t)
    case _ => true
  }

  ghost predicate LockOK(k: Config, st: State)
    requires Shaped(k, st)
  {
    && (st.lock.holder.Some? ==> st.lock.holder.value < k.n && Holding(st.pcs[st.lock.holder.value]))
    && (forall t :: 0 <= t < k.n && Holding(st.pcs[t]) ==> st.lock.holder == Some(t))
    && (st.lock.holder.None? && st.lock.ptr.Some? ==> st.lock.ptr.value < |st.records|)
    && (st.lock == Lock(None, None) ==>
          forall t :: 0 <= t < k.n ==> !st.pcs[t].Waiting? && (st.pcs[t].Locking? ==> st.pcs[t].ptr.None?))
  }

  /** Nobody but a thread that has just published it works on the published record. */
  ghost predicate Unpublished(k: Config, st: State)
    requires Shaped(k, st)
  {
    forall t :: 0 <= t < k.n && !st.pcs[t].Flipping? ==> Mine(st, t) != st.pstate
  }

  ghost predicate Inv(k: Config, st: State) {
    && Shaped(k, st) && Complete(k) && ResultsFirst(k)
    && Legal(k, st.hist)
    && LockOK(k, st)
    && Unpublished(k, st)
    && (InWork(st).None? ==> st.records[st.pstate].seen == st.hist)
    && st.records[st.pstate].seen <= st.hist
    && (forall r {:trigger RecordOK(k, st, r)} :: 0 <= r < |st.records| ==> RecordOK(k, st, r))
    && (forall t {:trigger RequestOK(st, t)} :: 0 <= t < k.n ==> RequestOK(st, t))
    && (forall t {:trigger PcOK(k, st, t)} :: 0 <= t < k.n ==> PcOK(k, st, t))
  }

  // Histories

  lemma FrontLegal(k: Config, h: seq<Exec>)
    requires Legal(k, h) && h != []
    ensures Legal(k, Front(h))
  {
    var f := Front(h);
    forall i | 0 <= i < |f| ensures LegalAt(k, f, i) {
      assert LegalAt(k, h, i) && f[..i] == h[..i];
    }
  }

  /** Along a legal history a thread's number of executions grows, and equal numbers mean the same last execution. */
  lemma {:induction false} PrefixDone(k: Config, h: seq<Exec>, g: seq<Exec>, t: Tid)
    requires Legal(k, h) && g <= h
    ensures Legal(k, g)
    ensures Done(g, t) <= Done(h, t)
    ensures Done(g, t) == Done(h, t) ==> Last(g, t) == Last(h, t)
    decreases |h|
  {
    if g == h {
    } else {
      var f := Front(h);
      assert g == h[..|g|] && g <= f;
      FrontLegal(k, h);
      PrefixDone(k, f, g, t);
      var e := h[|h| - 1];
      assert LegalAt(k, h, |h| - 1) && h[..|h| - 1] == f;
      if e.t == t {
        assert Done(h, t) == Done(f, t) + 1;
      }
    }
  }

  lemma Extend(k: Config, h: seq<Exec>, e: Exec)
    requires Legal(k, h) && e.k == Done(h, e.t) + 1 && e.ret == k.f(Fold(k, h), e.arg).1
    ensures Legal(k, h + [e]) && Fold(k, h + [e]) == k.f(Fold(k, h), e.arg).0
    ensures Last(h + [e], e.t) == Some(e)
    ensures forall t :: t != e.t ==> Last(h + [e], t) == Last(h, t)
  {
    var h' := h + [e];
    assert Front(h') == h;
    forall i | 0 <= i < |h'| ensures LegalAt(k, h', i) {
      if i < |h| {
        assert LegalAt(k, h, i) && h'[..i] == h[..i];
      } else {
        assert h'[..i] == h;
      }
    }
  }

  // Steps that leave the records alone

  /** Thread `t` moves; nothing else changes but its own request. */
  ghost predicate Moves(k: Config, st: State, st': State, t: Tid) {
    && Shaped(k, st) && Shaped(k, st') && t < k.n
    && st'.lock == st.lock && st'.records == st.records && st'.index == st.index
    && st'.pstate == st.pstate && st'.hist == st.hist
    && forall u :: 0 <= u < k.n && u != t ==> st'.pcs[u] == st.pcs[u] && st'.requests[u] == st.requests[u]
  }

  /** The move does not take anything from a combiner that is serving `t`: it stays until it has an answer. */
  ghost predicate Patient(st: State, st': State, t: Tid)
    requires t < |st.pcs| && t < |st'.pcs| && t < |st.requests| && t < |st'.requests|
    requires forall r :: 0 <= r < |st.records| ==> t < |st.records[r].deactivate|
  {
    && (st'.requests[t] == st.requests[t] || !Asking(st.pcs[t]))
    && (Asking(st.pcs[t]) && st.requests[t].activate != Done(st.hist, t) ==> Asking(st'.pcs[t]))
    && (Looking(st.pcs[t]) && !Looking(st'.pcs[t]) ==>
          exists r :: 0 <= r < |st.records| && st.records[r].deactivate[t] >= st.requests[t].activate)
  }

  lemma MovePc(k: Config, st: State, st': State, t: Tid, u: Tid)
    requires Moves(k, st, st', t) && Patient(st, st', t) && RequestOK(st, t) && u < k.n && u != t
    requires PcOK(k, st, u)
    ensures PcOK(k, st', u)
  {
  }

  lemma MoveKeeps(k: Config, st: State, st': State, t: Tid)
    requires Inv(k, st) && Moves(k, st, st', t) && Patient(st, st', t)
    requires !Holding(st.pcs[t]) && !Holding(st'.pcs[t])
    requires RequestOK(st', t) && PcOK(k, st', t)
    requires st.lock == Lock(None, None) ==> !st'.pcs[t].Waiting? && (st'.pcs[t].Locking? ==> st'.pcs[t].ptr.None?)
    ensures Inv(k, st')
  {
    assert HalfDone(st') == HalfDone(st) && InWork(st') == InWork(st) && InCopy(st') == InCopy(st);
    forall r | 0 <= r < |st'.records| ensures RecordOK(k, st', r) {
      assert RecordOK(k, st, r);
    }
    forall u | 0 <= u < k.n ensures RequestOK(st', u) && PcOK(k, st', u) {
      assert RequestOK(st, u);
      assert RequestOK(st, t);
      if u != t {
        assert PcOK(k, st, u);
        MovePc(k, st, st', t, u);
      }
    }
  }

  /** A record is not ahead of the history, and where it is not behind it has the right result. */
  ghost predicate Tells(st: State, r: Rid, t: Tid)
  {
    && r < |st.records| && t < |st.records[r].deactivate| && t < |st.records[r].ret|
    && st.records[r].deactivate[t] <= Done(st.hist, t)
    && (st.records[r].deactivate[t] == Done(st.hist, t) ==> st.records[r].ret[t] == Result(st.hist, t))
  }

  lemma RecordTells(k: Config, st: State, r: Rid, t: Tid)
    requires Inv(k, st) && r < |st.records| && t < k.n
    ensures Tells(st, r, t)
  {
    assert RecordOK(k, st, r);
    assert st.records[r].seen <= st.hist;
    PrefixDone(k, st.hist, st.records[r].seen, t);
    if HalfDone(st) == Some(r) {
      assert PcOK(k, st, st.lock.holder.value);
    } else if InCopy(st) == Some(r) {
      assert st.records[st.pstate].seen == st.hist;
    }
  }

  /** Waiting never looks through a null pointer. */
  lemma WaitingSees(k: Config, st: State, t: Tid)
    requires Inv(k, st) && t < k.n && st.pcs[t].Waiting? && st.lock.holder.None?
    ensures st.lock.ptr.Some? && st.lock.ptr.value < |st.records|
  {
  }

  /** An asking step that does not take the lock. */
  lemma AskMoves(k: Config, st: State, t: Tid)
    requires Shaped(k, st) && t < k.n && !Holding(st.pcs[t]) && !Answering(st.pcs[t])
    requires PcOK(k, st, t) && RequestOK(st, t) && LockOK(k, st)
    requires !(st.pcs[t].Locking? && st.lock == Lock(st.pcs[t].ptr, None))
    ensures AskStep(k, st, t).Some?
    ensures var st' := AskStep(k, st, t).value;
            && Moves(k, st, st', t) && Patient(st, st', t) && PcOK(k, st', t) && RequestOK(st', t)
            && !Holding(st'.pcs[t])
            && (st.lock == Lock(None, None) ==> !st'.pcs[t].Waiting? && (st'.pcs[t].Locking? ==> st'.pcs[t].ptr.None?))
  {
  }

  lemma AnswerMoves(k: Config, st: State, t: Tid)
    requires Shaped(k, st) && t < k.n && Answering(st.pcs[t])
    requires PcOK(k, st, t) && RequestOK(st, t)
    requires !st.pcs[t].Returning? ==> Tells(st, st.pcs[t].r, t)
    ensures AnswerStep(k, st, t).Some?
    ensures var st' := AnswerStep(k, st, t).value;
            && Moves(k, st, st', t) && Patient(st, st', t) && PcOK(k, st', t) && RequestOK(st', t)
            && !Holding(st'.pcs[t])
            && !st'.pcs[t].Waiting? && !st'.pcs[t].Locking?
  {
  }

  lemma ClientKeeps(k: Config, st: State, t: Tid)
    requires Inv(k, st) && t < k.n && !Holding(st.pcs[t])
    requires !(st.pcs[t].Locking? && st.lock == Lock(st.pcs[t].ptr, None))
    ensures Step(k, st, Go(t)).Some? && Inv(k, Step(k, st, Go(t)).value)
  {
    assert PcOK(k, st, t);
    assert RequestOK(st, t);
    if Answering(st.pcs[t]) {
      if !st.pcs[t].Returning? {
        RecordTells(k, st, st.pcs[t].r, t);
      }
      AnswerMoves(k, st, t);
    } else {
      AskMoves(k, st, t);
    }
    MoveKeeps(k, st, Step(k, st, Go(t)).value, t);
  }

  lemma IssueKeeps(k: Config, st: State, t: Tid, arg: int)
    requires Inv(k, st) && t < k.n && st.pcs[t].Idle?
    ensures Inv(k, At(st, t, Registering(arg)))
  {
    assert PcOK(k, st, t);
    assert RequestOK(st, t);
    MoveKeeps(k, st, At(st, t, Registering(arg)), t);
  }

  // Steps of the combiner

  /** Everybody but `t` is where it was, with the request it had. */
  ghost predicate Alone(k: Config, st: State, st': State, t: Tid) {
    && Shaped(k, st) && Shaped(k, st') && t < k.n && st'.requests == st.requests
    && forall u :: 0 <= u < k.n && u != t ==> st'.pcs[u] == st.pcs[u] && st'.index[u] == st.index[u]
  }

  /** An answer thread `u` could have seen is still there. */
  ghost predicate AnswersStay(k: Config, st: State, st': State, u: Tid)
    requires Shaped(k, st) && Shaped(k, st') && u < k.n
  {
    var act := st.requests[u].activate;
    act == Done(st.hist, u) ==>
      && Last(st'.hist, u) == Last(st.hist, u)
      && forall r :: 0 <= r < |st.records| && st.records[r].deactivate[u] == act ==> st'.records[r].deactivate[u] == act
  }

  lemma OtherPc(k: Config, st: State, st': State, t: Tid, u: Tid)
    requires Alone(k, st, st', t) && u < k.n && u != t && !Holding(st.pcs[u])
    requires PcOK(k, st, u) && AnswersStay(k, st, st', u)
    ensures PcOK(k, st', u)
  {
  }

  /** From the parts that change to the whole. */
  lemma Conclude(k: Config, st: State, st': State, t: Tid)
    requires Inv(k, st) && Alone(k, st, st', t)
    requires Legal(k, st'.hist) && LockOK(k, st') && Unpublished(k, st')
    requires InWork(st').None? ==> st'.records[st'.pstate].seen == st'.hist
    requires st'.records[st'.pstate].seen <= st'.hist
    requires forall r {:trigger RecordOK(k, st', r)} :: 0 <= r < |st'.records| ==> RecordOK(k, st', r)
    requires forall u {:trigger RequestOK(st', u)} :: 0 <= u < k.n ==> RequestOK(st', u)
    requires PcOK(k, st', t) && st.lock.holder in {None, Some(t)}
    requires forall u {:trigger AnswersStay(k, st, st', u)} :: 0 <= u < k.n && u != t ==> AnswersStay(k, st, st', u)
    ensures Inv(k, st')
  {
    forall u | 0 <= u < k.n ensures PcOK(k, st', u) {
      if u != t {
        assert PcOK(k, st, u);
        assert AnswersStay(k, st, st', u);
        OtherPc(k, st, st', t, u);
      }
    }
  }

  lemma LockKeeps(k: Config, st: State, t: Tid)
    requires Inv(k, st) && t < k.n && st.pcs[t].Locking? && st.lock == Lock(st.pcs[t].ptr, None)
    ensures AskStep(k, st, t).Some? && Inv(k, AskStep(k, st, t).value)
  {
    var st' := AskStep(k, st, t).value;
    assert InWork(st').None? && HalfDone(st').None? && InWork(st).None? && HalfDone(st).None? && InCopy(st).None?;
    forall r | 0 <= r < |st'.records| ensures RecordOK(k, st', r) {
      assert RecordOK(k, st, r);
    }
    forall u | 0 <= u < k.n ensures RequestOK(st', u) {
      assert RequestOK(st, u);
    }
    forall u | 0 <= u < k.n && u != t ensures AnswersStay(k, st, st', u) {
    }
    Conclude(k, st, st', t);
  }

  lemma RequestsKeep(k: Config, st: State, st': State, t: Tid)
    requires Inv(k, st) && Alone(k, st, st', t) && st'.hist == st.hist && Asking(st.pcs[t]) && Asking(st'.pcs[t])
    ensures forall u {:trigger RequestOK(st', u)} :: 0 <= u < k.n ==> RequestOK(st', u)
  {
    forall u | 0 <= u < k.n ensures RequestOK(st', u) {
      assert RequestOK(st, u);
    }
  }

  lemma CopyKeeps(k: Config, st: State, t: Tid)
    requires Inv(k, st) && t < k.n && st.pcs[t].Copying?
    ensures PerformStep(k, st, t).Some? && Inv(k, PerformStep(k, st, t).value)
  {
    assert PcOK(k, st, t);
    CopySome(k, st, t);
    var st' := PerformStep(k, st, t).value;
    assert st.lock.holder == Some(t) && InWork(st).None? && HalfDone(st).None?;
    CopyRecords(k, st, t);
    RequestsKeep(k, st, st', t);
    forall u | 0 <= u < k.n && u != t ensures AnswersStay(k, st, st', u) {
      CopyTells(k, st, u);
    }
    Conclude(k, st, st', t);
  }

  lemma CopySome(k: Config, st: State, t: Tid)
    requires Shaped(k, st) && Complete(k) && t < k.n && st.pcs[t].Copying? && st.pcs[t].i < |k.order|
    ensures PerformStep(k, st, t).Some?
  {
    assert InRange(k, st.pcs[t].i);
  }

  /** One field more is that of the published record. */
  lemma BlendOn(k: Config, r: Record, from: Record, i: nat, q: seq<Field>, field: Field)
    requires Complete(k) && ResultsFirst(k) && i < |k.order| && q == k.order[..i] && field == k.order[i]
    requires Blend(k, r, from.seen, q) && Snap(k, from)
    ensures (field.Data? || field.t < k.n) && q + [field] == k.order[..i + 1]
    ensures Blend(k, CopyField(r, from, field), from.seen, q + [field])
  {
    assert InRange(k, i) && ResultBefore(k, i);
    BlendField(k, r, from, q, field);
  }

  lemma BlendField(k: Config, r: Record, from: Record, q: seq<Field>, field: Field)
    requires Blend(k, r, from.seen, q) && Snap(k, from) && (field.Data? || field.t < k.n)
    requires field.Number? ==> Ret(field.t) in q
    ensures Blend(k, CopyField(r, from, field), from.seen, q + [field])
  {
    var q' := q + [field];
    assert forall g :: g in q' <==> g in q || g == field;
    match field
    case Data =>
    case Ret(u) =>
    case Number(u) =>
  }

  /** And all fields make the whole record. */
  lemma BlendAll(k: Config, r: Record, h: seq<Exec>)
    requires Complete(k) && Blend(k, r, h, k.order)
    ensures Snap(k, r.(seen := h))
  {
    forall t | 0 <= t < k.n ensures r.ret[t] == Result(h, t) && r.deactivate[t] == Done(h, t) {
      assert Listed(k, t);
    }
  }

  lemma CopyRecords(k: Config, st: State, t: Tid)
    requires Inv(k, st) && t < k.n && st.pcs[t].Copying?
    ensures PerformStep(k, st, t).Some?
    ensures var st' := PerformStep(k, st, t).value;
            && |st'.records| == |st.records| && st'.pstate == st.pstate < |st.records|
            && forall r {:trigger RecordOK(k, st', r)} :: 0 <= r < |st'.records| ==> RecordOK(k, st', r)
  {
    assert PcOK(k, st, t);
    CopySome(k, st, t);
    var st' := PerformStep(k, st, t).value;
    var r, pc := Mine(st, t), st.pcs[t];
    assert InWork(st).None? && HalfDone(st).None? && HalfDone(st').None? && InCopy(st) == Some(r);
    assert RecordOK(k, st, st.pstate);
    assert RecordOK(k, st, r);
    BlendOn(k, st.records[r], st.records[st.pstate], pc.i, k.order[..pc.i], k.order[pc.i]);
    if pc.i + 1 == |k.order| {
      assert k.order[..pc.i + 1] == k.order;
      BlendAll(k, CopyField(st.records[r], st.records[st.pstate], k.order[pc.i]), st.records[st.pstate].seen);
    }
    forall r' | 0 <= r' < |st'.records| ensures RecordOK(k, st', r') {
      assert RecordOK(k, st, r');
    }
  }

  /** A number that is the latest already does not change when it is copied. */
  lemma CopyTells(k: Config, st: State, u: Tid)
    requires Inv(k, st) && u < k.n && InWork(st).None? && HalfDone(st).None? && InCopy(st) != Some(st.pstate)
    ensures st.records[st.pstate].deactivate[u] == Done(st.hist, u)
  {
    assert RecordOK(k, st, st.pstate);
  }

  /** Serving passes over a thread only when its request has been executed. */
  lemma ServePc(k: Config, st: State, t: Tid, round: nat, q: Tid, served: nat)
    requires Shaped(k, st) && t < k.n && st.pcs[t] == Serving(round, q, served) && PcOK(k, st, t)
    requires Snap(k, st.records[Mine(st, t)]) && st.records[Mine(st, t)].seen == st.hist
    requires RequestOK(st, t) && (q < k.n ==> RequestOK(st, q))
    ensures PcOK(k, At(st, t, ServeNext(k, st, t, round, q, served)), t)
  {
  }

  lemma ServeKeeps(k: Config, st: State, t: Tid)
    requires Inv(k, st) && t < k.n && st.pcs[t].Serving?
    ensures PerformStep(k, st, t).Some? && Inv(k, PerformStep(k, st, t).value)
  {
    var pc := st.pcs[t];
    var st' := At(st, t, ServeNext(k, st, t, pc.round, pc.q, pc.served));
    var r := Mine(st, t);
    assert st.lock.holder == Some(t) && InWork(st) == Some(r) && HalfDone(st).None?;
    assert InWork(st') == Some(r) && HalfDone(st').None?;
    assert PcOK(k, st, t);
    assert RecordOK(k, st, r);
    assert RequestOK(st, t);
    if pc.q < k.n {
      assert RequestOK(st, pc.q);
    }
    ServePc(k, st, t, pc.round, pc.q, pc.served);
    forall r' | 0 <= r' < |st'.records| ensures RecordOK(k, st', r') {
      assert RecordOK(k, st, r');
    }
    RequestsKeep(k, st, st', t);
    forall u | 0 <= u < k.n && u != t ensures AnswersStay(k, st, st', u) {
    }
    Conclude(k, st, st', t);
  }

  /** The record after applying a request, and the history with it. */
  lemma ApplySnap(k: Config, r: Record, q: Tid, e: Exec)
    requires Snap(k, r) && Legal(k, r.seen) && q == e.t < k.n
    requires e.k == Done(r.seen, q) + 1 && e.ret == k.f(r.data, e.arg).1
    ensures HalfSnap(k, Apply(k, r, q, e), q, e.k)
  {
    Extend(k, r.seen, e);
  }

  lemma MarkSnap(k: Config, r: Record, q: Tid, act: nat)
    requires HalfSnap(k, r, q, act)
    ensures Snap(k, r.(deactivate := r.deactivate[q := act]))
  {
  }

  /** Thread `t` appends execution `e` to the history and to its record. */
  ghost predicate Applies(k: Config, st: State, st': State, t: Tid, e: Exec) {
    && Alone(k, st, st', t) && st.pcs[t].Applying? && st.pcs[t].q < k.n
    && var pc := st.pcs[t];
    && e.t == pc.q && e.k == pc.activate && e.arg == st.requests[pc.q].arg
    && e.ret == k.f(st.records[Mine(st, t)].data, e.arg).1
    && st'.pcs[t] == Marking(pc.round, pc.q, pc.served, pc.activate)
    && st'.lock == st.lock && st'.pstate == st.pstate && st'.index == st.index
    && st'.hist == st.hist + [e]
    && st'.records == st.records[Mine(st, t) := Apply(k, st.records[Mine(st, t)], pc.q, e)]
  }

  /** A request that has not been executed has been answered in no record, and its issuer is still looking. */
  lemma Unanswered(k: Config, st: State, q: Tid)
    requires Inv(k, st) && q < k.n && Asking(st.pcs[q]) && st.requests[q].activate == Done(st.hist, q) + 1
    ensures forall r :: 0 <= r < |st.records| ==> st.records[r].deactivate[q] < st.requests[q].activate
    ensures Looking(st.pcs[q]) || Holding(st.pcs[q])
  {
    assert PcOK(k, st, q);
    forall r | 0 <= r < |st.records| ensures st.records[r].deactivate[q] < st.requests[q].activate {
      RecordTells(k, st, r, q);
    }
  }

  lemma ApplyPc(k: Config, st: State, st': State, t: Tid, e: Exec)
    requires Applies(k, st, st', t, e) && PcOK(k, st, t) && RequestOK(st, t)
    requires Last(st'.hist, e.t) == Some(e) && (t != e.t ==> Last(st'.hist, t) == Last(st.hist, t))
    requires HalfSnap(k, st'.records[Mine(st, t)], e.t, e.k)
    requires forall r :: 0 <= r < |st.records| ==> st.records[r].deactivate[e.t] < e.k
    requires e.t == t || Looking(st.pcs[e.t])
    ensures PcOK(k, st', t)
  {
  }

  lemma ApplyRecords(k: Config, st: State, st': State, t: Tid, e: Exec)
    requires Inv(k, st) && Applies(k, st, st', t, e)
    ensures HalfSnap(k, st'.records[Mine(st, t)], e.t, e.k)
    ensures InWork(st') == Some(Mine(st, t))
    ensures forall r {:trigger RecordOK(k, st', r)} :: 0 <= r < |st'.records| ==> RecordOK(k, st', r)
  {
    var r := Mine(st, t);
    assert PcOK(k, st, t);
    assert RecordOK(k, st, r);
    ApplySnap(k, st.records[r], e.t, e);
    forall r' | 0 <= r' < |st'.records| ensures RecordOK(k, st', r') {
      assert RecordOK(k, st, r');
    }
  }

  lemma ApplyRequests(k: Config, st: State, st': State, t: Tid, e: Exec)
    requires Inv(k, st) && Applies(k, st, st', t, e) && Last(st'.hist, e.t) == Some(e) && PcOK(k, st, t)
    requires forall u :: u != e.t ==> Last(st'.hist, u) == Last(st.hist, u)
    ensures forall u {:trigger RequestOK(st', u)} :: 0 <= u < k.n ==> RequestOK(st', u)
  {
    forall u | 0 <= u < k.n ensures RequestOK(st', u) {
      assert RequestOK(st, u);
    }
  }

  lemma ApplyKeeps(k: Config, st: State, st': State, t: Tid, e: Exec)
    requires Inv(k, st) && Applies(k, st, st', t, e)
    ensures Inv(k, st')
  {
    assert PcOK(k, st, t);
    assert RecordOK(k, st, Mine(st, t));
    assert st.lock.holder == Some(t);
    Extend(k, st.hist, e);
    ApplyRecords(k, st, st', t, e);
    Unanswered(k, st, e.t);
    assert RequestOK(st, t);
    ApplyPc(k, st, st', t, e);
    ApplyRequests(k, st, st', t, e);
    forall u | 0 <= u < k.n && u != t ensures AnswersStay(k, st, st', u) {
    }
    Conclude(k, st, st', t);
  }

  lemma ApplyIs(k: Config, st: State, t: Tid) returns (e: Exec)
    requires Shaped(k, st) && t < k.n && st.pcs[t].Applying? && st.pcs[t].q < k.n
    ensures PerformStep(k, st, t).Some? && Applies(k, st, PerformStep(k, st, t).value, t, e)
  {
    var q := st.pcs[t].q;
    e := Exec(q, st.pcs[t].activate, st.requests[q].arg, k.f(st.records[Mine(st, t)].data, st.requests[q].arg).1);
  }

  lemma MarkRecords(k: Config, st: State, t: Tid)
    requires Inv(k, st) && t < k.n && st.pcs[t].Marking?
    ensures PerformStep(k, st, t).Some?
    ensures var st' := PerformStep(k, st, t).value;
            && |st'.records| == |st.records| && st'.pstate == st.pstate < |st.records|
            && st'.records[st.pstate].seen == st.records[st.pstate].seen
            && forall r {:trigger RecordOK(k, st', r)} :: 0 <= r < |st'.records| ==> RecordOK(k, st', r)
  {
    var r := Mine(st, t);
    assert PcOK(k, st, t);
    var st' := PerformStep(k, st, t).value;
    assert st.lock.holder == Some(t) && InWork(st) == Some(r) && HalfDone(st) == Some(r);
    assert InWork(st') == Some(r) && HalfDone(st').None?;
    MarkSnap(k, st.records[r], st.pcs[t].q, st.pcs[t].activate);
    forall r' | 0 <= r' < |st'.records| ensures RecordOK(k, st', r') {
      assert RecordOK(k, st, r');
    }
  }

  lemma MarkKeeps(k: Config, st: State, t: Tid)
    requires Inv(k, st) && t < k.n && st.pcs[t].Marking?
    ensures PerformStep(k, st, t).Some? && Inv(k, PerformStep(k, st, t).value)
  {
    var pc := st.pcs[t];
    var q := pc.q;
    var r := Mine(st, t);
    assert PcOK(k, st, t);
    assert RequestOK(st, t);
    var st' := PerformStep(k, st, t).value;
    assert st.lock.holder == Some(t) && InWork(st) == Some(r) && HalfDone(st) == Some(r);
    assert InWork(st') == Some(r) && HalfDone(st').None?;
    MarkRecords(k, st, t);
    RequestsKeep(k, st, st', t);
    forall u | 0 <= u < k.n && u != t ensures AnswersStay(k, st, st', u) {
    }
    Conclude(k, st, st', t);
  }

  lemma CommitKeeps(k: Config, st: State, t: Tid)
    requires Inv(k, st) && t < k.n && st.pcs[t].Committing?
    ensures PublishStep(k, st, t).Some? && Inv(k, PublishStep(k, st, t).value)
  {
    var st' := PublishStep(k, st, t).value;
    var r := Mine(st, t);
    assert PcOK(k, st, t);
    assert RecordOK(k, st, r);
    assert st.lock.holder == Some(t) && InWork(st) == Some(r) && HalfDone(st).None?;
    assert InWork(st').None? && HalfDone(st').None?;
    forall r' | 0 <= r' < |st'.records| ensures RecordOK(k, st', r') {
      assert RecordOK(k, st, r');
    }
    RequestsKeep(k, st, st', t);
    forall u | 0 <= u < k.n && u != t ensures AnswersStay(k, st, st', u) {
    }
    Conclude(k, st, st', t);
  }

  /** After the commit nothing happens to the records until the lock is released. */
  lemma AfterCommit(k: Config, st: State, st': State, t: Tid)
    requires Inv(k, st) && Alone(k, st, st', t) && (st.pcs[t].Flipping? || st.pcs[t].Unlocking?)
    requires st'.records == st.records && st'.hist == st.hist && st'.pstate == st.pstate
    requires st'.pcs[t].Unlocking? || st'.pcs[t].Leaving?
    requires LockOK(k, st') && Unpublished(k, st') && PcOK(k, st', t)
    ensures Inv(k, st')
  {
    assert st.lock.holder == Some(t) && InWork(st).None? && HalfDone(st).None?;
    assert InWork(st').None? && HalfDone(st').None?;
    forall r | 0 <= r < |st'.records| ensures RecordOK(k, st', r) {
      assert RecordOK(k, st, r);
    }
    RequestsKeep(k, st, st', t);
    forall u | 0 <= u < k.n && u != t ensures AnswersStay(k, st, st', u) {
    }
    Conclude(k, st, st', t);
  }

  lemma FlipKeeps(k: Config, st: State, t: Tid)
    requires Inv(k, st) && t < k.n && st.pcs[t].Flipping?
    ensures PublishStep(k, st, t).Some? && Inv(k, PublishStep(k, st, t).value)
  {
    assert PcOK(k, st, t);
    AfterCommit(k, st, PublishStep(k, st, t).value, t);
  }

  lemma UnlockKeeps(k: Config, st: State, t: Tid)
    requires Inv(k, st) && t < k.n && st.pcs[t].Unlocking?
    ensures PublishStep(k, st, t).Some? && Inv(k, PublishStep(k, st, t).value)
  {
    assert PcOK(k, st, t);
    assert RecordOK(k, st, st.pstate);
    AfterCommit(k, st, PublishStep(k, st, t).value, t);
  }

  // Whole runs

  lemma PerformKeeps(k: Config, st: State, t: Tid)
    requires Inv(k, st) && t < k.n && Holding(st.pcs[t]) && !Publishing(st.pcs[t])
    ensures PerformStep(k, st, t).Some? && Inv(k, PerformStep(k, st, t).value)
  {
    assert PcOK(k, st, t);
    if st.pcs[t].Copying? {
      CopyKeeps(k, st, t);
    } else if st.pcs[t].Serving? {
      ServeKeeps(k, st, t);
    } else if st.pcs[t].Applying? {
      var e := ApplyIs(k, st, t);
      ApplyKeeps(k, st, PerformStep(k, st, t).value, t, e);
    } else {
      MarkKeeps(k, st, t);
    }
  }

  lemma PublishKeeps(k: Config, st: State, t: Tid)
    requires Inv(k, st) && t < k.n && Publishing(st.pcs[t])
    ensures PublishStep(k, st, t).Some? && Inv(k, PublishStep(k, st, t).value)
  {
    if st.pcs[t].Committing? {
      CommitKeeps(k, st, t);
    } else if st.pcs[t].Flipping? {
      FlipKeeps(k, st, t);
    } else {
      UnlockKeeps(k, st, t);
    }
  }

  /** No step panics, and every step keeps the invariant. */
  lemma StepKeeps(k: Config, st: State, a: Action)
    requires Inv(k, st) && Enabled(k, st, a)
    ensures Step(k, st, a).Some? && Inv(k, Step(k, st, a).value)
  {
    var t := a.t;
    if a.Issue? {
      IssueKeeps(k, st, t, a.arg);
    } else if Publishing(st.pcs[t]) {
      PublishKeeps(k, st, t);
    } else if Holding(st.pcs[t]) {
      PerformKeeps(k, st, t);
    } else if st.pcs[t].Locking? && st.lock == Lock(st.pcs[t].ptr, None) {
      LockKeeps(k, st, t);
    } else {
      ClientKeeps(k, st, t);
    }
  }

  lemma InitKeeps(k: Config)
    requires Complete(k) && ResultsFirst(k)
    ensures Inv(k, Init(k))
  {
    var st := Init(k);
    forall r | 0 <= r < |st.records| ensures RecordOK(k, st, r) {
    }
    forall t | 0 <= t < k.n ensures RequestOK(st, t) && PcOK(k, st, t) {
    }
  }

  ghost predicate IsRun(k: Config, states: seq<State>, acts: seq<Action>) {
    && |states| == |acts| + 1
    && states[0] == Init(k)
    && forall n :: 0 <= n < |acts| ==>
         && Shaped(k, states[n]) && Enabled(k, states[n], acts[n])
         && Step(k, states[n], acts[n]) == Some(states[n + 1])
  }

  lemma {:induction false} RunsKeep(k: Config, states: seq<State>, acts: seq<Action>, n: nat)
    requires Complete(k) && ResultsFirst(k) && IsRun(k, states, acts) && n < |states|
    ensures Inv(k, states[n])
  {
    if n == 0 {
      InitKeeps(k);
    } else {
      var m := n - 1;
      RunsKeep(k, states, acts, m);
      assert Enabled(k, states[m], acts[m]) && Step(k, states[m], acts[m]) == Some(states[m + 1]);
      StepKeeps(k, states[m], acts[m]);
    }
  }

  // What follows

  /** No request is executed twice. */
  lemma ExecutedOnce(k: Config, h: seq<Exec>, i: nat, j: nat)
    requires Legal(k, h) && i < j < |h| && h[i].t == h[j].t
    ensures h[i].k < h[j].k
  {
    var g := h[..i + 1];
    assert Front(g) == h[..i];
    assert g <= h[..j];
    PrefixDone(k, h, h[..j], h[i].t);
    PrefixDone(k, h[..j], g, h[i].t);
    assert Done(g, h[i].t) == h[i].k && LegalAt(k, h, j);
  }

  lemma {:induction false} LastAt(h: seq<Exec>, t: Tid) returns (i: nat)
    requires Last(h, t).Some?
    ensures i < |h| && h[i] == Last(h, t).value && h[i].t == t && forall j :: i < j < |h| ==> h[j].t != t
    decreases |h|
  {
    if h[|h| - 1].t == t {
      i := |h| - 1;
    } else {
      i := LastAt(Front(h), t);
    }
  }

  /**
  A thread about to return has had its request, with its argument, executed exactly once, and returns the result that
  the operation gave in its turn.
  */
  lemma ReturnsItsResult(k: Config, st: State, t: Tid) returns (i: nat)
    requires Inv(k, st) && t < k.n && st.pcs[t].Returning?
    ensures i < |st.hist| && st.hist[i].t == t && st.hist[i].k == st.requests[t].activate
    ensures st.hist[i].arg == st.requests[t].arg
    ensures st.pcs[t].value == k.f(Fold(k, st.hist[..i]), st.requests[t].arg).1
    ensures forall j :: 0 <= j < |st.hist| && st.hist[j].t == t && st.hist[j].k == st.requests[t].activate ==> j == i
  {
    assert PcOK(k, st, t);
    assert RequestOK(st, t);
    i := LastAt(st.hist, t);
    assert LegalAt(k, st.hist, i);
    forall j | 0 <= j < |st.hist| && st.hist[j].t == t && st.hist[j].k == st.requests[t].activate ensures j == i {
      if j < i {
        ExecutedOnce(k, st.hist, j, i);
      }
    }
  }

  // From the issue of a request to its answer

  /** Thread `t` issues argument `x` in step `m`, and nothing after that before state `n`. */
  ghost predicate IssuedLast(acts: seq<Action>, t: Tid, x: int, m: nat, n: nat) {
    m < n <= |acts| && acts[m] == Issue(t, x) && forall j :: m < j < n ==> !(acts[j].Issue? && acts[j].t == t)
  }

  /** The argument is on its way to the thread's request, or is there; the request is counted once. */
  lemma {:induction false} ArgumentArrives(k: Config, states: seq<State>, acts: seq<Action>, t: Tid, x: int, m: nat,
                                           n: nat)
    requires IsRun(k, states, acts) && IssuedLast(acts, t, x, m, n) && t < k.n
    ensures t < |states[n].pcs| && t < |states[n].requests| && t < |states[m].requests|
    ensures if states[n].pcs[t].Registering? then states[n].pcs[t].arg == x else states[n].requests[t].arg == x
    ensures states[n].requests[t].activate == states[m].requests[t].activate +
              if states[n].pcs[t].Registering? || states[n].pcs[t].Activating? then 0 else 1
    decreases n
  {
    var j := n - 1;
    assert Shaped(k, states[j]) && Enabled(k, states[j], acts[j]) && Step(k, states[j], acts[j]) == Some(states[j + 1]);
    if j > m {
      ArgumentArrives(k, states, acts, t, x, m, j);
    }
  }

  lemma {:induction false} HistoryGrows(k: Config, states: seq<State>, acts: seq<Action>, m: nat, n: nat)
    requires IsRun(k, states, acts) && m <= n < |states|
    ensures states[m].hist <= states[n].hist
    decreases n
  {
    if m < n {
      HistoryGrows(k, states, acts, m, n - 1);
      assert Step(k, states[n - 1], acts[n - 1]) == Some(states[n - 1 + 1]);
    }
  }

  /** No execution so far has a higher number than the last of its thread. */
  lemma NumbersBound(k: Config, h: seq<Exec>, t: Tid, j: nat)
    requires Legal(k, h) && j < |h| && h[j].t == t
    ensures h[j].k <= Done(h, t)
  {
    HasLast(h, t, j);
    var i := LastAt(h, t);
    if j < i {
      ExecutedOnce(k, h, j, i);
    }
  }

  lemma {:induction false} HasLast(h: seq<Exec>, t: Tid, j: nat)
    requires j < |h| && h[j].t == t
    ensures Last(h, t).Some?
    decreases |h|
  {
    if h[|h| - 1].t != t {
      HasLast(Front(h), t, j);
    }
  }

  /**
  A thread that has issued `x` and is about to return has had one execution for it, after it was issued and of argument
  `x`, and returns what the operation gave for `x` in its turn.
  */
  lemma ReturnsIssued(k: Config, states: seq<State>, acts: seq<Action>, t: Tid, x: int, m: nat, n: nat) returns (i: nat)
    requires Complete(k) && ResultsFirst(k) && IsRun(k, states, acts) && IssuedLast(acts, t, x, m, n) && t < k.n
    requires t < |states[n].pcs| && states[n].pcs[t].Returning?
    ensures var st := states[n];
            && t < |st.requests| && |states[m].hist| <= i < |st.hist|
            && st.hist[i].t == t && st.hist[i].k == st.requests[t].activate
            && st.hist[i].arg == x && st.pcs[t].value == k.f(Fold(k, st.hist[..i]), x).1
            && forall j :: 0 <= j < |st.hist| && st.hist[j].t == t && st.hist[j].k == st.requests[t].activate ==> j == i
  {
    RunsKeep(k, states, acts, m);
    RunsKeep(k, states, acts, n);
    ArgumentArrives(k, states, acts, t, x, m, n);
    HistoryGrows(k, states, acts, m, n);
    i := ReturnsItsResult(k, states[n], t);
    assert Enabled(k, states[m], acts[m]);
    assert RequestOK(states[m], t);
    if i < |states[m].hist| {
      assert states[m].hist[i] == states[n].hist[i];
      NumbersBound(k, states[m].hist, t, i);
    }
  }

  /** A step writes at most the record its thread works on, and only while the thread performs requests. */
  lemma StepWrites(k: Config, st: State, a: Action, r: Rid)
    requires Shaped(k, st) && Enabled(k, st, a) && Step(k, st, a).Some? && r < |st.records|
    requires |Step(k, st, a).value.records| == |st.records|
    requires Step(k, st, a).value.records[r] != st.records[r]
    ensures r == Mine(st, a.t) && Holding(st.pcs[a.t]) && !st.pcs[a.t].Flipping?
  {
  }

  /** A combiner never writes the published record, and the published record has the data of the history it reflects. */
  lemma WritesUnpublished(k: Config, st: State, a: Action)
    requires Inv(k, st) && Enabled(k, st, a)
    ensures Step(k, st, a).Some?
    ensures Step(k, st, a).value.records[st.pstate] == st.records[st.pstate]
    ensures st.records[st.pstate].data == Fold(k, st.records[st.pstate].seen) && st.records[st.pstate].seen <= st.hist
  {
    StepKeeps(k, st, a);
    assert RecordOK(k, st, st.pstate);
    if Step(k, st, a).value.records[st.pstate] != st.records[st.pstate] {
      StepWrites(k, st, a, st.pstate);
    }
  }
}
