/** Optional values: the source's `Option`. */
module Options {
  datatype Option<+T> = None | Some(value: T)
}

/**
Singly linked chains threaded through one shared table of `next` fields, as the slab
descriptors of the heap are. A chain is described by the sequence of the slabs on it.
*/
module Chains {
  import opened Options

  /** A slab index, counted from zero (the source stores it plus one, so that zero is free for `None`). */
  type Idx = nat

  type Nexts = seq<Option<Idx>>

  ghost predicate NoDup(q: seq<Idx>) {
    forall i, j :: 0 <= i < j < |q| ==> q[i] != q[j]
  }

  /** The `next` field that the `i`-th slab of chain `q` must hold when the chain goes on to `end`. */
  function LinkAt(q: seq<Idx>, end: Option<Idx>, i: nat): Option<Idx>
    requires i < |q|
  {
    if i + 1 < |q| then Some(q[i + 1]) else end
  }

  /** Following `next` from `q[0]` visits `q` in order and then arrives at `end`. */
  ghost predicate Linked(next: Nexts, q: seq<Idx>, end: Option<Idx>) {
    && (forall i :: 0 <= i < |q| ==> q[i] < |next|)
    && (forall i {:trigger next[q[i]]} :: 0 <= i < |q| ==> next[q[i]] == LinkAt(q, end, i))
  }

  function First(q: seq<Idx>, end: Option<Idx>): Option<Idx> {
    if q == [] then end else Some(q[0])
  }

  /** `head` is the head of a null-terminated chain without repetition that holds exactly `q`. */
  ghost predicate IsStack(next: Nexts, head: Option<Idx>, q: seq<Idx>) {
    NoDup(q) && Linked(next, q, None) && head == First(q, None)
  }

  /** The first `n` slabs met from `head`: the source's `trace(head).take(n)`. */
  function Trace(next: Nexts, head: Option<Idx>, n: nat): (q: seq<Idx>)
    ensures |q| <= n
    decreases n
  {
    if n == 0 || head.None? || head.value >= |next| then []
    else [head.value] + Trace(next, next[head.value], n - 1)
  }

  /**
  The slab before `target` on the chain through `from`, looking at no more than `fuel` slabs;
  `None` when the chain ends first, which is where the source panics.
  */
  function Predecessor(next: Nexts, from: Idx, target: Idx, fuel: nat): Option<Idx>
    decreases fuel
  {
    if fuel == 0 || from >= |next| || next[from].None? then None
    else if next[from].value == target then Some(from)
    else Predecessor(next, next[from].value, target, fuel - 1)
  }

  lemma StackFrame(next: Nexts, next': Nexts, head: Option<Idx>, q: seq<Idx>)
    requires IsStack(next, head, q)
    requires |next| <= |next'|
    requires forall i :: 0 <= i < |q| ==> next'[q[i]] == next[q[i]]
    ensures IsStack(next', head, q)
  {
  }

  lemma StackPush(next: Nexts, head: Option<Idx>, q: seq<Idx>, s: Idx)
    requires IsStack(next, head, q)
    requires s !in q && s < |next| && next[s] == head
    ensures IsStack(next, Some(s), [s] + q)
  {
    var r := [s] + q;
    assert forall i :: 1 <= i < |r| ==> r[i] == q[i - 1];
    forall i | 0 <= i < |r|
      ensures r[i] < |next| && next[r[i]] == LinkAt(r, None, i)
    {
      if i > 0 { assert next[q[i - 1]] == LinkAt(q, None, i - 1); }
    }
  }

  lemma StackPop(next: Nexts, head: Option<Idx>, q: seq<Idx>)
    requires IsStack(next, head, q) && q != []
    ensures IsStack(next, next[q[0]], q[1..])
  {
    var r := q[1..];
    assert next[q[0]] == LinkAt(q, None, 0);
    forall i | 0 <= i < |r|
      ensures r[i] < |next| && next[r[i]] == LinkAt(r, None, i)
    {
      assert next[q[i + 1]] == LinkAt(q, None, i + 1);
    }
  }

  /** Dropping a prefix of a stack leaves the stack that hangs off the dropped part's last slab. */
  lemma {:induction false} StackDrop(next: Nexts, head: Option<Idx>, q: seq<Idx>, n: nat)
    requires IsStack(next, head, q) && 1 <= n <= |q|
    ensures IsStack(next, next[q[n - 1]], q[n..])
    decreases n
  {
    StackPop(next, head, q);
    if n > 1 {
      StackDrop(next, next[q[0]], q[1..], n - 1);
      assert q[1..][n - 1..] == q[n..];
    }
  }

  /** `q` without its `i`-th slab. */
  function Without(q: seq<Idx>, i: nat): (r: seq<Idx>)
    requires i < |q|
    ensures |r| == |q| - 1
    ensures forall j :: 0 <= j < |r| ==> r[j] == q[if j < i then j else j + 1]
  {
    q[..i] + q[i + 1..]
  }

  lemma WithoutMembers(q: seq<Idx>, i: nat, x: Idx)
    requires NoDup(q) && i < |q|
    ensures x in Without(q, i) <==> x in q && x != q[i]
  {
    var r := Without(q, i);
    if x in q && x != q[i] {
      var j :| 0 <= j < |q| && q[j] == x;
      assert r[if j < i then j else j - 1] == x;
    }
  }

  /** Unlinking the slab at position `i > 0` by pointing its predecessor past it. */
  lemma StackRemove(next: Nexts, head: Option<Idx>, q: seq<Idx>, i: nat)
    requires IsStack(next, head, q) && 0 < i < |q|
    ensures IsStack(next[q[i - 1] := next[q[i]]], head, Without(q, i))
  {
    var r := Without(q, i);
    var next' := next[q[i - 1] := next[q[i]]];
    forall j | 0 <= j < |r|
      ensures r[j] < |next'| && next'[r[j]] == LinkAt(r, None, j)
    {
      RemoveLink(next, q, i, j);
    }
  }

  lemma RemoveLink(next: Nexts, q: seq<Idx>, i: nat, j: nat)
    requires NoDup(q) && Linked(next, q, None) && 0 < i < |q| && j < |q| - 1
    ensures var r := Without(q, i);
            r[j] < |next| && next[q[i - 1] := next[q[i]]][r[j]] == LinkAt(r, None, j)
  {
    var m := if j < i then j else j + 1;
    assert next[q[m]] == LinkAt(q, None, m);
    assert next[q[i]] == LinkAt(q, None, i);
    assert q[m] == q[i - 1] <==> m == i - 1;
  }

  /** The walk of `sized_to_unsized` finds the predecessor of any slab that is not the head. */
  lemma {:induction false} PredecessorFound(next: Nexts, head: Option<Idx>, q: seq<Idx>, i: nat, fuel: nat)
    requires IsStack(next, head, q) && 0 < i < |q| <= fuel
    ensures Predecessor(next, q[0], q[i], fuel) == Some(q[i - 1])
    decreases i
  {
    assert next[q[0]] == LinkAt(q, None, 0);
    if i > 1 {
      StackPop(next, head, q);
      PredecessorFound(next, next[q[0]], q[1..], i - 1, fuel - 1);
    }
  }

  /** Tracing a stack reads off a prefix of it. */
  lemma {:induction false} TraceIsPrefix(next: Nexts, head: Option<Idx>, q: seq<Idx>, n: nat)
    requires IsStack(next, head, q) && n <= |q|
    ensures Trace(next, head, n) == q[..n]
    decreases n
  {
    if n > 0 {
      assert next[q[0]] == LinkAt(q, None, 0);
      StackPop(next, head, q);
      TraceIsPrefix(next, next[q[0]], q[1..], n - 1);
      assert q[..n] == [q[0]] + q[1..][..n - 1];
    }
  }

  /** The head and the `next` table determine the chain. */
  lemma {:induction false} StackUnique(next: Nexts, head: Option<Idx>, q: seq<Idx>, r: seq<Idx>)
    requires IsStack(next, head, q) && IsStack(next, head, r)
    ensures q == r
    decreases |q|
  {
    if q != [] && r != [] {
      assert next[q[0]] == LinkAt(q, None, 0) == LinkAt(r, None, 0);
      StackPop(next, head, q);
      StackPop(next, head, r);
      StackUnique(next, next[q[0]], q[1..], r[1..]);
      assert q == [q[0]] + q[1..] && r == [r[0]] + r[1..];
    }
  }

  lemma NoDupConcat(a: seq<Idx>, b: seq<Idx>)
    requires NoDup(a) && NoDup(b) && forall x :: x in a ==> x !in b
    ensures NoDup(a + b)
  {
    var r := a + b;
    forall i, j | 0 <= i < j < |r| ensures r[i] != r[j] {
      assert r[i] == if i < |a| then a[i] else b[i - |a|];
      assert r[j] == if j < |a| then a[j] else b[j - |a|];
      if i < |a| <= j { assert a[i] in a && b[j - |a|] in b; }
    }
  }

  /** A linked batch that goes on to the head of a stack is a longer stack. */
  lemma StackConcat(next: Nexts, batch: seq<Idx>, head: Option<Idx>, q: seq<Idx>)
    requires NoDup(batch) && Linked(next, batch, head) && IsStack(next, head, q) && batch != []
    requires forall x :: x in batch ==> x !in q
    ensures IsStack(next, Some(batch[0]), batch + q)
  {
    NoDupConcat(batch, q);
    LinkedConcat(next, batch, q);
  }

  lemma LinkedConcat(next: Nexts, batch: seq<Idx>, q: seq<Idx>)
    requires Linked(next, batch, First(q, None)) && Linked(next, q, None)
    ensures Linked(next, batch + q, None)
  {
    var r := batch + q;
    forall i | 0 <= i < |r|
      ensures r[i] < |next| && next[r[i]] == LinkAt(r, None, i)
    {
      if i < |batch| {
        assert next[batch[i]] == LinkAt(batch, First(q, None), i);
      } else {
        assert next[q[i - |batch|]] == LinkAt(q, None, i - |batch|);
      }
    }
  }

  /** A stack has no more slabs than there are, so tracing far enough reads it off completely. */
  lemma TraceIsAll(next: Nexts, head: Option<Idx>, q: seq<Idx>)
    requires IsStack(next, head, q)
    ensures |q| <= |next| && Trace(next, head, |next|) == q
  {
    NoDupBound(q, |next|);
    TraceEnds(next, head, q, |next|);
  }

  lemma {:induction false} TraceEnds(next: Nexts, head: Option<Idx>, q: seq<Idx>, n: nat)
    requires IsStack(next, head, q) && |q| <= n
    ensures Trace(next, head, n) == q
    decreases |q|
  {
    if q != [] {
      assert next[q[0]] == LinkAt(q, None, 0);
      StackPop(next, head, q);
      TraceEnds(next, next[q[0]], q[1..], n - 1);
      assert q == [q[0]] + q[1..];
    }
  }

  lemma {:induction false} NoDupBound(q: seq<Idx>, n: nat)
    requires NoDup(q) && forall i :: 0 <= i < |q| ==> q[i] < n
    ensures |q| <= n
    decreases n
  {
    assert q != [] ==> q[0] < n;
    if n > 0 && exists i :: 0 <= i < |q| && q[i] == n - 1 {
      var i :| 0 <= i < |q| && q[i] == n - 1;
      var r := Without(q, i);
      assert forall j :: 0 <= j < |r| ==> r[j] != n - 1;
      NoDupBound(r, n - 1);
    } else if n > 0 {
      NoDupBound(q, n - 1);
    }
  }
}
