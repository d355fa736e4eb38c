/**
A thread's slab stacks as objects: a head and a length over the `next` fields all stacks share. The methods do what the
single steps of the heap model stand for, walking chains link by link.
*/
module SlabStacks {
  import opened Options
  import opened Chains
  import Heap

  /** Every link leads to a slab. */
  predicate Inside(next: Nexts) {
    forall i :: 0 <= i < |next| && next[i].Some? ==> next[i].value < |next|
  }

  // Walks without any promise about cycles

  /** A walk that ends at null is determined by where it starts. */
  lemma {:induction false} WalkUnique(next: Nexts, q: seq<Idx>, r: seq<Idx>)
    requires Linked(next, q, None) && Linked(next, r, None) && First(q, None) == First(r, None)
    ensures q == r
    decreases |q|
  {
    if q != [] {
      WalkTail(next, q);
      WalkTail(next, r);
      WalkUnique(next, q[1..], r[1..]);
      assert q == [q[0]] + q[1..] && r == [r[0]] + r[1..];
    }
  }

  lemma WalkTail(next: Nexts, q: seq<Idx>)
    requires q != [] && Linked(next, q, None)
    ensures Linked(next, q[1..], None) && First(q[1..], None) == next[q[0]]
  {
    assert next[q[0]] == LinkAt(q, None, 0);
    forall i | 0 <= i < |q[1..]| ensures next[q[1..][i]] == LinkAt(q[1..], None, i) {
      assert next[q[i + 1]] == LinkAt(q, None, i + 1);
    }
  }

  lemma {:induction false} WalkDrop(next: Nexts, q: seq<Idx>, n: nat)
    requires Linked(next, q, None) && n <= |q|
    ensures Linked(next, q[n..], None)
    decreases n
  {
    if n > 0 {
      WalkTail(next, q);
      WalkDrop(next, q[1..], n - 1);
      assert q[1..][n - 1..] == q[n..];
    }
  }

  /** A walk that ends at null has met no slab twice. */
  lemma WalkNoDup(next: Nexts, q: seq<Idx>)
    requires Linked(next, q, None)
    ensures NoDup(q)
  {
    forall i, j | 0 <= i < j < |q| ensures q[i] != q[j] {
      WalkDrop(next, q, i);
      WalkDrop(next, q, j);
      if q[i] == q[j] {
        WalkUnique(next, q[i..], q[j..]);
      }
    }
  }

  /** The slabs from `head` on after `n` steps, with the link they lead to. */
  ghost predicate Walked(next: Nexts, head: Option<Idx>, n: nat, here: Option<Idx>) {
    exists q :: |q| == n && Linked(next, q, here) && First(q, here) == head
  }

  lemma WalkOn(next: Nexts, head: Option<Idx>, n: nat, here: Option<Idx>)
    requires Walked(next, head, n, here) && here.Some? && here.value < |next|
    ensures Walked(next, head, n + 1, next[here.value])
  {
    var q :| |q| == n && Linked(next, q, here) && First(q, here) == head;
    var r := q + [here.value];
    forall i | 0 <= i < |r| ensures r[i] < |next| && next[r[i]] == LinkAt(r, next[here.value], i) {
      if i < n {
        assert next[q[i]] == LinkAt(q, here, i);
      }
    }
    assert |r| == n + 1 && Linked(next, r, next[here.value]) && First(r, next[here.value]) == head;
  }

  /** A stack of a given length, or a walk longer than that, but not both. */
  lemma WalkLonger(next: Nexts, head: Option<Idx>, n: nat, here: Option<Idx>, q: seq<Idx>)
    requires Walked(next, head, n, here) && IsStack(next, head, q)
    ensures n <= |q| && (here == None <==> n == |q|)
  {
    var r :| |r| == n && Linked(next, r, here) && First(r, here) == head;
    WalkPrefix(next, r, here, q);
  }

  lemma {:induction false} WalkPrefix(next: Nexts, r: seq<Idx>, here: Option<Idx>, q: seq<Idx>)
    requires Linked(next, r, here) && Linked(next, q, None) && First(r, here) == First(q, None)
    ensures |r| <= |q| && (here == None <==> |r| == |q|)
    decreases |r|
  {
    if r != [] {
      WalkTail(next, q);
      assert next[r[0]] == LinkAt(r, here, 0);
      forall i | 0 <= i < |r[1..]| ensures next[r[1..][i]] == LinkAt(r[1..], here, i) {
        assert next[r[i + 1]] == LinkAt(r, here, i + 1);
      }
      WalkPrefix(next, r[1..], here, q[1..]);
    }
  }

  /** Unlinking touches the chain itself and no other. */
  lemma UnlinkFrame(next: Nexts, next': Nexts, head: Option<Idx>, q: seq<Idx>, i: nat, u: seq<Idx>)
    requires i < |q| && q[i] < |next| && (i > 0 ==> q[i - 1] < |next|)
    requires next' == if i == 0 then next else next[q[i - 1] := next[q[i]]]
    requires IsStack(next, head, u) && forall x :: x in u ==> x !in q
    ensures IsStack(next', head, u)
  {
    assert forall j :: 0 <= j < |u| ==> u[j] in u;
    StackFrame(next, next', head, u);
  }

  /** What happens to the removed slab does not touch the chain it came from. */
  lemma WithoutFrame(next: Nexts, head: Option<Idx>, q: seq<Idx>, i: nat, next': Nexts, link: Option<Idx>)
    requires NoDup(q) && i < |q| && IsStack(next, head, Without(q, i)) && q[i] < |next| && next' == next[q[i] := link]
    ensures IsStack(next', head, Without(q, i))
  {
    var r := Without(q, i);
    forall j | 0 <= j < |r| ensures next'[r[j]] == next[r[j]] {
      WithoutMembers(q, i, r[j]);
      assert r[j] in r;
    }
    StackFrame(next, next', head, r);
  }

  class Slabs {
    const next: array<Option<Idx>>
    const owner: array<Option<nat>>

    constructor (n: nat)
      ensures next.Length == owner.Length == n && fresh(next) && fresh(owner)
    {
      next := new Option<Idx>[n](_ => None);
      owner := new Option<nat>[n](_ => None);
    }

    /** `own`: in the validating build, a slab that has an owner already is an error. */
    method Own(validate: bool, i: Idx, id: nat) returns (ok: bool)
      requires i < owner.Length
      modifies owner
      ensures ok <==> !validate || old(owner[i]) == None
      ensures owner[..] == if ok then old(owner[..])[i := Some(id)] else old(owner[..])
    {
      ok := !validate || owner[i].None?;
      if ok {
        owner[i] := Some(id);
      }
    }

    /**
    `link`: the slabs of the range become one chain in order, owned by `id`, that goes on to `head`. In the validating
    build it stops at the first slab that has an owner.
    */
    method Link(validate: bool, id: nat, start: Idx, end: Idx, head: Option<Idx>) returns (ok: bool)
      requires start <= end <= next.Length == owner.Length && next != owner
      modifies next, owner
      ensures ok <==> !validate || forall i :: start <= i < end ==> old(owner[i]) == None
      ensures ok ==> Linked(next[..], Heap.Range(start, end - start), head)
      ensures ok ==> forall i :: start <= i < end ==> owner[i] == Some(id)
      ensures forall i :: 0 <= i < next.Length && !(start <= i < end) ==>
                next[i] == old(next[i]) && owner[i] == old(owner[i])
    {
      var i := start;
      while i < end
        invariant start <= i <= end
        invariant validate ==> forall j :: start <= j < i ==> old(owner[j]) == None
        invariant forall j :: start <= j < i ==>
                    owner[j] == Some(id) && next[j] == if j + 1 < end then Some(j + 1) else head
        invariant forall j :: 0 <= j < next.Length && !(start <= j < i) ==>
                    next[j] == old(next[j]) && owner[j] == old(owner[j])
      {
        ok := Own(validate, i, id);
        if !ok {
          return;
        }
        next[i] := if i + 1 < end then Some(i + 1) else head;
        i := i + 1;
      }
      ok := true;
    }

    /** `trace(head).count()` of a chain that ends. */
    method Count(head: Option<Idx>, ghost q: seq<Idx>) returns (n: nat)
      requires IsStack(next[..], head, q)
      ensures n == |q|
    {
      n := 0;
      var here := head;
      while here.Some?
        invariant n <= |q| && here == First(q[n..], None) && Linked(next[..], q[n..], None)
        decreases |q| - n
      {
        WalkTail(next[..], q[n..]);
        assert q[n..][1..] == q[n + 1..];
        here := next[here.value];
        n := n + 1;
      }
    }
  }

  class LocalStack {
    var head: Option<Idx>
    var len: nat

    constructor ()
      ensures head == None && len == 0
    {
      head := None;
      len := 0;
    }

    /**
    `is_valid`: true exactly when the chain ends, meets no slab twice and has `len` slabs; it ends on cycles, too.
    */
    method IsValid(slabs: Slabs) returns (ok: bool)
      requires Inside(slabs.next[..]) && (head.Some? ==> head.value < slabs.next.Length)
      ensures ok <==> exists q :: IsStack(slabs.next[..], head, q) && |q| == len
    {
      var next := slabs.next[..];
      var i := 0;
      var here: Option<Idx> := head;
      assert Walked(next, head, 0, head) by {
        assert Linked(next, [], head);
      }
      while here.Some?
        invariant i <= len && Walked(next, head, i, here) && (here.Some? ==> here.value < |next|)
        decreases len - i
      {
        WalkOn(next, head, i, here);
        here := slabs.next[here.value];
        i := i + 1;
        if i > len {
          forall q | IsStack(next, head, q) && |q| == len ensures false {
            WalkLonger(next, head, i, here, q);
          }
          return false;
        }
      }
      ghost var q :| |q| == i && Linked(next, q, None) && First(q, None) == head;
      WalkNoDup(next, q);
      forall r | IsStack(next, head, r) ensures |r| == i {
        WalkLonger(next, head, i, here, r);
      }
      ok := i == len;
    }

    method Set(head: Option<Idx>, len: nat)
      modifies this
      ensures this.head == head && this.len == len
    {
      this.head := head;
      this.len := len;
    }

    method Pop(slabs: Slabs, ghost q: seq<Idx>) returns (s: Option<Idx>)
      requires IsStack(slabs.next[..], head, q) && len >= |q|
      modifies this
      ensures q == [] ==> s == None && head == old(head) && len == old(len)
      ensures q != [] ==> s == Some(q[0]) && IsStack(slabs.next[..], head, q[1..]) && len == old(len) - 1
    {
      if head.None? {
        return None;
      }
      StackPop(slabs.next[..], head, q);
      s := head;
      head := slabs.next[head.value];
      len := len - 1;
    }

    method Push(slabs: Slabs, s: Idx, ghost q: seq<Idx>)
      requires IsStack(slabs.next[..], head, q) && s < slabs.next.Length && s !in q
      modifies this, slabs.next
      ensures slabs.next[..] == old(slabs.next[..])[s := old(head)]
      ensures IsStack(slabs.next[..], head, [s] + q) && len == old(len) + 1
    {
      slabs.next[s] := head;
      StackFrame(old(slabs.next[..]), slabs.next[..], head, q);
      StackPush(slabs.next[..], head, q, s);
      head := Some(s);
      len := len + 1;
    }

    /**
    `recover_push`: whatever became of the push that was interrupted, the slab is on the stack once, and the length is
    right.
    */
    method RecoverPush(slabs: Slabs, s: Idx, ghost q: seq<Idx>)
      requires IsStack(slabs.next[..], head, q) && s < slabs.next.Length
      requires s !in q || head == Some(s)
      modifies this, slabs.next
      ensures var r := if s in q then q else [s] + q;
              IsStack(slabs.next[..], head, r) && len == |r|
    {
      if head != Some(s) {
        Push(slabs, s, q);
        len := slabs.Count(head, [s] + q);
      } else {
        len := slabs.Count(head, q);
      }
    }
  }

  /** On a slab further down the stack the push closes a cycle, which the count that follows never leaves. */
  lemma RecoverPushCycles(next: Nexts, head: Option<Idx>, q: seq<Idx>, s: Idx, r: seq<Idx>)
    requires IsStack(next, head, q) && s in q && head != Some(s)
    ensures !IsStack(next[s := head], Some(s), r)
  {
    var next' := next[s := head];
    if IsStack(next', Some(s), r) {
      var i :| 0 <= i < |q| && q[i] == s;
      Around(next, head, q, i, r, i);
    }
  }

  /** Going from `s` over the head, the cycle comes back to `s`. */
  lemma {:induction false} Around(next: Nexts, head: Option<Idx>, q: seq<Idx>, i: nat, r: seq<Idx>, j: nat)
    requires IsStack(next, head, q) && 0 < i < |q| && j <= i && IsStack(next[q[i] := head], Some(q[i]), r)
    ensures j + 1 < |r| && r[j + 1] == q[j]
    ensures j < i
  {
    var next' := next[q[i] := head];
    assert r[0] == q[i] && next'[r[0]] == LinkAt(r, None, 0);
    if j > 0 {
      Around(next, head, q, i, r, j - 1);
      assert next[q[j - 1]] == LinkAt(q, None, j - 1);
      assert next'[r[j]] == LinkAt(r, None, j);
    }
  }

  /** The stacks of one thread, among which `sized_to_unsized` moves a slab. */
  class Owned {
    const unsized: LocalStack
    const sized: seq<LocalStack>

    /** No two stacks are one object. */
    ghost predicate Apart() {
      unsized !in sized && forall c, d :: 0 <= c < d < |sized| ==> sized[c] != sized[d]
    }

    constructor (classes: nat)
      ensures Apart() && |sized| == classes && fresh(unsized) && forall c :: 0 <= c < classes ==> fresh(sized[c])
      ensures unsized.head == None && unsized.len == 0
      ensures forall c :: 0 <= c < classes ==> sized[c].head == None && sized[c].len == 0
    {
      var one := new LocalStack();
      var stacks: seq<LocalStack> := [];
      while |stacks| < classes
        invariant |stacks| <= classes && one !in stacks && fresh(one) && one.head == None && one.len == 0
        invariant forall c :: 0 <= c < |stacks| ==> fresh(stacks[c]) && stacks[c].head == None && stacks[c].len == 0
        invariant forall c, d :: 0 <= c < d < |stacks| ==> stacks[c] != stacks[d]
      {
        var stack := new LocalStack();
        stacks := stacks + [stack];
      }
      unsized := one;
      sized := stacks;
    }

    /** The walk to the slab before `s` on a chain that `s` is not the head of. */
    method FindPrevious(slabs: Slabs, c: nat, s: Idx, ghost q: seq<Idx>, ghost i: nat) returns (walk: Idx)
      requires c < |sized| && IsStack(slabs.next[..], sized[c].head, q) && 0 < i < |q| && q[i] == s
      ensures walk == q[i - 1]
    {
      walk := sized[c].head.value;
      ghost var j := 0;
      while slabs.next[walk] != Some(s)
        invariant j < i && walk == q[j]
        decreases i - j
      {
        assert slabs.next[..][q[j]] == LinkAt(q, None, j);
        walk := slabs.next[walk].value;
        j := j + 1;
      }
      assert slabs.next[..][q[j]] == LinkAt(q, None, j);
    }

    /** Takes `s` off the chain of class `c`. */
    method Unlink(slabs: Slabs, c: nat, s: Idx, ghost q: seq<Idx>, ghost i: nat)
      requires c < |sized| && IsStack(slabs.next[..], sized[c].head, q) && i < |q| && q[i] == s && |q| <= sized[c].len
      modifies sized[c], slabs.next
      ensures Heap.Unlinked(old(slabs.next[..]), Heap.Stack(old(sized[c].head), old(sized[c].len)), s) ==
              Some((slabs.next[..], Heap.Stack(sized[c].head, sized[c].len)))
      ensures IsStack(slabs.next[..], sized[c].head, Without(q, i))
      ensures i == 0 ==> slabs.next[..] == old(slabs.next[..]) && sized[c].len == old(sized[c].len) - 1
      ensures i > 0 ==> && slabs.next[..] == old(slabs.next[..])[q[i - 1] := old(slabs.next[..])[s]]
                        && sized[c].len == old(sized[c].len)
    {
      var next := slabs.next[s];
      if sized[c].head == Some(s) {
        StackPop(slabs.next[..], sized[c].head, q);
        assert Without(q, 0) == q[1..];
        sized[c].Set(next, sized[c].len - 1);
      } else {
        var walk := FindPrevious(slabs, c, s, q, i);
        PredecessorFound(slabs.next[..], sized[c].head, q, i, sized[c].len);
        StackRemove(slabs.next[..], sized[c].head, q, i);
        slabs.next[walk] := next;
        assert slabs.next[..] == old(slabs.next[..])[walk := next];
      }
    }

    /**
    `sized_to_unsized`: the slab leaves the chain of its class, wherever on it it is, and goes in front of the unsized
    one; every chain without a slab of that chain stays. The sized length goes down only when the slab was the head, so
    that it is an upper bound from then on.
    */
    method SizedToUnsized(slabs: Slabs, c: nat, s: Idx, ghost q: seq<Idx>, ghost i: nat, ghost u: seq<Idx>)
      requires Apart() && c < |sized|
      requires IsStack(slabs.next[..], sized[c].head, q) && i < |q| && q[i] == s && |q| <= sized[c].len
      requires IsStack(slabs.next[..], unsized.head, u) && forall x :: x in u ==> x !in q
      modifies sized[c], unsized, slabs.next
      ensures IsStack(slabs.next[..], sized[c].head, Without(q, i))
      ensures IsStack(slabs.next[..], unsized.head, [s] + u) && unsized.len == old(unsized.len) + 1
      ensures sized[c].len == if i == 0 then old(sized[c].len) - 1 else old(sized[c].len)
      ensures forall d :: 0 <= d < |sized| && d != c ==>
                sized[d].head == old(sized[d].head) && sized[d].len == old(sized[d].len)
      ensures forall d, r :: 0 <= d < |sized| && d != c && Disjoint(r, q) ==>
                old(IsStack(slabs.next[..], sized[d].head, r)) ==> IsStack(slabs.next[..], sized[d].head, r)
    {
      ghost var before := slabs.next[..];
      Unlink(slabs, c, s, q, i);
      ghost var mid := slabs.next[..];
      UnlinkFrame(before, mid, unsized.head, q, i, u);
      unsized.Push(slabs, s, u);
      WithoutFrame(mid, sized[c].head, q, i, slabs.next[..], old(unsized.head));
      ghost var after := slabs.next[..];
      assert s in q && forall x :: 0 <= x < |after| && x !in q ==> after[x] == before[x];
      forall d | 0 <= d < |sized| && d != c
        ensures sized[d].head == old(sized[d].head) && sized[d].len == old(sized[d].len)
      {
        assert sized[d] != sized[c] && sized[d] != unsized;
      }
      forall d, r | 0 <= d < |sized| && d != c && old(IsStack(slabs.next[..], sized[d].head, r)) && Disjoint(r, q)
        ensures IsStack(slabs.next[..], sized[d].head, r)
      {
        OtherChain(before, after, sized[d].head, r, q);
      }
    }
  }

  predicate Disjoint(r: seq<Idx>, q: seq<Idx>) {
    forall x :: x in r ==> x !in q
  }

  lemma OtherChain(before: Nexts, after: Nexts, head: Option<Idx>, r: seq<Idx>, q: seq<Idx>)
    requires IsStack(before, head, r) && Disjoint(r, q) && |after| == |before|
    requires forall x :: 0 <= x < |after| && x !in q ==> after[x] == before[x]
    ensures IsStack(after, head, r)
  {
    forall j | 0 <= j < |r| ensures after[r[j]] == before[r[j]] {
      assert r[j] in r;
    }
    StackFrame(before, after, head, r);
  }
}
