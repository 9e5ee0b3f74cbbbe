/** The doubly linked lists that run through the operations themselves, and the part of the
    operation macros that moves operations between lists (php_async.h:686-775, 915-995). */
module IntrusiveList {

  datatype Status = Pending | Resolved | Failed

  class Op {
    var prev: Op?
    var next: Op?
    var list: List?
    var status: Status
    var result: int

    constructor ()
      ensures Detached() && list == null && status == Pending
    {
      prev, next, list := null, null, null;
      status, result := Pending, 0;
    }

    ghost predicate Detached()
      reads this
    {
      prev == null && next == null
    }
  }

  function At(s: seq<Op>, i: int): (v: Op?)
    ensures v != null ==> v in s
  {
    if 0 <= i < |s| then s[i] else null
  }

  ghost predicate Distinct(s: seq<Op>) {
    forall i, j :: 0 <= i < j < |s| ==> s[i] != s[j]
  }

  /** s with its element k left out. */
  ghost function Cut(s: seq<Op>, k: nat): (r: seq<Op>)
    requires k < |s|
    ensures |r| == |s| - 1
    ensures forall i :: 0 <= i < |r| ==> r[i] == s[if i < k then i else i + 1]
  {
    s[..k] + s[k + 1..]
  }

  lemma CutFacts(s: seq<Op>, k: nat)
    requires k < |s| && Distinct(s)
    ensures Distinct(Cut(s, k)) && s[k] !in Cut(s, k) && forall n :: n in Cut(s, k) ==> n in s
  {
  }

  ghost function Nexts(s: seq<Op>): map<Op, Op?>
    reads s
  {
    map n | n in s :: n.next
  }

  ghost function Prevs(s: seq<Op>): map<Op, Op?>
    reads s
  {
    map n | n in s :: n.prev
  }

  ghost predicate Linked(s: seq<Op>, next: map<Op, Op?>, prev: map<Op, Op?>) {
    && (forall n :: n in s ==> n in next && n in prev)
    && forall i, j :: 0 <= i < j < |s| && j == i + 1 ==> next[s[i]] == s[j] && prev[s[j]] == s[i]
  }

  /** Where v stands in s, |s| if it does not. */
  ghost function Index(s: seq<Op>, v: Op): (k: nat)
    ensures k <= |s| && (k == |s| <==> v !in s) && (k < |s| ==> s[k] == v)
  {
    if v in s then var k :| 0 <= k < |s| && s[k] == v; k else |s|
  }

  /** The neighbours of v in s. */
  ghost function Left(s: seq<Op>, v: Op): (n: Op?)
    ensures n != null ==> n in s
  {
    if v in s then At(s, Index(s, v) - 1) else null
  }

  ghost function Right(s: seq<Op>, v: Op): (n: Op?)
    ensures n != null ==> n in s
  {
    if v in s then At(s, Index(s, v) + 1) else null
  }

  /** s without v, in order. */
  ghost function Without(s: seq<Op>, v: Op): seq<Op> {
    if v in s then Cut(s, Index(s, v)) else s
  }

  class List {
    var first: Op?
    var last: Op?
    ghost var nodes: seq<Op>

    /** The pointers spell out the sequence nodes, forwards and backwards. */
    ghost predicate Valid()
      reads this, nodes
    {
      Spells(nodes)
    }

    ghost predicate Spells(s: seq<Op>)
      reads this, s
    {
      && Distinct(s)
      && first == At(s, 0)
      && last == At(s, |s| - 1)
      && (first != null ==> first.prev == null)
      && (last != null ==> last.next == null)
      && forall i, j :: 0 <= i < j < |s| && j == i + 1 ==> s[i].next == s[j] && s[j].prev == s[i]
    }

    constructor ()
      ensures Valid() && nodes == []
    {
      first, last, nodes := null, null, [];
    }

    /** ASYNC_LIST_APPEND. */
    method Append(v: Op)
      requires Valid() && v !in nodes
      modifies this, nodes, v
      ensures Valid() && nodes == old(nodes) + [v]
      ensures v.list == old(v.list) && forall n :: n in nodes ==> n.list == old(n.list)
    {
      v.next := null;
      if last == null {
        v.prev := null;
        first := v;
        last := v;
      } else {
        v.prev := last;
        last.next := v;
        last := v;
      }
      nodes := nodes + [v];
    }

    /** ASYNC_LIST_PREPEND. */
    method Prepend(v: Op)
      requires Valid() && v !in nodes
      modifies this, nodes, v
      ensures Valid() && nodes == [v] + old(nodes)
      ensures v.list == old(v.list) && forall n :: n in nodes ==> n.list == old(n.list)
    {
      v.prev := null;
      if first == null {
        v.next := null;
        first := v;
        last := v;
      } else {
        v.next := first;
        first.prev := v;
        first := v;
      }
      nodes := [v] + nodes;
    }

    /** ASYNC_LIST_EXTRACT_FIRST. */
    method ExtractFirst() returns (v: Op?)
      requires Valid()
      modifies this, nodes
      ensures Valid() && v == At(old(nodes), 0)
      ensures v == null ==> nodes == []
      ensures v != null ==> nodes == old(nodes)[1..] && v !in nodes && v.Detached()
      ensures forall n :: n in old(nodes) ==> n.list == old(n.list)
    {
      if first == null {
        return null;
      }
      v := first;
      assert |nodes| > 1 ==> nodes[0].next == nodes[1];
      first := v.next;
      if first != null {
        first.prev := null;
      }
      if last == v {
        last := null;
      }
      v.prev := null;
      v.next := null;
      nodes := nodes[1..];
    }

    /** ASYNC_LIST_EXTRACT_LAST. */
    method ExtractLast() returns (v: Op?)
      requires Valid()
      modifies this, nodes
      ensures Valid() && v == At(old(nodes), |old(nodes)| - 1)
      ensures v == null ==> nodes == []
      ensures v != null ==> nodes == old(nodes)[..|old(nodes)| - 1] && v !in nodes && v.Detached()
      ensures forall n :: n in old(nodes) ==> n.list == old(n.list)
    {
      if last == null {
        return null;
      }
      v := last;
      assert |nodes| > 1 ==> nodes[|nodes| - 1].prev == nodes[|nodes| - 2];
      last := v.prev;
      if last != null {
        last.next := null;
      }
      if first == v {
        first := null;
      }
      v.prev := null;
      v.next := null;
      nodes := nodes[..|nodes| - 1];
    }

    /** The assignments of ASYNC_LIST_REMOVE. */
    method Bypass(v: Op)
      requires (v.prev == null || (v.prev in nodes && v.prev != v)) && (v.next == null || (v.next in nodes && v.next != v))
      modifies this`first, this`last, nodes, v
      ensures v.Detached() && v.list == old(v.list)
      ensures first == if old(first) == v then old(v.next) else old(first)
      ensures last == if old(last) == v then old(v.prev) else old(last)
      ensures forall n :: n in nodes && n != v ==>
                && n.next == (if n == old(v.prev) then old(v.next) else old(n.next))
                && n.prev == (if n == old(v.next) then old(v.prev) else old(n.prev))
      ensures forall n :: n in nodes ==> n.list == old(n.list)
    {
      if v.prev != null {
        v.prev.next := v.next;
      }
      if v.next != null {
        v.next.prev := v.prev;
      }
      if first == v {
        first := v.next;
      }
      if last == v {
        last := v.prev;
      }
      v.prev := null;
      v.next := null;
    }

    /** ASYNC_LIST_REMOVE: a member is taken out wherever it stands, and a detached node that is not
        in the list leaves every pointer as it was. */
    method Remove(v: Op)
      requires Valid() && (v in nodes || v.Detached())
      modifies this, nodes, v
      ensures Valid() && nodes == Without(old(nodes), v) && v !in nodes && v.Detached()
      ensures v !in old(nodes) ==>
                && first == old(first) && last == old(last)
                && forall n :: n in nodes ==> n.prev == old(n.prev) && n.next == old(n.next)
      ensures v.list == old(v.list) && forall n :: n in old(nodes) ==> n.list == old(n.list)
    {
      ghost var next, prev := Before(v);
      Bypass(v);
      After(v, next, prev);
    }

    /** What the removal of v starts from. */
    ghost method Before(v: Op) returns (next: map<Op, Op?>, prev: map<Op, Op?>)
      requires Valid() && (v in nodes || v.Detached())
      ensures Distinct(nodes) && Linked(nodes, next, prev) && first == At(nodes, 0) && last == At(nodes, |nodes| - 1)
      ensures forall n :: n in nodes ==> next[n] == n.next && prev[n] == n.prev
      ensures nodes != [] ==> prev[nodes[0]] == null && next[nodes[|nodes| - 1]] == null
      ensures v.prev == Left(nodes, v) && v.next == Right(nodes, v) && v.prev != v && v.next != v
    {
      next, prev := Nexts(nodes), Prevs(nodes);
      if v in nodes {
        Neighbours(Index(nodes, v));
      }
    }

    /** What it leaves. */
    ghost method After(v: Op, next: map<Op, Op?>, prev: map<Op, Op?>)
      requires Distinct(nodes) && Linked(nodes, next, prev)
      requires nodes != [] ==> prev[nodes[0]] == null && next[nodes[|nodes| - 1]] == null
      requires first == if At(nodes, 0) == v then Right(nodes, v) else At(nodes, 0)
      requires last == if At(nodes, |nodes| - 1) == v then Left(nodes, v) else At(nodes, |nodes| - 1)
      requires forall n :: n in nodes && n != v ==>
                 && n.next == (if n == Left(nodes, v) then Right(nodes, v) else next[n])
                 && n.prev == (if n == Right(nodes, v) then Left(nodes, v) else prev[n])
      modifies this`nodes
      ensures Valid() && nodes == Without(old(nodes), v) && v !in nodes
      ensures forall n :: n in nodes ==> n in old(nodes)
      ensures v !in old(nodes) ==> nodes == old(nodes)
    {
      if v in nodes {
        var k := Index(nodes, v);
        CutFacts(nodes, k);
        Rejoined(nodes, k, next, prev);
        nodes := Cut(nodes, k);
      } else {
        Untouched(nodes, next, prev);
      }
    }

    /** Taking node k of s out and joining its neighbours leaves the rest linked. */
    lemma Rejoined(s: seq<Op>, k: nat, next: map<Op, Op?>, prev: map<Op, Op?>)
      requires Distinct(s) && Linked(s, next, prev) && k < |s|
      requires forall n :: n in s && n != s[k] ==>
                 && n.next == (if n == At(s, k - 1) then At(s, k + 1) else next[n])
                 && n.prev == (if n == At(s, k + 1) then At(s, k - 1) else prev[n])
      requires prev[s[0]] == null && next[s[|s| - 1]] == null
      requires first == (if k == 0 then At(s, 1) else s[0])
      requires last == (if k == |s| - 1 then At(s, k - 1) else s[|s| - 1])
      ensures Spells(Cut(s, k))
    {
      var r := Cut(s, k);
      CutFacts(s, k);
      forall i, j | 0 <= i < j < |r| && j == i + 1
        ensures r[i].next == r[j] && r[j].prev == r[i]
      {
        var p, q := if i < k then i else i + 1, if j < k then j else j + 1;
        assert r[i] == s[p] && r[j] == s[q];
        assert s[p] != s[k] && s[q] != s[k];
      }
    }

    lemma Untouched(s: seq<Op>, next: map<Op, Op?>, prev: map<Op, Op?>)
      requires Distinct(s) && Linked(s, next, prev)
      requires forall n :: n in s ==> n.next == next[n] && n.prev == prev[n]
      requires s != [] ==> prev[s[0]] == null && next[s[|s| - 1]] == null
      requires first == At(s, 0) && last == At(s, |s| - 1)
      ensures Spells(s)
    {
    }

    lemma Neighbours(k: nat)
      requires Valid() && k < |nodes|
      ensures nodes[k].prev == At(nodes, k - 1) && nodes[k].next == At(nodes, k + 1)
      ensures first == nodes[k] <==> k == 0
      ensures last == nodes[k] <==> k == |nodes| - 1
    {
      assert k > 0 ==> nodes[k - 1].next == nodes[k];
      assert k + 1 < |nodes| ==> nodes[k].next == nodes[k + 1];
    }
  }

  /** An operation is in the list it points to, or in none and detached. */
  ghost predicate Placed(op: Op)
    reads op, op.list, if op.list == null then {} else set n | n in op.list.nodes
  {
    if op.list == null then op.Detached() else op.list.Valid() && op in op.list.nodes
  }

  /** ASYNC_APPEND_OP. */
  method AppendOp(q: List, op: Op)
    requires q.Valid() && op !in q.nodes
    modifies q, q.nodes, op
    ensures q.nodes == old(q.nodes) + [op] && op.list == q && Placed(op)
  {
    op.list := q;
    q.Append(op);
  }

  /** ASYNC_NEXT_OP. */
  method NextOp(q: List) returns (op: Op)
    requires q.Valid() && q.nodes != []
    modifies q, q.nodes
    ensures q.Valid() && old(q.nodes) == [op] + q.nodes
    ensures op.list == null && Placed(op)
  {
    var head := q.ExtractFirst();
    head.list := null;
    op := head;
  }

  /** What ASYNC_FINISH_OP, ASYNC_RESOLVE_OP and ASYNC_FAIL_OP do before the callback runs: the
      operation is out of its list by then, whichever list that was. */
  method SettleOp(op: Op, success: bool, result: int)
    requires Placed(op)
    modifies op, op.list, if op.list == null then {} else set n | n in op.list.nodes
    ensures op.list == null && Placed(op)
    ensures old(op.list) != null ==> old(op.list).Valid() && old(op.list).nodes == Without(old(if op.list == null then [] else op.list.nodes), op)
    ensures op.status == (if success then Resolved else Failed) && op.result == result
  {
    if op.list != null {
      op.list.Remove(op);
      op.list := null;
    }
    op.result := result;
    op.status := if success then Resolved else Failed;
  }

  method AppendAll(q: List, later: seq<Op>)
    requires q.Valid() && Distinct(later) && forall n :: n in later ==> n !in q.nodes
    modifies q, q.nodes, later
    ensures q.Valid() && q.nodes == old(q.nodes) + later
  {
    for i := 0 to |later|
      invariant q.Valid() && q.nodes == old(q.nodes) + later[..i]
    {
      assert later[i] !in later[..i];
      q.Append(later[i]);
      assert later[..i] + [later[i]] == later[..i + 1];
    }
  }

  method DrainSome(q: List, more: nat)
    requires q.Valid() && more <= |q.nodes|
    modifies q, q.nodes
    ensures q.Valid() && q.nodes == old(q.nodes)[more..]
  {
    for i := 0 to more
      invariant q.Valid() && q.nodes == old(q.nodes)[i..]
    {
      var _ := q.ExtractFirst();
    }
  }

  /** Other operations join the list and others leave it. */
  method Meanwhile(q: List, later: seq<Op>, more: nat)
    requires q.Valid() && more <= |q.nodes| + |later|
    requires Distinct(later) && forall n :: n in later ==> n !in q.nodes
    modifies q, q.nodes, later
    ensures q.Valid() && q.nodes == (old(q.nodes) + later)[more..]
    ensures forall n :: n in q.nodes ==> n in old(q.nodes) || n in later
  {
    AppendAll(q, later);
    DrainSome(q, more);
  }

  /** Removing a detached operation that is not in the list. */
  method Again(q: List, op: Op)
    requires q.Valid() && op.Detached() && op !in q.nodes
    modifies q, q.nodes, op
    ensures q.Valid() && q.nodes == old(q.nodes)
  {
    q.Remove(op);
  }

  /** A cancel callback that the cancellation has drained is removed once more when async_await_op
      returns (src/context.c:80-84, then src/task.c:748-753), after any number of other callbacks were
      added and any number drained: that last removal changes nothing. */
  method RemovalAfterDrain(callbacks: List, later: seq<Op>, more: nat) returns (drained: Op)
    requires callbacks.Valid() && callbacks.nodes != [] && more < |callbacks.nodes| + |later|
    requires Distinct(later) && forall n :: n in later ==> n !in callbacks.nodes
    modifies callbacks, callbacks.nodes, later
    ensures callbacks.Valid() && drained == old(callbacks.nodes)[0]
    ensures callbacks.nodes == (old(callbacks.nodes) + later)[1 + more..]
  {
    ghost var all := callbacks.nodes + later;
    drained := callbacks.ExtractFirst();
    assert callbacks.nodes + later == all[1..];
    Meanwhile(callbacks, later, more);
    assert drained !in callbacks.nodes;
    Again(callbacks, drained);
  }
}
