/** Deferred::combine and the state of a deferred (src/deferred.c:181-199, 678-734, 775-966). The
    continuation of a combination runs in the middle of combine_cb; it may settle the deferred, and
    tasks it resumes may settle further inputs, so calls of combine_cb nest. What runs before
    control comes back is a script, ended by Back, which also tells whether the continuation threw. */
module CombineObject {
  import opened Queues

  datatype Outcome = Pending | Resolved(value: int) | Failed(error: int)

  datatype Act = Fire(input: nat) | Settle(outcome: Outcome) | Await(waiter: nat) | Back(thrown: Option<int>)

  /** One call of the continuation. */
  datatype Call = Call(input: nat, last: bool)

  const DISPOSED_ERROR := -1

  /** What waiters are told: each of them the same outcome, in the order in which they wait. */
  function Told(waiters: seq<nat>, o: Outcome): (r: seq<Entry<Outcome>>)
    ensures |r| == |waiters| && forall k :: 0 <= k < |r| ==> r[k] == Entry(waiters[k], o)
  {
    seq(|waiters|, i requires 0 <= i < |waiters| => Entry(waiters[i], o))
  }

  /** The settled ones of the first n inputs, in order. */
  function Ready(settled: seq<bool>, n: nat): (r: seq<nat>)
    requires n <= |settled|
    ensures |r| <= n && forall k :: 0 <= k < |r| ==> r[k] < n && settled[r[k]]
  {
    if n == 0 then []
    else if settled[n - 1] then Ready(settled, n - 1) + [n - 1]
    else Ready(settled, n - 1)
  }

  lemma {:induction false} ReadyIs(settled: seq<bool>, n: nat)
    requires n <= |settled|
    ensures forall i: nat :: i in Ready(settled, n) <==> i < n && settled[i]
    ensures forall j, k :: 0 <= j < k < |Ready(settled, n)| ==> Ready(settled, n)[j] < Ready(settled, n)[k]
  {
    if n == 0 {
    } else {
      ReadyIs(settled, n - 1);
    }
  }

  function Inputs(calls: seq<Call>): (r: seq<nat>)
    ensures |r| == |calls|
  {
    seq(|calls|, i requires 0 <= i < |calls| => calls[i].input)
  }

  lemma InputsMore(calls: seq<Call>, c: Call)
    ensures Inputs(calls + [c]) == Inputs(calls) + [c.input]
  {
  }

  ghost predicate CalledIn(calls: seq<Call>, i: nat) {
    exists k :: 0 <= k < |calls| && calls[k].input == i
  }

  /** Of the first n inputs, those that were settled have been handed to the continuation, and the others
      are still scheduled unless the script settled them. */
  ghost predicate Dealt(settled: seq<bool>, n: nat, script: seq<Act>, calls: seq<Call>, scheduled: set<nat>)
    requires n <= |settled|
  {
    && (forall i: nat :: i < n && settled[i] ==> CalledIn(calls, i))
    && (forall i: nat :: i < n && !settled[i] && Fire(i) !in script ==> i in scheduled)
  }

  lemma CalledMore(calls: seq<Call>, more: seq<Call>, i: nat)
    requires calls <= more && CalledIn(calls, i)
    ensures CalledIn(more, i)
  {
    var k :| 0 <= k < |calls| && calls[k].input == i;
    assert more[k] == calls[k];
  }

  lemma DealtMore(settled: seq<bool>, n: nat, script: seq<Act>, calls: seq<Call>, scheduled: set<nat>, calls': seq<Call>, scheduled': set<nat>)
    requires n < |settled| && Dealt(settled, n, script, calls, scheduled) && calls <= calls'
    requires settled[n] ==> CalledIn(calls', n)
    requires !settled[n] && Fire(n) !in script ==> n in scheduled'
    requires forall i :: i in scheduled && Fire(i) !in script ==> i in scheduled'
    ensures Dealt(settled, n + 1, script, calls', scheduled')
  {
    forall i: nat | i < n && settled[i]
      ensures CalledIn(calls', i)
    {
      CalledMore(calls, calls', i);
    }
  }

  /** With nobody else running, the calls are the settled ones of the first n inputs, in order, and only
      the last input can leave the outcome other than first. */
  predicate InOrder(settled: seq<bool>, n: nat, first: Outcome, calls: seq<Call>, started: nat, outcome: Outcome)
    requires n <= |settled|
  {
    Inputs(calls) == Ready(settled, n) && outcome == if first == Pending && started == 0 then Failed(DISPOSED_ERROR) else first
  }

  lemma InOrderMore(settled: seq<bool>, n: nat, first: Outcome, calls: seq<Call>, started: nat, outcome: Outcome,
                    calls': seq<Call>, started': nat, outcome': Outcome, last: bool)
    requires n < |settled| && InOrder(settled, n, first, calls, started, outcome)
    requires calls' == calls + (if settled[n] then [Call(n, last)] else [])
    requires started' == if settled[n] then started - 1 else started
    requires outcome' == if outcome == Pending && settled[n] && started' == 0 then Failed(DISPOSED_ERROR) else outcome
    ensures InOrder(settled, n + 1, first, calls', started', outcome')
  {
    InputsMore(calls, Call(n, last));
  }

  class Combination {
    const total: nat
    var counter: nat            // combined->counter
    var started: nat            // combined->started
    var outcome: Outcome        // state->status and state->result
    var released: bool          // the record was freed
    var next: nat               // inputs the loop of combine() has dealt with
    var scheduled: set<nat>     // inputs whose operation is still to fire
    var waiters: seq<nat>       // state->operations
    ghost var active: nat       // calls of the continuation in progress
    ghost var calls: seq<Call>  // in the order in which they began
    ghost var releases: nat
    ghost var answers: seq<Entry<Outcome>> // what each waiter was resumed with

    /** counter - started is the number of calls in progress; the record lives until all calls have
        returned; the last call to begin, and no other, is told that it is the last. */
    ghost predicate Valid()
      reads this
    {
      && 0 < total && next <= total
      && counter == started + active
      && started + |calls| == total
      && |calls| + |scheduled| == next
      && (forall i :: i in scheduled ==> i < next)
      && (forall i: nat :: i < next ==> i in scheduled || Called(i))
      && (forall k :: 0 <= k < |calls| ==> calls[k].input < next && calls[k].input !in scheduled)
      && (forall j, k :: 0 <= j < k < |calls| ==> calls[j].input != calls[k].input)
      && (forall k :: 0 <= k < |calls| ==> (calls[k].last <==> k == total - 1))
      && releases == (if released then 1 else 0)
      && (released ==> counter == 0 && outcome != Pending)
      && (forall a :: a in answers ==> outcome != Pending && a.item == outcome)
    }

    ghost predicate Called(i: nat)
      reads this
    {
      CalledIn(calls, i)
    }

    /** Calls begin, answers are given, and an outcome that is settled stays. */
    twostate predicate Runs()
      reads this
    {
      && old(calls) <= calls && old(answers) <= answers && active == old(active) && next == old(next)
      && scheduled <= old(scheduled) && started <= old(started) && counter <= old(counter)
      && (old(outcome) != Pending ==> outcome == old(outcome) && |waiters| <= |old(waiters)|)
    }

    twostate predicate Grows()
      reads this
    {
      && Runs()
      && (old(released) ==> released) && (old(counter) == 0 ==> released == old(released))
      && (counter == 0 ==> released || old(counter) == 0)
    }

    /** No scheduled input has fired but by the script. */
    twostate predicate FiredBy(script: seq<Act>)
      reads this
    {
      forall i :: i in old(scheduled) && i !in scheduled ==> Fire(i) in script
    }

    /** Once the outcome is settled nobody begins to wait or is answered by others. */
    twostate predicate Aside()
      reads this
    {
      old(outcome) != Pending ==> waiters == old(waiters) && answers == old(answers)
    }

    constructor (n: nat)
      requires n > 0
      ensures Valid() && total == n && next == 0 && calls == [] && active == 0 && !released && outcome == Pending
    {
      total, counter, started := n, n, n;
      outcome, released, next, scheduled, waiters := Pending, false, 0, {}, [];
      active, calls, releases, answers := 0, [], 0, [];
    }

    /** When every call has returned: each input was handed to the continuation exactly once, exactly one
        call was told it was the last, the record is gone, and the result is settled. */
    lemma Finished()
      requires Valid() && counter == 0
      ensures |calls| == total && next == total && scheduled == {} && active == 0
      ensures forall i: nat :: i < total ==> Called(i)
      ensures exists k :: 0 <= k < |calls| && calls[k].last && forall j :: 0 <= j < |calls| && calls[j].last ==> j == k
    {
      assert calls[total - 1].last;
    }

    /** trigger_ops: everyone who waits is resumed with the result, once. */
    method TriggerOps(script: seq<Act>) returns (rest: seq<Act>)
      requires Valid() && outcome != Pending
      modifies this
      decreases |script|, 2
      ensures Valid() && Grows() && waiters == [] && |rest| <= |script| && Within(rest, script) && FiredBy(script)
      ensures answers == old(answers) + Told(old(waiters), old(outcome))
      ensures script == [] ==> rest == [] && counter == old(counter) && started == old(started) && calls == old(calls) && scheduled == old(scheduled)
    {
      rest := script;
      while waiters != []
        invariant Valid() && Grows() && outcome != Pending && |rest| <= |script| && Within(rest, script) && FiredBy(script)
        invariant |waiters| <= |old(waiters)| && waiters == old(waiters)[|old(waiters)| - |waiters|..]
        invariant answers == old(answers) + Told(old(waiters)[..|old(waiters)| - |waiters|], old(outcome))
        invariant script == [] ==> rest == [] && counter == old(counter) && started == old(started) && calls == old(calls) && scheduled == old(scheduled)
        decreases |waiters|
      {
        ghost var k := |old(waiters)| - |waiters|;
        assert Told(old(waiters)[..k + 1], outcome) == Told(old(waiters)[..k], outcome) + [Entry(waiters[0], outcome)];
        rest := AnswerFirst(rest);
      }
    }

    method AnswerFirst(script: seq<Act>) returns (rest: seq<Act>)
      requires Valid() && outcome != Pending && waiters != []
      modifies this
      decreases |script|, 1, 1
      ensures Valid() && Grows() && outcome == old(outcome) && |rest| <= |script| && Within(rest, script) && FiredBy(script)
      ensures waiters == old(waiters)[1..] && answers == old(answers) + [Entry(old(waiters)[0], outcome)]
      ensures script == [] ==> rest == [] && counter == old(counter) && started == old(started) && calls == old(calls) && scheduled == old(scheduled)
    {
      answers := answers + [Entry(waiters[0], outcome)];
      waiters := waiters[1..];
      var left, _ := Others(script);
      rest := left;
    }

    /** Deferred::resolve and Deferred::fail. */
    method SettleWith(o: Outcome, script: seq<Act>) returns (rest: seq<Act>)
      requires Valid() && o != Pending
      modifies this
      decreases |script|, 3
      ensures Valid() && Grows() && |rest| <= |script| && Within(rest, script) && FiredBy(script)
      ensures outcome == if old(outcome) == Pending then o else old(outcome)
      ensures Aside()
      ensures old(outcome) == Pending ==> waiters == [] && answers == old(answers) + Told(old(waiters), o)
      ensures script == [] ==> rest == [] && counter == old(counter) && started == old(started) && calls == old(calls) && scheduled == old(scheduled)
    {
      rest := script;
      if outcome != Pending {
        return;
      }
      outcome := o;
      rest := TriggerOps(script);
    }

    /** combine_cb: the operation of input i has fired. */
    method CombineCallback(i: nat, script: seq<Act>) returns (rest: seq<Act>)
      requires Valid() && i in scheduled
      modifies this
      decreases |script|, 6
      ensures Valid() && Grows() && Aside() && |rest| <= |script| && Within(rest, script) && FiredBy([Fire(i)] + script) && !old(released)
      ensures old(calls) + [Call(i, old(started) == 1)] <= calls
      ensures counter == 0 ==> released && outcome != Pending
      ensures script == [] ==> outcome == if old(outcome) == Pending && old(counter) == 1 then Failed(DISPOSED_ERROR) else old(outcome)
      ensures script == [] ==> rest == [] && counter == old(counter) - 1 && scheduled == old(scheduled) - {i}
      ensures script == [] ==> calls == old(calls) + [Call(i, old(started) == 1)]
    {
      rest := RunCall(i, script);
      if counter == 0 {
        rest := Release(rest);
      }
    }

    /** The call of the continuation for input i, up to its return. */
    method RunCall(i: nat, script: seq<Act>) returns (rest: seq<Act>)
      requires Valid() && i in scheduled
      modifies this
      decreases |script|, 5
      ensures Valid() && Runs() && Aside() && Within(rest, script) && FiredBy([Fire(i)] + script) && !old(released) && !released
      ensures old(calls) + [Call(i, old(started) == 1)] <= calls && counter < old(counter)
      ensures script == [] ==> rest == [] && outcome == old(outcome) && counter == old(counter) - 1
      ensures script == [] ==> scheduled == old(scheduled) - {i} && calls == old(calls) + [Call(i, old(started) == 1)]
    {
      BeginCall(i);
      rest := Continue(script);
      EndCall();
    }

    /** The continuation runs; if it throws, a result that is still open fails. */
    method Continue(script: seq<Act>) returns (rest: seq<Act>)
      requires Valid() && active > 0
      modifies this
      decreases |script|, 4
      ensures Valid() && Grows() && Aside() && |rest| <= |script| && Within(rest, script) && FiredBy(script) && counter > 0
      ensures script == [] ==> unchanged(this) && rest == []
      ensures script != [] && script[0].Back? ==>
                outcome == if old(outcome) == Pending && script[0].thrown.Some? then Failed(script[0].thrown.value) else old(outcome)
    {
      var thrown;
      rest, thrown := Others(script);
      if thrown.Some? {
        rest := SettleWith(Failed(thrown.value), rest);
      }
    }

    /** The last call has returned: a result that is still open fails, and the record is freed. */
    method Release(script: seq<Act>) returns (rest: seq<Act>)
      requires Valid() && counter == 0 && !released
      modifies this
      decreases |script|, 4
      ensures Valid() && Aside() && released && outcome != Pending && |rest| <= |script| && Within(rest, script) && FiredBy(script)
      ensures counter == 0 && started == old(started) && active == old(active) && next == old(next)
      ensures old(calls) <= calls && old(answers) <= answers && scheduled <= old(scheduled)
      ensures script == [] ==> rest == [] && calls == old(calls) && scheduled == old(scheduled)
      ensures old(outcome) == Pending ==> outcome == Failed(DISPOSED_ERROR)
      ensures old(outcome) != Pending ==> outcome == old(outcome) && |waiters| <= |old(waiters)|
    {
      rest := SettleWith(Failed(DISPOSED_ERROR), script);
      released := true;
      releases := releases + 1;
    }

    method BeginCall(i: nat)
      requires Valid() && i in scheduled
      modifies this`started, this`scheduled, this`calls, this`active
      ensures scheduled == old(scheduled) - {i}
      ensures Valid() && calls == old(calls) + [Call(i, old(started) == 1)] && active == old(active) + 1
      ensures started == old(started) - 1 && !released
    {
      assert |scheduled - {i}| == |scheduled| - 1;
      ghost var before := calls;
      started := started - 1;
      calls := calls + [Call(i, started == 0)];
      scheduled := scheduled - {i};
      active := active + 1;
      assert calls[|before|].input == i;
      assert forall k :: 0 <= k < |before| ==> calls[k] == before[k];
    }

    method EndCall()
      requires Valid() && active > 0
      modifies this`counter, this`active
      ensures Valid() && active == old(active) - 1 && counter == old(counter) - 1
    {
      counter := counter - 1;
      active := active - 1;
    }

    /** What runs before control comes back to combine_cb or trigger_ops. */
    method Others(script: seq<Act>) returns (rest: seq<Act>, thrown: Option<int>)
      requires Valid()
      modifies this
      decreases |script|, 1, 0
      ensures Valid() && Grows() && Aside()
      ensures Within(rest, script) && FiredBy(script)
      ensures if script == [] then rest == [] && thrown == None && unchanged(this) else |rest| < |script|
      ensures script != [] && script[0].Back? ==> thrown == script[0].thrown && unchanged(this)
    {
      rest, thrown := script, None;
      while rest != [] && !rest[0].Back?
        invariant Valid() && Grows() && Aside() && |rest| <= |script| && Within(rest, script) && FiredBy(script)
        invariant script == [] || script[0].Back? ==> unchanged(this) && rest == script
        decreases |rest|
      {
        rest := Do(rest[0], rest[1..]);
      }
      if rest != [] {
        thrown := rest[0].thrown;
        rest := rest[1..];
      }
    }

    method Do(act: Act, script: seq<Act>) returns (rest: seq<Act>)
      requires Valid()
      modifies this
      decreases |script|, 8
      ensures Valid() && Grows() && Aside() && |rest| <= |script| && Within(rest, script) && FiredBy([act] + script)
      ensures act.Await? ==> waiters == (if old(outcome) == Pending then old(waiters) + [act.waiter] else old(waiters)) && rest == script
      ensures act.Settle? && act.outcome != Pending ==> outcome == if old(outcome) == Pending then act.outcome else old(outcome)
      ensures act.Fire? && act.input in old(scheduled) ==> old(calls) + [Call(act.input, old(started) == 1)] <= calls
    {
      rest := script;
      match act
      case Fire(i) =>
        if i in scheduled { rest := CombineCallback(i, script); }
      case Settle(o) =>
        if o != Pending { rest := SettleWith(o, script); }
      case Await(w) =>
        if outcome == Pending { waiters := waiters + [w]; }
      case Back(_) =>
    }

    /** The loop of Deferred::combine: an input that is settled already fires at once, the others are
        scheduled and fire only when somebody settles them. The record is not used after its release. */
    method Combine(settled: seq<bool>, script: seq<Act>) returns (rest: seq<Act>)
      requires Valid() && next == 0 && calls == [] && active == 0 && |settled| == total
      modifies this
      ensures Valid() && next == total && active == 0
      ensures counter == 0 <==> released
      ensures counter == 0 ==> outcome != Pending
      ensures forall i: nat :: i < total && settled[i] ==> Called(i)
      ensures forall i: nat :: i < total && !settled[i] && Fire(i) !in script ==> i in scheduled
      ensures script == [] ==> Inputs(calls) == Ready(settled, total) && started == total - |Ready(settled, total)|
      ensures script == [] ==> outcome == if old(outcome) == Pending && started == 0 then Failed(DISPOSED_ERROR) else old(outcome)
    {
      rest := script;
      while next < total
        invariant Valid() && active == 0 && Within(rest, script)
        invariant counter == 0 ==> released
        invariant Dealt(settled, next, script, calls, scheduled)
        invariant script == [] ==> InOrder(settled, next, old(outcome), calls, started, outcome)
        decreases total - next
      {
        rest := Turn(settled, rest, script, old(outcome));
      }
    }

    /** One turn of it. */
    method Turn(settled: seq<bool>, script: seq<Act>, ghost whole: seq<Act>, ghost first: Outcome) returns (rest: seq<Act>)
      requires Valid() && next < total && active == 0 && (counter == 0 ==> released) && |settled| == total
      requires Dealt(settled, next, whole, calls, scheduled) && Within(script, whole) && (whole == [] ==> InOrder(settled, next, first, calls, started, outcome))
      modifies this
      ensures Valid() && active == 0 && next == old(next) + 1 && Within(rest, whole)
      ensures counter == 0 ==> released
      ensures Dealt(settled, next, whole, calls, scheduled)
      ensures whole == [] ==> InOrder(settled, next, first, calls, started, outcome)
    {
      var i := next;
      rest := TurnTo(settled[i], script);
      DealtMore(settled, i, whole, old(calls), old(scheduled), calls, scheduled);
      if whole == [] {
        InOrderMore(settled, i, first, old(calls), old(started), old(outcome), calls, started, outcome, old(started) == 1);
      }
    }

    method TurnTo(settled: bool, script: seq<Act>) returns (rest: seq<Act>)
      requires Valid() && next < total && active == 0 && (counter == 0 ==> released)
      modifies this
      ensures Valid() && active == 0 && next == old(next) + 1 && old(calls) <= calls && Within(rest, script)
      ensures counter == 0 ==> released
      ensures settled ==> Called(old(next))
      ensures !settled && Fire(old(next)) !in script ==> old(next) in scheduled
      ensures forall i :: i in old(scheduled) && Fire(i) !in script ==> i in scheduled
      ensures script == [] ==> rest == [] && calls == old(calls) + (if settled then [Call(old(next), old(started) == 1)] else [])
      ensures script == [] ==> outcome == if old(outcome) == Pending && settled && started == 0 then Failed(DISPOSED_ERROR) else old(outcome)
    {
      var i := next;
      scheduled := scheduled + {i};
      next := next + 1;
      if settled {
        rest := CombineCallback(i, script);
        assert calls[|old(calls)|].input == i;
      } else {
        var left, _ := Others(script);
        rest := left;
      }
    }
  }
}
