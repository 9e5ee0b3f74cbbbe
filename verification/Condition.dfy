/** The condition variable (src/sync.c:25-241). A waiter is resumed in place, in the middle of signal()
    or close(), or deferred: put in the scheduler's ready queue. What tasks resumed in place do to
    the condition is a script. */
module ConditionObject {
  import opened Queues

  /** What another task does while it runs; Back returns to the interrupted operation. */
  datatype Act = AskWait(task: nat) | AskSignal | AskBroadcast | AskCancel(ticket: nat) | AskClose(reason: int) | Back

  type Waiter = Entry<nat>

  /** Moving the head of the waiters behind the deferred ones keeps the order. */
  lemma MoveHead(a: seq<Waiter>, b: seq<Waiter>)
    requires b != []
    ensures (a + [b[0]]) + b[1..] == a + b
  {
  }

  /** Failing the waiters while earlier ones still sit in the ready queue lets them overtake: the order
      of arrival survives a close exactly when there is nobody to overtake or nobody to fail. */
  lemma CloseKeepsOrderIff(log: seq<Waiter>, gone: set<nat>, resumed: seq<Waiter>, deferred: seq<Waiter>, waiting: seq<Waiter>)
    requires Ledger(log, gone, (resumed + deferred) + waiting)
    ensures Ledger(log, gone, (resumed + waiting) + deferred) <==> deferred == [] || waiting == []
  {
    if deferred == [] {
      assert (resumed + waiting) + deferred == (resumed + deferred) + waiting;
    } else if waiting == [] {
      assert (resumed + waiting) + deferred == (resumed + deferred) + waiting;
    } else {
      LedgerFacts(log, gone, (resumed + deferred) + waiting);
      var all, n := (resumed + deferred) + waiting, |resumed|;
      assert all[n] == deferred[0] && all[n + |deferred|] == waiting[0];
      assert ((resumed + waiting) + deferred)[n] == waiting[0];
    }
  }

  /** Cancelling one of the waiters. */
  lemma CancelledOne(waiting: seq<Waiter>, gone: set<nat>, ticket: nat)
    requires Ascending(waiting) && forall k :: 0 <= k < |waiting| ==> waiting[k].ticket !in gone
    ensures var left := Live(waiting, {ticket});
            && Ascending(left) && |left| <= |waiting| && left == Live(waiting, gone + {ticket})
            && forall k :: 0 <= k < |left| ==> left[k] in waiting && left[k].ticket !in gone + {ticket}
  {
    LiveAscending(waiting, {ticket});
    LiveShrinks(waiting, {ticket});
    LiveNone(waiting, gone);
    LiveTwice(waiting, gone, {ticket});
    forall k | 0 <= k < |Live(waiting, {ticket})|
      ensures Live(waiting, {ticket})[k] in waiting && Live(waiting, {ticket})[k].ticket !in gone + {ticket}
    {
      LiveMembers(waiting, {ticket}, Live(waiting, {ticket})[k]);
    }
  }

  /** Two runs of cancellations in a row. */
  lemma CancelledMore(q: seq<Waiter>, mid: set<nat>, after: set<nat>)
    requires mid <= after
    ensures Live(Live(q, mid), after) == Live(q, after)
  {
    LiveTwice(q, mid, after);
    assert mid + after == after;
  }

  lemma HasLive(q: seq<Waiter>, gone: set<nat>)
    ensures forall t :: Has(Live(q, gone), t) ==> Has(q, t)
  {
    forall t | Has(Live(q, gone), t)
      ensures Has(q, t)
    {
      var i :| 0 <= i < |Live(q, gone)| && Live(q, gone)[i].ticket == t;
      LiveMembers(q, gone, Live(q, gone)[i]);
    }
  }

  /** Waiters that were failed already are not touched by later cancellations. */
  lemma StillInOrder(all: seq<Waiter>, before: set<nat>, after: set<nat>, failed: seq<Waiter>, left: seq<Waiter>)
    requires failed + left == Live(all, before) && Ascending(Live(all, before)) && before <= after
    requires forall t :: t in after && t !in before ==> Has(left, t)
    ensures failed + Live(left, after) == Live(all, after)
  {
    CancelledMore(all, before, after);
    LiveAppend(failed, left, after);
    forall i | 0 <= i < |failed|
      ensures failed[i].ticket !in after
    {
      assert (failed + left)[i] == failed[i];
      LiveMembers(all, before, failed[i]);
      assert Has(failed, failed[i].ticket);
      AscendingOnce(failed, left, failed[i].ticket);
    }
    LiveNone(failed, after);
  }

  lemma FailedOne(all: seq<Waiter>, before: set<nat>, after: set<nat>, failed: seq<Waiter>, left: seq<Waiter>)
    requires Ascending(all) && failed + left == Live(all, before) && left != [] && before <= after
    requires forall t :: t in after && t !in before ==> Has(left[1..], t)
    ensures (failed + [left[0]]) + Live(left[1..], after) == Live(all, after)
  {
    MoveHead(failed, left);
    LiveAscending(all, before);
    StillInOrder(all, before, after, failed + [left[0]], left[1..]);
  }

  lemma LedgerAscending(log: seq<Waiter>, gone: set<nat>, out: seq<Waiter>)
    ensures Ledger(log, gone, out) ==> Ascending(out)
  {
    if Ledger(log, gone, out) {
      LedgerFacts(log, gone, out);
    }
  }

  /** A waiter that is resumed before an earlier one breaks the order for good. */
  lemma Overtaken(log: seq<Waiter>, gone: set<nat>, resumed: seq<Waiter>, failed: seq<Waiter>, deferred: seq<Waiter>)
    requires failed != [] && deferred != [] && deferred[0].ticket < failed[0].ticket
    ensures !Ledger(log, gone, (resumed + failed) + deferred)
  {
    var all, n := (resumed + failed) + deferred, |resumed|;
    assert all[n] == failed[0] && all[n + |failed|] == deferred[0];
    LedgerAscending(log, gone, all);
  }

  /** The waiters all are being failed behind those in start: some have been, and the rest of those that were
      not cancelled wait. */
  ghost predicate Failing(start: seq<Waiter>, all: seq<Waiter>, resumed: seq<Waiter>, waiting: seq<Waiter>, gone: set<nat>) {
    && start <= resumed && resumed + waiting == start + Live(all, gone)
    && if resumed == start then waiting == all else all != [] && start + [all[0]] <= resumed
  }

  lemma FailingNext(start: seq<Waiter>, all: seq<Waiter>, resumed: seq<Waiter>, waiting: seq<Waiter>, before: set<nat>, after: set<nat>)
    requires Failing(start, all, resumed, waiting, before) && waiting != [] && Ascending(all) && before <= after
    requires forall t :: t in after && t !in before ==> Has(waiting[1..], t)
    ensures Failing(start, all, resumed + [waiting[0]], Live(waiting[1..], after), after)
  {
    var failed := resumed[|start|..];
    assert resumed == start + failed;
    assert failed + waiting == Live(all, before) by {
      assert (resumed + waiting)[|start|..] == failed + waiting;
    }
    FailedOne(all, before, after, failed, waiting);
    Regroup(start, failed, [waiting[0]]);
    Regroup(start, failed + [waiting[0]], Live(waiting[1..], after));
  }

  class Condition {
    var waiting: seq<Waiter>
    var broadcast: nat
    var error: Option<int>         // cond->error
    var armed: bool                // cond->shutdown.func is set
    var deferred: seq<Waiter>      // its waiters in the scheduler's ready queue
    var count: nat
    ghost var arrivals: seq<Waiter>
    ghost var gone: set<nat>       // cancelled while waiting
    ghost var resumed: seq<Waiter> // in the order in which they were resumed
    ghost var told: seq<Option<int>> // the error each of them was resumed with, if any
    ghost var ordered: bool        // no close has let a waiter overtake

    ghost predicate Valid()
      reads this
    {
      && broadcast == |deferred|
      && count == |arrivals| && |told| == |resumed|
      && (armed <==> error.None?) && (armed ==> ordered)
      && Ascending(waiting)
      && (forall k :: 0 <= k < |waiting| ==> waiting[k].ticket < count && waiting[k].ticket !in gone)
      && (forall t :: t in gone ==> t < count)
      && (ordered ==> Ledger(arrivals, gone, (resumed + deferred) + waiting))
    }

    /** Nobody's wait was cancelled but by the script. */
    twostate predicate GoneBy(script: seq<Act>)
      reads this
    {
      forall t :: t in gone && t !in old(gone) ==> AskCancel(t) in script
    }

    /** On a closed condition other tasks can only cancel waiters. */
    twostate predicate OnlyCancelled()
      reads this
    {
      old(error.Some?) ==>
        && resumed == old(resumed) && told == old(told) && error == old(error) && deferred == old(deferred) && ordered == old(ordered)
        && waiting == Live(old(waiting), gone)
        && forall t :: t in gone && t !in old(gone) ==> Has(old(waiting), t)
    }

    twostate predicate Grows()
      reads this
    {
      && old(resumed) <= resumed && old(told) <= told && old(arrivals) <= arrivals && old(gone) <= gone
      && (old(error.Some?) ==> error == old(error) && |waiting| <= |old(waiting)|)
      && (error.None? ==> ordered == old(ordered))
    }

    constructor ()
      ensures Valid() && ordered && error.None? && armed && waiting == [] && resumed == [] && arrivals == []
    {
      waiting, broadcast, error, armed, deferred, count := [], 0, None, true, [], 0;
      arrivals, gone, resumed, told, ordered := [], {}, [], [], true;
    }

    /** Waiters are resumed in the order in which they began to wait, less the cancelled ones, for any
        mix of signal and broadcast; whoever has not been resumed is deferred or waiting. */
    lemma ResumedInOrder()
      requires Valid() && ordered
      ensures resumed <= Live(arrivals, gone)
      ensures forall t: nat :: t < |arrivals| && t !in gone ==>
                arrivals[t] in resumed || arrivals[t] in deferred || arrivals[t] in waiting
    {
      LedgerFacts(arrivals, gone, (resumed + deferred) + waiting);
      assert (resumed + deferred) + waiting == resumed + (deferred + waiting);
    }

    /** Condition::wait up to the point where the caller is suspended (src/sync.c:142-180). */
    method Wait(task: nat) returns (ticket: Option<nat>)
      requires Valid()
      modifies this`waiting, this`count, this`arrivals
      ensures Valid() && Grows()
      ensures ticket.None? <==> error.Some?
      ensures if error.Some? then waiting == old(waiting) && arrivals == old(arrivals)
              else ticket == Some(|old(arrivals)|) && waiting == old(waiting) + [Entry(ticket.value, task)] && arrivals == old(arrivals) + [Entry(ticket.value, task)]
    {
      if error.Some? {
        return None;
      }
      var e := Entry(count, task);
      if ordered {
        LedgerAccept(arrivals, gone, (resumed + deferred) + waiting, task);
        assert (resumed + deferred) + (waiting + [e]) == (resumed + deferred) + waiting + [e];
      }
      arrivals := arrivals + [e];
      waiting := waiting + [e];
      count := count + 1;
      ticket := Some(e.ticket);
    }

    /** ASYNC_FINISH_OP on the first waiter when it is deferred: it moves to the ready queue. */
    method DeferFirst()
      requires Valid() && waiting != []
      modifies this`waiting, this`broadcast, this`deferred
      ensures Valid() && waiting == old(waiting)[1..] && deferred == old(deferred) + [old(waiting)[0]]
    {
      MoveHead(resumed + deferred, waiting);
      assert resumed + (deferred + [waiting[0]]) == (resumed + deferred) + [waiting[0]];
      broadcast := broadcast + 1;
      deferred := deferred + [waiting[0]];
      waiting := waiting[1..];
    }

    /** The first waiter is resumed in place, with the error if there is one. */
    method ResumeFirst(ghost failure: Option<int>)
      requires Valid() && waiting != []
      requires ordered ==> deferred == []
      modifies this`waiting, this`resumed, this`told
      ensures told == old(told) + [failure]
      ensures Valid() && waiting == old(waiting)[1..] && resumed == old(resumed) + [old(waiting)[0]]
    {
      if ordered {
        MoveHead(resumed, waiting);
        assert (resumed + deferred) + waiting == resumed + waiting;
        assert ((resumed + [waiting[0]]) + deferred) + waiting[1..] == (resumed + [waiting[0]]) + waiting[1..];
      }
      resumed, told := resumed + [waiting[0]], told + [failure];
      waiting := waiting[1..];
    }

    /** Condition::signal (src/sync.c:184-209). With deferred wake-ups outstanding the waiter queues up
        behind them. */
    method Signal(script: seq<Act>) returns (n: Option<nat>, rest: seq<Act>)
      requires Valid()
      modifies this
      decreases |script|, 3
      ensures Valid() && Grows() && GoneBy(script) && Within(rest, script)
      ensures n == if old(error.Some?) then None else Some(if old(waiting) == [] then 0 else 1)
      ensures n == Some(1) && old(deferred) == [] ==> old(resumed) + [old(waiting)[0]] <= resumed && old(told) + [None] <= told
      ensures n == Some(1) && old(deferred) == [] && script == [] ==>
                && waiting == old(waiting)[1..] && resumed == old(resumed) + [old(waiting)[0]] && deferred == [] && gone == old(gone)
      ensures n == Some(1) && old(deferred) != [] ==>
                && waiting == old(waiting)[1..] && deferred == old(deferred) + [old(waiting)[0]]
                && resumed == old(resumed) && rest == script
      ensures n != Some(1) ==> unchanged(this) && rest == script
    {
      rest := script;
      if error.Some? {
        return None, rest;
      }
      if waiting == [] {
        return Some(0), rest;
      }
      n := Some(1);
      if broadcast > 0 {
        DeferFirst();
      } else {
        ResumeFirst(None);
        rest := Others(script);
      }
    }

    /** Condition::broadcast (src/sync.c:214-241): it wakes exactly those who wait at the call, in order,
        and resumes none of them yet. */
    method Broadcast() returns (n: Option<nat>)
      requires Valid()
      modifies this`waiting, this`broadcast, this`deferred
      ensures Valid() && Grows()
      ensures n == if error.Some? then None else Some(|old(waiting)|)
      ensures if error.Some? then waiting == old(waiting) && deferred == old(deferred)
              else waiting == [] && deferred == old(deferred) + old(waiting)
    {
      if error.Some? {
        return None;
      }
      var k := 0;
      while waiting != []
        invariant Valid() && k <= |old(waiting)|
        invariant waiting == old(waiting)[k..] && deferred == old(deferred) + old(waiting)[..k]
        decreases |waiting|
      {
        assert old(waiting)[..k + 1] == old(waiting)[..k] + [waiting[0]];
        DeferFirst();
        k := k + 1;
      }
      n := Some(k);
    }

    /** dispatch_tasks comes to the first deferred waiter (src/task.c:1148-1185), which takes itself off
        the counter (src/sync.c:174-176) and goes on. */
    method DispatchDeferred(script: seq<Act>) returns (rest: seq<Act>)
      requires Valid() && deferred != []
      modifies this
      decreases |script|, 3
      ensures Valid() && Grows() && GoneBy(script) && Within(rest, script)
      ensures old(resumed) + [old(deferred)[0]] <= resumed && old(told) + [None] <= told
      ensures script == [] ==> resumed == old(resumed) + [old(deferred)[0]] && gone == old(gone) && error == old(error)
      ensures script == [] ==> deferred == old(deferred)[1..] && broadcast == old(broadcast) - 1 && waiting == old(waiting)
    {
      MoveHead(resumed, deferred);
      resumed, told := resumed + [deferred[0]], told + [None];
      deferred := deferred[1..];
      broadcast := broadcast - 1;
      rest := Others(script);
    }

    /** The wait of a task is cancelled: its operation leaves the list it is in. One that is deferred
        has been decided already and is not touched (src/task.c:612). */
    method Cancel(ticket: nat)
      requires Valid()
      modifies this`waiting, this`gone
      ensures Valid() && Grows() && OnlyCancelled()
      ensures if Has(old(waiting), ticket) then waiting == Live(old(waiting), {ticket}) && gone == old(gone) + {ticket}
              else waiting == old(waiting) && gone == old(gone)
    {
      if exists i :: 0 <= i < |waiting| && waiting[i].ticket == ticket {
        if ordered {
          LedgerRetract(arrivals, gone, resumed + deferred, waiting, ticket);
        }
        CancelledOne(waiting, gone, ticket);
        waiting := Live(waiting, {ticket});
        gone := gone + {ticket};
      } else {
        LiveNone(waiting, gone);
      }
    }

    /** Condition::close and shutdown_cond_cb (src/sync.c:37-56, 107-136): everyone who waits fails at
        once, in order; deferred waiters stay in the ready queue and are still to succeed. */
    method Close(reason: int, script: seq<Act>) returns (rest: seq<Act>)
      requires Valid()
      modifies this
      decreases |script|, 4
      ensures Valid() && Grows() && GoneBy(script) && Within(rest, script) && !armed
      ensures old(armed) ==> error == Some(reason) && waiting == [] && deferred == old(deferred)
      ensures !old(armed) ==> unchanged(this)
      ensures old(armed) ==> ordered == (old(deferred) == [] || old(waiting) == [])
      ensures old(armed) ==> (Ledger(arrivals, gone, resumed + deferred) <==> old(deferred) == [] || old(waiting) == [])
      ensures old(armed) ==> resumed == old(resumed) + Live(old(waiting), gone)
      ensures old(armed) ==> forall k :: |old(resumed)| <= k < |resumed| ==> told[k] == Some(reason)
      ensures script == [] ==> gone == old(gone)
    {
      rest := script;
      if !armed {
        return;
      }
      ghost var r, d, w := resumed, deferred, waiting;
      LedgerFacts(arrivals, gone, (r + d) + w);
      armed, error := false, Some(reason);
      ordered := ordered && (deferred == [] || waiting == []);
      rest := FailAll(script);
      if d != [] && w != [] {
        assert ((r + d) + w)[|r|] == d[0] && ((r + d) + w)[|r| + |d|] == w[0];
        assert resumed[|r|] == w[0] && Live(w, gone)[0] == w[0];
        Overtaken(arrivals, gone, r, Live(w, gone), d);
      }
      assert (resumed + deferred) + waiting == resumed + deferred;
    }

    /** The loop of shutdown_cond_cb. */
    method FailAll(script: seq<Act>) returns (rest: seq<Act>)
      requires Valid() && error.Some? && (ordered ==> deferred == [] || waiting == [])
      modifies this
      decreases |script|, 3
      ensures Valid() && Grows() && GoneBy(script) && error.Some? && waiting == [] && Within(rest, script)
      ensures deferred == old(deferred) && ordered == old(ordered)
      ensures resumed == old(resumed) + Live(old(waiting), gone)
      ensures old(waiting) != [] ==> old(resumed) + [old(waiting)[0]] <= resumed
      ensures forall k :: |old(resumed)| <= k < |resumed| ==> told[k] == old(error)
      ensures script == [] ==> gone == old(gone)
    {
      rest := script;
      LiveNone(waiting, gone);
      while waiting != []
        invariant Valid() && Grows() && GoneBy(script) && error.Some? && Within(rest, script)
        invariant deferred == old(deferred) && ordered == old(ordered) && (ordered ==> deferred == [] || waiting == [])
        invariant Failing(old(resumed), old(waiting), resumed, waiting, gone)
        invariant forall k :: |old(resumed)| <= k < |resumed| ==> told[k] == old(error)
        invariant script == [] ==> rest == [] && gone == old(gone)
        decreases |waiting|
      {
        rest := FailNext(rest, old(resumed), old(waiting));
      }
    }

    /** One turn, seen from the start of the loop. */
    method FailNext(script: seq<Act>, ghost start: seq<Waiter>, ghost all: seq<Waiter>) returns (rest: seq<Act>)
      requires Valid() && error.Some? && waiting != [] && (ordered ==> deferred == []) && Ascending(all)
      requires Failing(start, all, resumed, waiting, gone)
      modifies this
      decreases |script|, 2, 1
      ensures Valid() && Grows() && GoneBy(script) && error.Some? && Within(rest, script)
      ensures deferred == old(deferred) && ordered == old(ordered) && |waiting| < |old(waiting)|
      ensures Failing(start, all, resumed, waiting, gone)
      ensures told == old(told) + [old(error)]
      ensures script == [] ==> rest == [] && gone == old(gone)
    {
      ghost var r, w, g := resumed, waiting, gone;
      rest := FailFirst(script);
      FailingNext(start, all, r, w, g, gone);
    }

    /** One turn of it: the first waiter fails and runs; others may cancel what is left. */
    method FailFirst(script: seq<Act>) returns (rest: seq<Act>)
      requires Valid() && error.Some? && waiting != [] && (ordered ==> deferred == [])
      modifies this
      decreases |script|, 2, 0
      ensures Valid() && Grows() && GoneBy(script) && error.Some? && Within(rest, script)
      ensures deferred == old(deferred) && ordered == old(ordered)
      ensures resumed == old(resumed) + [old(waiting)[0]] && waiting == Live(old(waiting)[1..], gone)
      ensures told == old(told) + [old(error)]
      ensures forall t :: t in gone && t !in old(gone) ==> Has(old(waiting)[1..], t)
      ensures |waiting| < |old(waiting)|
      ensures script == [] ==> rest == [] && gone == old(gone)
    {
      ResumeFirst(error);
      rest := Others(script);
      LiveShrinks(old(waiting)[1..], gone);
    }

    method Do(act: Act, script: seq<Act>) returns (rest: seq<Act>)
      requires Valid()
      modifies this
      decreases |script|, 5
      ensures Valid() && Grows() && GoneBy([act] + script) && Within(rest, script)
      ensures OnlyCancelled()
    {
      rest := script;
      LiveNone(waiting, gone);
      match act
      case AskWait(task) => var _ := Wait(task);
      case AskSignal => var _, more := Signal(script); rest := more;
      case AskBroadcast => var _ := Broadcast();
      case AskCancel(ticket) => Cancel(ticket);
      case AskClose(reason) => rest := Close(reason, script);
      case Back =>
    }

    /** Tasks that run before control returns to the interrupted operation. */
    method Others(script: seq<Act>) returns (rest: seq<Act>)
      requires Valid()
      modifies this
      decreases |script|, 1
      ensures Valid() && Grows() && GoneBy(script) && Within(rest, script)
      ensures OnlyCancelled()
      ensures if script == [] then rest == [] && unchanged(this) else |rest| < |script|
    {
      rest := script;
      LiveNone(waiting, gone);
      while rest != [] && !rest[0].Back?
        invariant Valid() && Grows() && GoneBy(script) && Within(rest, script)
        invariant OnlyCancelled()
        invariant script == [] ==> unchanged(this)
        decreases |rest|
      {
        ghost var left, before := waiting, gone;
        rest := Do(rest[0], rest[1..]);
        if old(error.Some?) {
          CancelledMore(old(waiting), before, gone);
          HasLive(old(waiting), before);
        }
      }
      if rest != [] {
        rest := rest[1..];
      }
    }
  }
}
