/** Disposal of the scheduler: the drain of scheduler->operations (src/task.c:1222, 1252-1258). */
module SchedulerDrain {
  import opened Queues
  import opened SchedulerSpec
  import opened SchedulerProofs
  import opened SchedulerRuns

  /** a is what is left of b when some elements are dropped, in b's order. */
  ghost predicate Subsequence(a: seq<nat>, b: seq<nat>) {
    a == [] || (b != [] && ((a[0] == b[0] && Subsequence(a[1..], b[1..])) || Subsequence(a, b[1..])))
  }

  lemma {:induction false} SubsequenceSelf(a: seq<nat>)
    ensures Subsequence(a, a)
  {
    if a == [] {
    } else {
      SubsequenceSelf(a[1..]);
    }
  }

  lemma {:induction false} SubsequenceOfMore(a: seq<nat>, b: seq<nat>, c: seq<nat>)
    requires Subsequence(a, b) && Subsequence(b, c)
    ensures Subsequence(a, c)
    decreases |b| + |c|
  {
    if a != [] {
      if b[0] == c[0] && Subsequence(b[1..], c[1..]) {
        if a[0] == b[0] && Subsequence(a[1..], b[1..]) {
          SubsequenceOfMore(a[1..], b[1..], c[1..]);
        } else {
          SubsequenceOfMore(a, b[1..], c[1..]);
        }
      } else {
        SubsequenceOfMore(a, b, c[1..]);
      }
    }
  }

  lemma {:induction false} SubsequenceFacts(a: seq<nat>, b: seq<nat>)
    requires Subsequence(a, b)
    ensures |a| <= |b| && forall x :: x in a ==> x in b
    ensures NoDup(b) ==> NoDup(a)
    decreases |b|
  {
    if a != [] {
      if a[0] == b[0] && Subsequence(a[1..], b[1..]) {
        SubsequenceFacts(a[1..], b[1..]);
        assert a == [a[0]] + a[1..] && b == [b[0]] + b[1..];
        if NoDup(b) {
          assert b[0] !in b[1..];
        }
      } else {
        SubsequenceFacts(a, b[1..]);
      }
    }
  }

  lemma {:induction false} WithoutSubsequence(q: seq<nat>, x: nat)
    ensures Subsequence(Without(q, x), q)
  {
    if q == [] {
    } else {
      WithoutSubsequence(q[1..], x);
    }
  }

  /** The operations that the drain takes off the queue during a run, in order. */
  function Drained(s: State, trace: seq<Event>): seq<nat>
    decreases |trace|
  {
    if trace == [] then []
    else DrainedBy(s, trace[0]) + Drained(Step(s, trace[0]), trace[1..])
  }

  function DrainedBy(s: State, e: Event): seq<nat> {
    if Drains(s, e) then [s.operations[0]] else []
  }

  predicate Drains(s: State, e: Event) {
    e.DrainOp? && s.disposed && s.current == Root && s.operations != [] && s.operations[0] < |s.ops|
  }

  /** No operation enters the queue of a disposed scheduler, disposal is final, and an operation
      leaves the queue only when it is decided or given up. */
  ghost predicate Shrinks(s: State, t: State) {
    && Subsequence(t.operations, s.operations) && t.disposed == s.disposed && Leaves(s, t)
  }

  ghost predicate Leaves(s: State, t: State) {
    |s.ops| <= |t.ops| && forall o :: 0 <= o < |s.ops| && o in s.operations ==> o in t.operations || t.ops[o].status != Pending
  }

  lemma EnterShrinks(s: State, x: Fiber)
    ensures Shrinks(s, Enter(s, x))
  {
    SubsequenceSelf(s.operations);
    if x in s.waits && s.waits[x].OnOp? {
      WithoutSubsequence(s.operations, s.waits[x].op);
    }
  }

  lemma RescheduleShrinks(s: State, x: Fiber, defer: bool)
    ensures Shrinks(s, Reschedule(s, x, defer))
  {
    SubsequenceSelf(s.operations);
    EnterShrinks(SetRunning(s, x), x);
    EnterShrinks(Push(SetRunning(s, x)), x);
  }

  lemma SuspendShrinks(s: State)
    ensures Shrinks(s, Suspend(s))
  {
    SubsequenceSelf(s.operations);
    EnterShrinks(s, Runner);
    if s.fibers != [] {
      EnterShrinks(Pop(s), s.fibers[0]);
    }
  }

  lemma SettledShrinks(s: State, o: nat, success: bool, result: int, defer: bool)
    requires o < |s.ops|
    ensures Subsequence(Settled(s, o, success, result, defer).operations, Without(s.operations, o))
    ensures Shrinks(s, Settled(s, o, success, result, defer))
  {
    var t := Dropped(s, o, Outcome(s.ops[o], success, result));
    WithoutSubsequence(s.operations, o);
    SubsequenceSelf(t.operations);
    if !s.ops[o].cancelled {
      var n := t.(wins := s.wins + [Return(o, success, result)]);
      RescheduleShrinks(n, s.ops[o].waiter, defer);
      SwitchExtends(SetRunning(n, s.ops[o].waiter), s.ops[o].waiter);
      SubsequenceOfMore(Reschedule(n, s.ops[o].waiter, defer).operations, t.operations, s.operations);
    }
  }

  lemma CancelledShrinks(s: State, o: nat, error: int)
    requires o < |s.ops|
    ensures Shrinks(s, Cancelled(s, o, error))
  {
    SubsequenceSelf(s.operations);
    if s.ops[o].status == Pending {
      var op := Outcome(s.ops[o].(registered := false), false, error).(cancelled := true);
      var t := s.(ops := s.ops[o := op], wins := s.wins + [Return(o, false, error)]);
      RescheduleShrinks(t, op.waiter, false);
      SwitchExtends(SetRunning(t, op.waiter), op.waiter);
    }
  }

  lemma ReleaseShrinks(s: State, o: nat)
    requires Good(s) && o < |s.ops| && s.ops[o].cancelled
    ensures Shrinks(s, Dropped(s, o, s.ops[o]))
  {
    WithoutSubsequence(s.operations, o);
  }

  lemma StepShrinks(s: State, e: Event)
    requires Good(s) && s.disposed
    ensures Shrinks(s, Step(s, e))
  {
    SubsequenceSelf(s.operations);
    match e
    case Spawn(id) =>
    case Await(kind, inOperations, mode) =>
    case Settle(o, success, result, defer) =>
      if o < |s.ops| && s.ops[o].linked { SettledShrinks(s, o, success, result, defer); }
    case Cancel(o, error) =>
      if o < |s.ops| { CancelledShrinks(s, o, error); }
    case Release(o) =>
      if o < |s.ops| && s.ops[o].cancelled { ReleaseShrinks(s, o); }
    case Finish => SuspendShrinks(s.(tasks := s.tasks[s.current := Finished]));
    case Dispatch =>
      if s.ready != [] { RescheduleShrinks(s.(ready := s.ready[1..]), s.ready[0], false); }
    case LoopEnd =>
      if s.caller.Some? { EnterShrinks(s, s.caller.value); }
    case RunLoop => SuspendShrinks(s.(caller := Some(Root), waits := s.waits[Root := OnLoop]));
    case Dispose =>
    case DrainOp(error) =>
      if Drains(s, e) {
        SettledShrinks(s, s.operations[0], false, error, false);
      }
  }

  lemma DrainedHead(s: State)
    requires OpsOk(s, s.current) && s.current !in s.waits && s.operations != []
    ensures s.operations[0] < |s.ops| && s.ops[s.operations[0]].linked
    ensures s.ops[s.operations[0]].status == Pending <==> !s.ops[s.operations[0]].cancelled
    ensures Without(s.operations, s.operations[0]) == s.operations[1..]
  {
    var o := s.operations[0];
    assert o in s.operations;
    assert s.operations == [o] + s.operations[1..];
    assert o !in s.operations[1..];
  }

  /** Failing the head of the queue takes just it off. It was pending, and its waiter runs; or a
      cancellation had left it there, and nobody is resumed. */
  lemma DrainTakesHead(s: State, error: int)
    requires Good(s) && Drains(s, DrainOp(error))
    ensures Subsequence(Step(s, DrainOp(error)).operations, s.operations[1..])
    ensures s.ops[s.operations[0]].status == Pending <==> !s.ops[s.operations[0]].cancelled
    ensures var t, o := Step(s, DrainOp(error)), s.operations[0];
            && o < |t.ops| && t.ops[o].status == Failed && t.ops[o].result == error && !t.ops[o].linked
            && if s.ops[o].cancelled then t == s.(ops := t.ops, operations := s.operations[1..])
               else t.current == s.ops[o].waiter && t.fibers == [Root] + s.fibers
  {
    var o := s.operations[0];
    DrainedHead(s);
    SettledShrinks(s, o, false, error, false);
    SettleGood(s, o, false, error, false);
    if !s.ops[o].cancelled {
      SettledOutcome(s, o, false, error, false);
    }
  }

  /** What e drained, followed by what it leaves, comes from the queue in order. */
  lemma DrainStep(s: State, e: Event)
    requires Good(s) && s.disposed && KeepsWaiter(s, e)
    ensures Good(Step(s, e)) && Step(s, e).disposed
    ensures Subsequence(DrainedBy(s, e) + Step(s, e).operations, s.operations)
  {
    StepGood(s, e);
    StepShrinks(s, e);
    if Drains(s, e) {
      DrainTakesHead(s, e.failure);
      assert (DrainedBy(s, e) + Step(s, e).operations)[1..] == Step(s, e).operations;
    } else {
      assert DrainedBy(s, e) + Step(s, e).operations == Step(s, e).operations;
    }
  }

  lemma {:induction false} SubsequenceBehind(a: seq<nat>, b: seq<nat>, c: seq<nat>)
    requires Subsequence(b, c)
    ensures Subsequence(a + b, a + c)
  {
    if a == [] {
      assert a + b == b && a + c == c;
    } else {
      SubsequenceBehind(a[1..], b, c);
      assert (a + b)[1..] == a[1..] + b && (a + c)[1..] == a[1..] + c;
    }
  }

  lemma {:induction false} DrainOrder(s: State, trace: seq<Event>, t: State)
    requires Good(s) && s.disposed && Run(s, trace) == Some(t)
    ensures t.disposed && Subsequence(Drained(s, trace) + t.operations, s.operations)
    decreases |trace|
  {
    if trace == [] {
      SubsequenceSelf(s.operations);
      assert Drained(s, trace) + t.operations == s.operations;
    } else {
      var e, n, rest := trace[0], Step(s, trace[0]), trace[1..];
      DrainStep(s, e);
      DrainOrder(n, rest, t);
      DrainJoin(DrainedBy(s, e), Drained(n, rest) + t.operations, n.operations, s.operations);
      Regroup(DrainedBy(s, e), Drained(n, rest), t.operations);
    }
  }

  lemma DrainJoin(head: seq<nat>, later: seq<nat>, middle: seq<nat>, queue: seq<nat>)
    requires Subsequence(later, middle) && Subsequence(head + middle, queue)
    ensures Subsequence(head + later, queue)
  {
    SubsequenceBehind(head, later, middle);
    SubsequenceOfMore(head + later, head + middle, queue);
  }

  /** Once DISPOSED is set, what the drain takes during any run, followed by what it leaves, is the
      queue it began with less the operations that ended on their own: each queued operation is
      failed at most once, in queue order, and the drain takes no more turns than the queue is long. */
  lemma DrainTerminates(s: State, trace: seq<Event>, t: State)
    requires Good(s) && s.disposed && Run(s, trace) == Some(t)
    ensures Subsequence(Drained(s, trace) + t.operations, s.operations)
    ensures NoDup(Drained(s, trace) + t.operations) && |Drained(s, trace)| + |t.operations| <= |s.operations|
    ensures t.disposed
  {
    DrainOrder(s, trace, t);
    SubsequenceFacts(Drained(s, trace) + t.operations, s.operations);
  }

  /** Every operation the drain took has failed for good, whoever decided it, and one that is queued no
      more was decided or given up. */
  lemma {:induction false} QueuedAreFailed(s: State, trace: seq<Event>, t: State, o: nat)
    requires Good(s) && s.disposed && Run(s, trace) == Some(t) && o in s.operations && o < |s.ops|
    ensures o < |t.ops| && (o !in t.operations ==> t.ops[o].status != Pending)
    ensures o in Drained(s, trace) ==> t.ops[o].status == Failed
    decreases |trace|
  {
    if trace != [] {
      var e, n := trace[0], Step(s, trace[0]);
      StepGood(s, e);
      StepShrinks(s, e);
      RunExtends(n, trace[1..], t);
      if Drains(s, e) {
        DrainTakesHead(s, e.failure);
      }
      if o in n.operations {
        QueuedAreFailed(n, trace[1..], t, o);
      } else {
        DrainTerminates(n, trace[1..], t);
        SubsequenceFacts(Drained(n, trace[1..]) + t.operations, n.operations);
        assert o !in Drained(n, trace[1..]) + t.operations;
      }
    }
  }
}
