/** What the scheduler guarantees over whole runs. */
module SchedulerRuns {
  import opened Queues
  import opened SchedulerSpec
  import opened SchedulerProofs

  lemma {:induction false} RunGood(s: State, trace: seq<Event>, t: State)
    requires Good(s) && Run(s, trace) == Some(t)
    ensures Good(t)
    decreases |trace|
  {
    if trace == [] {
    } else {
      StepGood(s, trace[0]);
      RunGood(Step(s, trace[0]), trace[1..], t);
    }
  }

  // ---- Every fiber is in exactly one place ----

  datatype Place = Current | Stacked | Queued | Waits | Parked | Done

  ghost predicate At(s: State, f: Fiber, p: Place) {
    match p
    case Current => f == s.current
    case Stacked => f in s.fibers
    case Queued => f in s.ready
    case Waits => f in s.waits && f !in s.ready
    case Parked => f == Runner && f != s.current && f !in s.fibers
    case Done => f in s.tasks && s.tasks[f] == Finished
  }

  ghost predicate Exists(s: State, f: Fiber) {
    f in {Root, Runner} || f in s.tasks
  }

  ghost predicate ExactlyOnePlace(s: State, f: Fiber) {
    exists p :: At(s, f, p) && forall q :: At(s, f, q) ==> q == p
  }

  ghost function Where(s: State, f: Fiber): Place {
    if f == s.current then Current
    else if f in s.fibers then Stacked
    else if f in s.ready then Queued
    else if f in s.waits then Waits
    else if f == Runner then Parked
    else Done
  }

  lemma GoodPlaces(s: State, f: Fiber, p: Place)
    requires Good(s) && Exists(s, f)
    ensures At(s, f, p) <==> p == Where(s, f)
  {
    if f in s.ready {
      assert InReady(f, s.fibers, s.tasks, s.waits, s.ops);
    }
    if f in s.tasks {
      assert TaskPlace(f, s.tasks[f], s.fibers, s.ready, s.waits, {s.current});
    }
  }

  /** The scheduler's location invariant, in every reachable state. */
  lemma EachFiberInOnePlace(trace: seq<Event>, s: State)
    requires Run(START, trace) == Some(s)
    ensures forall f :: Exists(s, f) ==> ExactlyOnePlace(s, f)
    ensures forall f :: f in s.queued <==> f in s.fibers
    ensures s.current == Runner ==> s.fibers == []
    ensures forall i :: 0 <= i < |s.fibers| && s.fibers[i] == Runner ==> i == |s.fibers| - 1
  {
    RunGood(START, trace, s);
    forall f | Exists(s, f)
      ensures ExactlyOnePlace(s, f)
    {
      forall p
        ensures At(s, f, p) <==> p == Where(s, f)
      {
        GoodPlaces(s, f, p);
      }
      assert At(s, f, Where(s, f));
    }
  }

  // ---- A switch behaves like a call ----

  /** x is on the stack directly above the fibers base. */
  ghost predicate Above(fibers: seq<Fiber>, x: Fiber, base: seq<Fiber>) {
    && |fibers| > |base|
    && fibers[|fibers| - |base|..] == base
    && fibers[|fibers| - |base| - 1] == x
  }

  /** x does not run before the last state of the run. */
  ghost predicate Away(s: State, trace: seq<Event>, x: Fiber)
    decreases |trace|
  {
    trace == [] || (s.current != x && Away(Step(s, trace[0]), trace[1..], x))
  }

  /** A step leaves the stack alone, puts the running fiber on top, or resumes the fiber on top. */
  ghost predicate StackStep(s: State, t: State) {
    || (t.fibers == s.fibers)
    || (t.fibers == [s.current] + s.fibers)
    || (s.fibers != [] && t.fibers == s.fibers[1..] && t.current == s.fibers[0])
  }

  lemma EnterStack(s: State, x: Fiber)
    ensures Enter(s, x).fibers == s.fibers && Enter(s, x).current == x
  {
  }

  lemma SwitchStack(s: State, x: Fiber)
    ensures StackStep(s, SwitchTo(s, x))
  {
    EnterStack(s, x);
    EnterStack(Push(s), x);
  }

  lemma SuspendStack(s: State)
    ensures StackStep(s, Suspend(s))
  {
    if s.fibers == [] {
      EnterStack(s, Runner);
    } else {
      EnterStack(Pop(s), s.fibers[0]);
    }
  }

  lemma RescheduleStack(s: State, x: Fiber, defer: bool)
    ensures StackStep(s, Reschedule(s, x, defer))
  {
    SwitchStack(SetRunning(s, x), x);
  }

  lemma AwaitedStack(s: State, kind: Kind, inOperations: bool, mode: Mode)
    ensures StackStep(s, Awaited(s, kind, inOperations, mode))
  {
    SuspendStack(Waiting(s, kind, inOperations, mode));
  }

  lemma DecidedStack(s: State, o: nat, success: bool, result: int, defer: bool)
    requires o < |s.ops|
    ensures StackStep(s, Settled(s, o, success, result, defer)) && StackStep(s, Cancelled(s, o, result))
  {
    var waiter := s.ops[o].waiter;
    var settled := Dropped(s, o, Outcome(s.ops[o], success, result));
    RescheduleStack(settled.(wins := s.wins + [Return(o, success, result)]), waiter, defer);
    var cancelled := Outcome(s.ops[o].(registered := false), false, result).(cancelled := true);
    RescheduleStack(s.(ops := s.ops[o := cancelled], wins := s.wins + [Return(o, false, result)]), waiter, false);
  }

  lemma StepStack(s: State, e: Event)
    ensures StackStep(s, Step(s, e))
  {
    match e
    case Spawn(id) =>
    case Await(kind, inOperations, mode) => AwaitedStack(s, kind, inOperations, mode);
    case Settle(o, success, result, defer) =>
      if o < |s.ops| { DecidedStack(s, o, success, result, defer); }
    case Cancel(o, error) =>
      if o < |s.ops| { DecidedStack(s, o, false, error, false); }
    case Release(_) =>
    case Finish => SuspendStack(s.(tasks := s.tasks[s.current := Finished]));
    case Dispatch =>
      if s.ready != [] { SwitchStack(Taken(s), s.ready[0]); }
    case LoopEnd =>
      if s.caller.Some? { EnterStack(s, s.caller.value); }
    case RunLoop => SuspendStack(s.(caller := Some(Root), waits := s.waits[Root := OnLoop]));
    case Dispose =>
    case DrainOp(error) =>
      if s.operations != [] && s.operations[0] < |s.ops| { DecidedStack(s, s.operations[0], false, error, false); }
  }

  lemma StepAbove(s: State, t: State, x: Fiber, base: seq<Fiber>)
    requires StackStep(s, t) && Above(s.fibers, x, base)
    ensures Above(t.fibers, x, base) || (t.current == x && t.fibers == base)
  {
    if t.fibers == [s.current] + s.fibers {
      assert t.fibers[|t.fibers| - |base|..] == s.fibers[|s.fibers| - |base|..];
    } else if t.fibers != s.fibers {
      assert t.fibers[|t.fibers| - |base|..] == s.fibers[|s.fibers| - |base|..];
    }
  }

  /** Until x runs again it stays on the stack right above base, and when it runs next the stack is
      base: whatever was switched to and suspended in between is gone from it. */
  lemma {:induction false} ComesBack(s: State, trace: seq<Event>, t: State, x: Fiber, base: seq<Fiber>)
    requires Good(s) && Run(s, trace) == Some(t) && Above(s.fibers, x, base) && Away(s, trace, x)
    ensures if t.current == x then t.fibers == base else Above(t.fibers, x, base)
    decreases |trace|
  {
    if trace == [] {
      assert x in s.fibers;
    } else {
      var n := Step(s, trace[0]);
      StepStack(s, trace[0]);
      StepAbove(s, n, x, base);
      StepGood(s, trace[0]);
      if n.current == x && n.fibers == base {
        assert trace[1..] == [] by {
          assert Away(n, trace[1..], x);
        }
      } else {
        ComesBack(n, trace[1..], t, x, base);
      }
    }
  }

  lemma SwitchIsACall(s: State, n: State, trace: seq<Event>, t: State)
    requires Good(n) && n.fibers == [s.current] + s.fibers
    requires Run(n, trace) == Some(t) && Away(n, trace, s.current)
    ensures if t.current == s.current then t.fibers == s.fibers else Above(t.fibers, s.current, s.fibers)
  {
    assert n.fibers[|n.fibers| - |s.fibers|..] == s.fibers;
    ComesBack(n, trace, t, s.current, s.fibers);
  }

  /** async_fiber_switch with PREPEND: the fiber that settled an operation in place finds the stack
      as it left it when it runs next. */
  lemma SettlingIsACall(s: State, o: nat, success: bool, result: int, trace: seq<Event>, t: State)
    requires Good(s) && o < |s.ops| && s.ops[o].linked && !s.ops[o].cancelled
    requires var n := Step(s, Settle(o, success, result, false)); Run(n, trace) == Some(t) && Away(n, trace, s.current)
    ensures Step(s, Settle(o, success, result, false)).current == s.ops[o].waiter
    ensures if t.current == s.current then t.fibers == s.fibers else Above(t.fibers, s.current, s.fibers)
  {
    SettleGood(s, o, success, result, false);
    SwitchIsACall(s, Settled(s, o, success, result, false), trace, t);
  }

  /** The same for a cancellation that arrives while the operation is pending. */
  lemma CancellingIsACall(s: State, o: nat, error: int, trace: seq<Event>, t: State)
    requires Good(s) && o < |s.ops| && s.ops[o].registered && s.ops[o].status == Pending
    requires var n := Step(s, Cancel(o, error)); Run(n, trace) == Some(t) && Away(n, trace, s.current)
    ensures Step(s, Cancel(o, error)).current == s.ops[o].waiter
    ensures if t.current == s.current then t.fibers == s.fibers else Above(t.fibers, s.current, s.fibers)
  {
    CancelGood(s, o, error);
    SwitchIsACall(s, Cancelled(s, o, error), trace, t);
  }

  /** dispatch_tasks: the runner gets control back with an empty stack. */
  lemma DispatchIsACall(s: State, trace: seq<Event>, t: State)
    requires Good(s) && s.current == Runner && s.ready != []
    requires Run(Step(s, Dispatch), trace) == Some(t) && Away(Step(s, Dispatch), trace, Runner)
    ensures Step(s, Dispatch).current == s.ready[0]
    ensures if t.current == Runner then t.fibers == [] else Above(t.fibers, Runner, [])
  {
    DispatchGood(s);
    assert s.fibers == [];
    SwitchIsACall(s, Step(s, Dispatch), trace, t);
  }

  // ---- The ready queue is first in, first out ----

  predicate Dispatches(s: State, e: Event) {
    e.Dispatch? && s.current == Runner && s.ready != []
  }

  /** The fibers that dispatch_tasks takes off the queue during a run, in order. */
  function Dispatched(s: State, trace: seq<Event>): seq<Fiber>
    decreases |trace|
  {
    if trace == [] then []
    else DispatchedBy(s, trace[0]) + Dispatched(Step(s, trace[0]), trace[1..])
  }

  function DispatchedBy(s: State, e: Event): seq<Fiber> {
    if Dispatches(s, e) then [s.ready[0]] else []
  }

  lemma EnterReady(s: State, x: Fiber)
    ensures Enter(s, x).ready == s.ready
  {
  }

  lemma SuspendReady(s: State)
    ensures Suspend(s).ready == s.ready
  {
    if s.fibers != [] {
      EnterReady(Pop(s), s.fibers[0]);
    } else {
      EnterReady(s, Runner);
    }
  }

  lemma RescheduleReady(s: State, x: Fiber, defer: bool)
    ensures s.ready <= Reschedule(s, x, defer).ready
  {
    EnterReady(SetRunning(s, x), x);
    EnterReady(Push(SetRunning(s, x)), x);
  }

  lemma DecidedReady(s: State, o: nat, success: bool, result: int, defer: bool)
    requires o < |s.ops|
    ensures s.ready <= Settled(s, o, success, result, defer).ready && s.ready <= Cancelled(s, o, result).ready
  {
    var waiter := s.ops[o].waiter;
    var settled := Dropped(s, o, Outcome(s.ops[o], success, result));
    RescheduleReady(settled.(wins := s.wins + [Return(o, success, result)]), waiter, defer);
    var cancelled := Outcome(s.ops[o].(registered := false), false, result).(cancelled := true);
    RescheduleReady(s.(ops := s.ops[o := cancelled], wins := s.wins + [Return(o, false, result)]), waiter, false);
  }

  lemma StepReady(s: State, e: Event)
    ensures if Dispatches(s, e) then Step(s, e).ready == s.ready[1..] else s.ready <= Step(s, e).ready
  {
    match e
    case Spawn(id) =>
    case Await(kind, inOperations, mode) => SuspendReady(Waiting(s, kind, inOperations, mode));
    case Settle(o, success, result, defer) =>
      if o < |s.ops| { DecidedReady(s, o, success, result, defer); }
    case Cancel(o, error) =>
      if o < |s.ops| { DecidedReady(s, o, false, error, false); }
    case Release(_) =>
    case Finish => SuspendReady(s.(tasks := s.tasks[s.current := Finished]));
    case Dispatch =>
      if s.ready != [] {
        EnterReady(Taken(s), s.ready[0]);
        EnterReady(Push(Taken(s)), s.ready[0]);
      }
    case LoopEnd =>
      if s.caller.Some? { EnterReady(s, s.caller.value); }
    case RunLoop => SuspendReady(s.(caller := Some(Root), waits := s.waits[Root := OnLoop]));
    case Dispose =>
    case DrainOp(error) =>
      if s.operations != [] && s.operations[0] < |s.ops| { DecidedReady(s, s.operations[0], false, error, false); }
  }

  lemma StepFifo(s: State, e: Event)
    ensures s.ready <= DispatchedBy(s, e) + Step(s, e).ready
  {
    StepReady(s, e);
  }

  lemma FifoJoin(ready: seq<Fiber>, head: seq<Fiber>, next: seq<Fiber>, later: seq<Fiber>, end: seq<Fiber>)
    requires ready <= head + next && next <= later + end
    ensures ready <= (head + later) + end
  {
    assert (head + later) + end == head + (later + end);
  }

  /** Over any run, whoever is in the ready queue is dispatched in queue order, before anything that
      joins it later. */
  lemma {:induction false} ReadyIsFifo(s: State, trace: seq<Event>)
    ensures s.ready <= Dispatched(s, trace) + AnyRun(s, trace).ready
    decreases |trace|
  {
    if trace == [] {
      assert Dispatched(s, trace) + s.ready == s.ready;
    } else {
      var n, rest := Step(s, trace[0]), trace[1..];
      StepFifo(s, trace[0]);
      ReadyIsFifo(n, rest);
      FifoJoin(s.ready, DispatchedBy(s, trace[0]), n.ready, Dispatched(n, rest), AnyRun(n, rest).ready);
    }
  }

  /** The state after a run in which anything may happen. */
  function AnyRun(s: State, trace: seq<Event>): State
    decreases |trace|
  {
    if trace == [] then s else AnyRun(Step(s, trace[0]), trace[1..])
  }

  // ---- Settlement against cancellation ----

  /** The logs of s only grew, and so every decision in them stands; what each operation shows goes on
      as SameFate says. */
  ghost predicate Extends(s: State, t: State) {
    && |s.ops| <= |t.ops| && s.wins <= t.wins && s.resumed <= t.resumed
    && forall o :: 0 <= o < |s.ops| ==> SameFate(s.ops[o], t.ops[o])
  }

  /** A decided operation is never linked again, and shows the same outcome as before unless a
      cancellation left it linked and it was taken off its list since. */
  ghost predicate SameFate(a: Op, b: Op) {
    && a.waiter == b.waiter && a.kind == b.kind && a.stays == b.stays
    && (a.status != Pending ==>
          && b.status != Pending && b.cancelled == a.cancelled && (b.linked ==> a.linked)
          && (!a.cancelled || !a.linked || b.linked ==> b.status == a.status && b.result == a.result))
  }

  lemma EnterExtends(s: State, x: Fiber)
    ensures Extends(s, Enter(s, x))
  {
  }

  lemma SwitchExtends(s: State, x: Fiber)
    ensures Extends(s, SwitchTo(s, x))
  {
    EnterExtends(s, x);
    EnterExtends(Push(s), x);
  }

  lemma SuspendExtends(s: State)
    ensures Extends(s, Suspend(s))
  {
    if s.fibers != [] {
      EnterExtends(Pop(s), s.fibers[0]);
    } else {
      EnterExtends(s, Runner);
    }
  }

  lemma SettledExtends(s: State, o: nat, success: bool, result: int, defer: bool)
    requires o < |s.ops| && s.ops[o].linked && (s.ops[o].status == Pending <==> !s.ops[o].cancelled)
    ensures Extends(s, Settled(s, o, success, result, defer))
  {
    var t := Dropped(s, o, Outcome(s.ops[o], success, result));
    if !s.ops[o].cancelled {
      var n := t.(wins := s.wins + [Return(o, success, result)]);
      assert Extends(s, n);
      SwitchExtends(SetRunning(n, s.ops[o].waiter), s.ops[o].waiter);
    }
  }

  lemma CancelledExtends(s: State, o: nat, error: int)
    requires o < |s.ops| && (s.ops[o].status == Pending ==> s.ops[o].linked)
    ensures Extends(s, Cancelled(s, o, error))
  {
    if s.ops[o].status == Pending {
      var op := Outcome(s.ops[o].(registered := false), false, error).(cancelled := true);
      var t := Won(s, o, op);
      assert Cancelled(s, o, error) == Reschedule(t, op.waiter, false);
      SwitchExtends(SetRunning(t, op.waiter), op.waiter);
    }
  }

  lemma AwaitedExtends(s: State, kind: Kind, inOperations: bool, mode: Mode)
    ensures Extends(s, Awaited(s, kind, inOperations, mode))
  {
    var t := Waiting(s, kind, inOperations, mode);
    if Awaited(s, kind, inOperations, mode) != s {
      assert Awaited(s, kind, inOperations, mode) == Suspend(t);
      SuspendExtends(t);
    }
  }

  lemma SettleExtends(s: State, o: nat, success: bool, result: int, defer: bool)
    requires OpsOk(s, s.current) && s.current !in s.waits
    ensures Extends(s, Step(s, Settle(o, success, result, defer)))
  {
    if o < |s.ops| && s.ops[o].linked {
      SettledExtends(s, o, success, result, defer);
    }
  }

  lemma CancelExtends(s: State, o: nat, error: int)
    requires OpsOk(s, s.current)
    ensures Extends(s, Step(s, Cancel(o, error)))
  {
    if o < |s.ops| { CancelledExtends(s, o, error); }
  }

  lemma FinishExtends(s: State)
    ensures Extends(s, Step(s, Finish))
  {
    SuspendExtends(s.(tasks := s.tasks[s.current := Finished]));
  }

  lemma DispatchExtends(s: State)
    ensures Extends(s, Step(s, Dispatch))
  {
    if s.ready != [] { SwitchExtends(Taken(s), s.ready[0]); }
  }

  lemma LoopExtends(s: State)
    ensures Extends(s, Step(s, LoopEnd)) && Extends(s, Step(s, RunLoop))
  {
    if s.caller.Some? { EnterExtends(s, s.caller.value); }
    SuspendExtends(s.(caller := Some(Root), waits := s.waits[Root := OnLoop]));
  }

  lemma DrainExtends(s: State, error: int)
    requires OpsOk(s, s.current) && s.current !in s.waits
    ensures Extends(s, Step(s, DrainOp(error)))
  {
    if s.operations != [] && s.operations[0] < |s.ops| {
      var o := s.operations[0];
      assert o in s.operations;
      SettledExtends(s, o, false, error, false);
    }
  }

  /** The steps that decide nothing. */
  lemma OtherExtends(s: State, e: Event)
    requires !e.Settle? && !e.Cancel? && !e.DrainOp? && !e.Release?
    ensures Extends(s, Step(s, e))
  {
    match e
    case Spawn(id) =>
    case Await(kind, inOperations, mode) => AwaitedExtends(s, kind, inOperations, mode);
    case Finish => FinishExtends(s);
    case Dispatch => DispatchExtends(s);
    case LoopEnd => LoopExtends(s);
    case RunLoop => LoopExtends(s);
    case Dispose =>
  }

  lemma StepExtends(s: State, e: Event)
    requires Good(s)
    ensures Extends(s, Step(s, e))
  {
    match e
    case Settle(o, success, result, defer) => SettleExtends(s, o, success, result, defer);
    case Cancel(o, error) => CancelExtends(s, o, error);
    case Release(_) =>
    case DrainOp(error) => DrainExtends(s, error);
    case _ => OtherExtends(s, e);
  }

  /** Once an operation is decided, the decision is final. */
  lemma {:induction false} RunExtends(s: State, trace: seq<Event>, t: State)
    requires Good(s) && Run(s, trace) == Some(t)
    ensures Extends(s, t)
    decreases |trace|
  {
    if trace == [] {
    } else {
      var n := Step(s, trace[0]);
      StepGood(s, trace[0]);
      StepExtends(s, trace[0]);
      RunExtends(n, trace[1..], t);
    }
  }

  /** How often the outcome of o was handed to its waiter. */
  ghost function Returns(rs: seq<Return>, o: nat): (n: nat)
    ensures n == 0 <==> !HasReturn(rs, o)
  {
    if rs == [] then 0
    else
      assert rs == [rs[0]] + rs[1..];
      (if rs[0].op == o then 1 else 0) + Returns(rs[1..], o)
  }

  lemma {:induction false} ReturnsOnce(rs: seq<Return>, o: nat)
    requires forall i, j :: 0 <= i < j < |rs| ==> rs[i].op != rs[j].op
    ensures Returns(rs, o) == if HasReturn(rs, o) then 1 else 0
  {
    if rs == [] {
    } else {
      ReturnsOnce(rs[1..], o);
    }
  }

  lemma LogOutcomes(s: State, o: nat)
    requires LogOk(s) && o < |s.ops|
    ensures HasReturn(s.wins, o) <==> s.ops[o].status in {Resolved, Failed}
    ensures HasReturn(s.resumed, o) ==> !WaitsFor(s.waits, s.ops[o].waiter, o) && s.ops[o].status != Pending
    ensures Returns(s.resumed, o) <= 1 && Returns(s.wins, o) <= 1
    ensures forall r :: r in s.resumed && r.op == o ==> if s.ops[o].status == Abandoned then !r.success else r in s.wins
    ensures forall w :: w in s.wins && w.op == o ==>
              if s.ops[o].cancelled then !w.success else w == Decision(o, s.ops[o])
  {
    ReturnsOnce(s.resumed, o);
    ReturnsOnce(s.wins, o);
    assert forall r :: r in s.resumed && r.op == o ==> Faithful(s.ops, s.waits, s.wins, r);
    assert forall w :: w in s.wins && w.op == o ==> Winner(s.ops, s.waits, w);
  }

  lemma PendingNotReady(s: State, o: nat)
    requires ReadyOk(s) && OpsOk(s, s.current) && o < |s.ops| && s.ops[o].status == Pending
    ensures s.ops[o].waiter !in s.ready || (s.ops[o].waiter.Task? && s.tasks[s.ops[o].waiter] == Init)
    ensures WaitsFor(s.waits, s.ops[o].waiter, o)
  {
    var w := s.ops[o].waiter;
    assert w in s.ready ==> InReady(w, s.fibers, s.tasks, s.waits, s.ops);
  }

  /** In every reachable state: an operation has one winner at most, a cancellation if it is flagged as
      cancelled and otherwise the settlement it shows; its waiter was resumed exactly once, with the
      winner's outcome, or is still suspended; it is still suspended after a decision only while it
      sits in the ready queue; and only the root is ever resumed without a decision. */
  lemma OneWinnerOneResumption(trace: seq<Event>, s: State, o: nat)
    requires Run(START, trace) == Some(s) && o < |s.ops|
    ensures Returns(s.wins, o) == if s.ops[o].status in {Resolved, Failed} then 1 else 0
    ensures forall w :: w in s.wins && w.op == o ==> if s.ops[o].cancelled then !w.success else w == Decision(o, s.ops[o])
    ensures WaitsFor(s.waits, s.ops[o].waiter, o) <==> Returns(s.resumed, o) == 0
    ensures Returns(s.resumed, o) <= 1
    ensures s.ops[o].status == Pending ==> Returns(s.resumed, o) == 0 && s.ops[o].waiter !in s.ready
    ensures s.ops[o].status != Pending && Returns(s.resumed, o) == 0 ==> s.ops[o].waiter in s.ready
    ensures forall r :: r in s.resumed && r.op == o ==> if s.ops[o].status == Abandoned then !r.success else r in s.wins
    ensures s.ops[o].status == Abandoned ==> s.ops[o].waiter == Root
    ensures s.ops[o].cancelled ==> Returns(s.resumed, o) == 1
  {
    RunGood(START, trace, s);
    LogOutcomes(s, o);
    var w := s.ops[o].waiter;
    if s.ops[o].status == Pending {
      PendingNotReady(s, o);
      assert w in s.tasks ==> TaskPlace(w, s.tasks[w], s.fibers, s.ready, s.waits, {s.current});
    } else if WaitsFor(s.waits, w, o) {
      assert SettledWait(s.waits, s.ops, w);
    }
  }

  lemma Same(rs: seq<Return>, a: Return, b: Return)
    requires Once(rs) && a in rs && b in rs && a.op == b.op
    ensures a == b
  {
  }

  /** The waiter of a decided operation is handed the decision, and has been if it runs. */
  lemma Delivered(t: State, o: nat, w: Return)
    requires Good(t) && w in t.wins && w.op == o
    ensures o < |t.ops| && (t.current == t.ops[o].waiter || t.ops[o].cancelled ==> w in t.resumed)
    ensures forall r :: r in t.resumed && r.op == o ==> r == w
  {
    assert Winner(t.ops, t.waits, w);
    forall r | r in t.resumed && r.op == o
      ensures r == w
    {
      assert Faithful(t.ops, t.waits, t.wins, r);
      Same(t.wins, r, w);
    }
    if t.current == t.ops[o].waiter || t.ops[o].cancelled {
      assert !WaitsFor(t.waits, t.ops[o].waiter, o) && HasReturn(t.resumed, o);
      var r :| r in t.resumed && r.op == o;
    }
  }

  /** From the decision w on, over any run. */
  lemma Final(n: State, o: nat, w: Return, trace: seq<Event>, t: State)
    requires Good(n) && w in n.wins && w.op == o && Run(n, trace) == Some(t)
    ensures o < |n.ops| && o < |t.ops| && n.ops[o].status != Pending && SameFate(n.ops[o], t.ops[o])
    ensures t.current == t.ops[o].waiter || t.ops[o].cancelled ==> w in t.resumed
    ensures forall r :: r in t.resumed && r.op == o ==> r == w
  {
    assert Winner(n.ops, n.waits, w);
    RunExtends(n, trace, t);
    RunGood(n, trace, t);
    Delivered(t, o, w);
  }

  /** Whatever happens later, cancellations included, the outcome of the settlement is what the
      waiter is resumed with; and it has been resumed with it if it ever runs again. */
  lemma SettlementWins(s: State, o: nat, success: bool, result: int, defer: bool, trace: seq<Event>, t: State)
    requires Good(s) && o < |s.ops| && s.ops[o].linked && !s.ops[o].cancelled && (defer ==> s.ops[o].kind == AwaitOp)
    requires Run(Step(s, Settle(o, success, result, defer)), trace) == Some(t)
    ensures o < |t.ops| && t.ops[o].status == (if success then Resolved else Failed) && t.ops[o].result == result
    ensures t.current == s.ops[o].waiter ==> Return(o, success, result) in t.resumed
    ensures forall r :: r in t.resumed && r.op == o ==> r == Return(o, success, result)
  {
    StepGood(s, Settle(o, success, result, defer));
    SettledOutcome(s, o, success, result, defer);
    StaysSettled(Step(s, Settle(o, success, result, defer)), o, trace, t);
  }

  /** A settlement stays what the operation shows. */
  lemma StaysSettled(n: State, o: nat, trace: seq<Event>, t: State)
    requires Good(n) && o < |n.ops| && !n.ops[o].cancelled && Decision(o, n.ops[o]) in n.wins && Run(n, trace) == Some(t)
    ensures o < |t.ops| && t.ops[o].waiter == n.ops[o].waiter
    ensures t.ops[o].status == n.ops[o].status && t.ops[o].result == n.ops[o].result
    ensures t.current == t.ops[o].waiter ==> Decision(o, n.ops[o]) in t.resumed
    ensures forall r :: r in t.resumed && r.op == o ==> r == Decision(o, n.ops[o])
  {
    Final(n, o, Decision(o, n.ops[o]), trace, t);
  }

  lemma SettledOutcome(s: State, o: nat, success: bool, result: int, defer: bool)
    requires o < |s.ops| && !s.ops[o].cancelled
    ensures var n := Settled(s, o, success, result, defer);
            && o < |n.ops| && n.ops[o].status == (if success then Resolved else Failed) && n.ops[o].result == result
            && n.ops[o].waiter == s.ops[o].waiter && !n.ops[o].cancelled && !n.ops[o].linked && Return(o, success, result) in n.wins
  {
    var t := Dropped(s, o, Outcome(s.ops[o], success, result)).(wins := s.wins + [Return(o, success, result)]);
    assert Return(o, success, result) in t.wins;
    SwitchExtends(SetRunning(t, s.ops[o].waiter), s.ops[o].waiter);
  }

  lemma CancelledOutcome(s: State, o: nat, error: int)
    requires o < |s.ops| && s.ops[o].status == Pending && s.ops[o].linked
    ensures var n := Cancelled(s, o, error);
            && o < |n.ops| && n.ops[o].status == Failed && n.ops[o].result == error
            && n.ops[o].waiter == s.ops[o].waiter && n.ops[o].cancelled && Return(o, false, error) in n.wins
  {
    var op := Outcome(s.ops[o].(registered := false), false, error).(cancelled := true);
    var t := Won(s, o, op);
    assert Return(o, false, error) in t.wins;
    SwitchExtends(SetRunning(t, op.waiter), op.waiter);
  }

  /** A cancellation that finds the operation pending is final: its error is what the waiter is resumed
      with, at once and once, however often the operation is settled or drained later. It goes on
      showing the error unless it was left linked and taken off its list since. */
  lemma CancellationWins(s: State, o: nat, error: int, trace: seq<Event>, t: State)
    requires Good(s) && o < |s.ops| && s.ops[o].registered && s.ops[o].status == Pending
    requires Run(Step(s, Cancel(o, error)), trace) == Some(t)
    ensures Return(o, false, error) in Step(s, Cancel(o, error)).resumed
    ensures o < |t.ops| && t.ops[o].cancelled && Return(o, false, error) in t.resumed
    ensures forall r :: r in t.resumed && r.op == o ==> r == Return(o, false, error)
    ensures !s.ops[o].stays || t.ops[o].linked ==> t.ops[o].status == Failed && t.ops[o].result == error
  {
    StepGood(s, Cancel(o, error));
    CancelledOutcome(s, o, error);
    CancelledLinks(s, o, error);
    Delivered(Step(s, Cancel(o, error)), o, Return(o, false, error));
    StaysCancelled(Step(s, Cancel(o, error)), o, Return(o, false, error), trace, t);
  }

  /** What the waiter of a cancelled operation was handed stands; and so does what the operation shows,
      unless it was left linked and taken off its list since. */
  lemma StaysCancelled(n: State, o: nat, w: Return, trace: seq<Event>, t: State)
    requires Good(n) && o < |n.ops| && n.ops[o].cancelled && w in n.wins && w.op == o && Run(n, trace) == Some(t)
    ensures o < |t.ops| && t.ops[o].cancelled && w in t.resumed
    ensures forall r :: r in t.resumed && r.op == o ==> r == w
    ensures !n.ops[o].linked || t.ops[o].linked ==> t.ops[o].status == n.ops[o].status && t.ops[o].result == n.ops[o].result
  {
    Final(n, o, w, trace, t);
  }

  /** Behind the await the cancelled operation is linked exactly if its owner leaves it so. */
  lemma CancelledLinks(s: State, o: nat, error: int)
    requires Good(s) && o < |s.ops| && s.ops[o].status == Pending
    ensures var n := Cancelled(s, o, error); o < |n.ops| && n.ops[o].linked == s.ops[o].stays && n.ops[o].stays == s.ops[o].stays
  {
    assert s.ops[o].linked && WaitsFor(s.waits, s.ops[o].waiter, o);
    assert s.current != s.ops[o].waiter && s.ops[o].waiter != Runner;
  }

  /** A settlement of a cancelled operation takes it off its list and changes what it shows, and nothing
      else: nobody is resumed, queued or logged. */
  lemma LateSettlementResumesNobody(s: State, o: nat, success: bool, result: int, defer: bool)
    requires Good(s) && o < |s.ops| && s.ops[o].cancelled && s.ops[o].linked
    ensures var t := Step(s, Settle(o, success, result, defer));
            && t == s.(ops := t.ops, operations := t.operations)
            && t.operations == Without(s.operations, o) && !t.ops[o].linked
            && t.ops[o].status == (if success then Resolved else Failed) && t.ops[o].result == result
            && forall p :: 0 <= p < |s.ops| && p != o ==> t.ops[p] == s.ops[p]
    ensures Returns(s.resumed, o) == 1 && !WaitsFor(s.waits, s.ops[o].waiter, o)
  {
    LogOutcomes(s, o);
  }

  /** The outcome a step gives to operation o, if it settles or drains it. */
  function SettledBy(s: State, e: Event, o: nat): Option<Return> {
    match e
    case Settle(p, success, result, _) =>
      if p == o && o < |s.ops| && s.ops[o].linked then Some(Return(o, success, result)) else None
    case DrainOp(error) =>
      if s.disposed && s.current == Root && s.operations != [] && s.operations[0] == o then Some(Return(o, false, error)) else None
    case _ => None
  }

  /** Nobody waits for o. */
  ghost predicate Unawaited(s: State, o: nat) {
    o < |s.ops| && !s.ops[o].registered && forall f :: f in s.waits ==> s.waits[f] != OnOp(o)
  }

  ghost predicate Untouched(s: State, t: State, o: nat) {
    Unawaited(s, o) && Unawaited(t, o) && t.ops[o] == s.ops[o]
  }

  lemma EnterUntouched(s: State, x: Fiber, o: nat)
    requires Unawaited(s, o)
    ensures Untouched(s, Enter(s, x), o)
  {
  }

  lemma SwitchUntouched(s: State, x: Fiber, o: nat)
    requires Unawaited(s, o)
    ensures Untouched(s, SwitchTo(s, x), o)
  {
    EnterUntouched(s, x, o);
    EnterUntouched(Push(s), x, o);
  }

  lemma SuspendUntouched(s: State, o: nat)
    requires Unawaited(s, o)
    ensures Untouched(s, Suspend(s), o)
  {
    if s.fibers == [] {
      EnterUntouched(s, Runner, o);
    } else {
      EnterUntouched(Pop(s), s.fibers[0], o);
    }
  }

  lemma RescheduleUntouched(s: State, x: Fiber, defer: bool, o: nat)
    requires Unawaited(s, o)
    ensures Untouched(s, Reschedule(s, x, defer), o)
  {
    SwitchUntouched(SetRunning(s, x), x, o);
  }

  lemma AwaitUntouched(s: State, kind: Kind, inOperations: bool, mode: Mode, o: nat)
    requires Unawaited(s, o)
    ensures Untouched(s, Step(s, Await(kind, inOperations, mode)), o)
  {
    if Step(s, Await(kind, inOperations, mode)) != s {
      SuspendUntouched(Waiting(s, kind, inOperations, mode), o);
    }
  }

  lemma SettledUntouched(s: State, p: nat, success: bool, result: int, defer: bool, o: nat)
    requires Unawaited(s, o) && p < |s.ops| && p != o
    ensures Untouched(s, Settled(s, p, success, result, defer), o)
  {
    var t := Dropped(s, p, Outcome(s.ops[p], success, result));
    if !s.ops[p].cancelled {
      RescheduleUntouched(t.(wins := s.wins + [Return(p, success, result)]), s.ops[p].waiter, defer, o);
    }
  }

  lemma CancelledUntouched(s: State, p: nat, error: int, o: nat)
    requires Unawaited(s, o) && p < |s.ops| && p != o
    ensures Untouched(s, Cancelled(s, p, error), o)
  {
    var op := Outcome(s.ops[p].(registered := false), false, error).(cancelled := true);
    RescheduleUntouched(s.(ops := s.ops[p := op], wins := s.wins + [Return(p, false, error)]), s.ops[p].waiter, false, o);
  }

  lemma LoopUntouched(s: State, o: nat)
    requires Unawaited(s, o)
    ensures Untouched(s, Step(s, LoopEnd), o) && Untouched(s, Step(s, RunLoop), o)
  {
    if s.caller.Some? { EnterUntouched(s, s.caller.value, o); }
    SuspendUntouched(s.(caller := Some(Root), waits := s.waits[Root := OnLoop]), o);
  }

  lemma StepUntouched(s: State, e: Event, o: nat)
    requires Unawaited(s, o) && !e.Settle? && !e.DrainOp? && !e.Release? && !(e.Cancel? && e.target == o)
    ensures Untouched(s, Step(s, e), o)
  {
    match e
    case Spawn(id) =>
    case Await(kind, inOperations, mode) => AwaitUntouched(s, kind, inOperations, mode, o);
    case Cancel(p, error) =>
      if p < |s.ops| { CancelledUntouched(s, p, error, o); }
    case Finish => SuspendUntouched(s.(tasks := s.tasks[s.current := Finished]), o);
    case Dispatch =>
      if s.ready != [] { SwitchUntouched(Taken(s), s.ready[0], o); }
    case LoopEnd => LoopUntouched(s, o);
    case RunLoop => LoopUntouched(s, o);
    case Dispose =>
  }

  lemma CancelledUnawaited(s: State, o: nat)
    requires OpsOk(s, s.current) && s.current !in s.waits && o < |s.ops| && s.ops[o].cancelled
    requires WaitShape(s.waits, s.ops, s.fibers, s.caller)
    ensures Unawaited(s, o)
  {
    forall f | f in s.waits
      ensures s.waits[f] != OnOp(o)
    {
      assert s.waits[f] == OnOp(o) ==> WaitsFor(s.waits, s.ops[o].waiter, o);
    }
  }

  /** Settling p changes o only if they are the same. */
  lemma SettledShown(s: State, p: nat, success: bool, result: int, defer: bool, o: nat)
    requires Unawaited(s, o) && s.ops[o].cancelled && p < |s.ops|
    ensures var t := Settled(s, p, success, result, defer);
            o < |t.ops| && Decision(o, t.ops[o]) == if p == o then Return(o, success, result) else Decision(o, s.ops[o])
  {
    if p != o {
      SettledUntouched(s, p, success, result, defer, o);
    }
  }

  /** A step touches a cancelled operation only by settling, draining or releasing it. */
  lemma LateShown(s: State, e: Event, o: nat)
    requires Unawaited(s, o) && s.ops[o].cancelled && s.ops[o].linked
    ensures var t := Step(s, e); o < |t.ops| && Decision(o, t.ops[o]) == SettledBy(s, e, o).GetOr(Decision(o, s.ops[o]))
  {
    match e
    case Settle(p, success, result, defer) =>
      if p < |s.ops| { SettledShown(s, p, success, result, defer, o); }
    case DrainOp(error) =>
      if s.operations != [] && s.operations[0] < |s.ops| { SettledShown(s, s.operations[0], false, error, false, o); }
    case Release(p) =>
    case Cancel(p, error) =>
      if p != o { StepUntouched(s, e, o); }
    case _ => StepUntouched(s, e, o);
  }

  /** What a decided operation shows changes in a step exactly when it was cancelled and left linked, and
      this step settles or drains it with something else. */
  lemma ShownChangesIff(s: State, e: Event, o: nat)
    requires Good(s) && o < |s.ops| && s.ops[o].status != Pending
    ensures var t := Step(s, e);
            && o < |t.ops|
            && (Decision(o, t.ops[o]) != Decision(o, s.ops[o]) <==>
                s.ops[o].cancelled && s.ops[o].linked && SettledBy(s, e, o).Some? && SettledBy(s, e, o).value != Decision(o, s.ops[o]))
  {
    StepExtends(s, e);
    LogOutcomes(s, o);
    if s.ops[o].cancelled && s.ops[o].linked {
      CancelledUnawaited(s, o);
      LateShown(s, e, o);
    }
  }

  /** The root awaits and is cancelled; its operation stays queued. */
  lemma RootCancelled()
    ensures Step(Step(START, Await(AwaitOp, true, Kept)), Cancel(0, 7)) ==
            State(Root, [Runner], {Runner}, [], None, false, map[], map[], [Op(Root, AwaitOp, Failed, 7, true, false, true, true)], [0],
                  [Return(0, false, 7)], [Return(0, false, 7)])
  {
    var a := Step(START, Await(AwaitOp, true, Kept));
    assert a == State(Runner, [], {}, [], Some(Root), false, map[], map[Root := OnOp(0)],
                      [Op(Root, AwaitOp, Pending, 0, true, true, false, true)], [0], [], []);
    var b := Step(a, Cancel(0, 7));
    assert b.fibers == [Runner] && b.queued == {Runner} && b.waits == map[] && b.wins == b.resumed == [Return(0, false, 7)];
    assert b.ops == [Op(Root, AwaitOp, Failed, 7, true, false, true, true)] && b.operations == [0];
  }

  /** An operation that shows another outcome than the one that decided it: the disposal drains it. */
  lemma ShownIsReplaced()
    ensures var s := Step(Step(START, Await(AwaitOp, true, Kept)), Cancel(0, 7));
            var t := Step(Step(s, SchedulerSpec.Dispose), DrainOp(9));
            && s.ops[0].result == 7 && t.ops[0].result == 9 && s.current == t.current == Root
            && t.wins == t.resumed == [Return(0, false, 7)]
  {
    RootCancelled();
  }

  /** A cancellation that finds the operation decided (its waiter sits in the ready queue) resumes
      nobody and changes no outcome. */
  lemma LateCancellationLoses(s: State, o: nat, error: int)
    requires Good(s) && o < |s.ops| && s.ops[o].registered && s.ops[o].status != Pending
    ensures Step(s, Cancel(o, error)) == s.(ops := s.ops[o := s.ops[o].(registered := false)])
    ensures s.ops[o].waiter in s.ready && s.ops[o].waiter in s.waits
  {
    assert WaitsFor(s.waits, s.ops[o].waiter, o);
    assert SettledWait(s.waits, s.ops, s.ops[o].waiter);
  }

  // ---- The one way to lose a wake-up ----

  /** A deferred settlement queues the waiter exactly when it waits with async_await_op. One that
      waits with await_val is dropped by async_task_scheduler_enqueue. */
  lemma DeferKeepsWaiterIff(s: State, o: nat, success: bool, result: int)
    requires Good(s) && o < |s.ops| && s.ops[o].linked && !s.ops[o].cancelled
    ensures s.ops[o].waiter in Step(s, Settle(o, success, result, true)).ready <==> s.ops[o].kind == AwaitOp
    ensures s.ops[o].kind == AwaitVal ==> Lost(Step(s, Settle(o, success, result, true)), s.ops[o].waiter)
  {
    if s.ops[o].kind == AwaitVal {
      DeferLoses(s, o, success, result);
    } else {
      DeferGood(s, o, Outcome(s.ops[o], success, result).(linked := false));
    }
  }

  lemma DeferLoses(s: State, o: nat, success: bool, result: int)
    requires Good(s) && o < |s.ops| && s.ops[o].linked && s.ops[o].kind == AwaitVal
    ensures Step(s, Settle(o, success, result, true)).ready == s.ready && s.ops[o].waiter !in s.ready
    ensures Lost(Step(s, Settle(o, success, result, true)), s.ops[o].waiter)
  {
    var w := s.ops[o].waiter;
    assert WaitsFor(s.waits, w, o) && !SettledWait(s.waits, s.ops, w);
    assert TaskWaits(s.tasks, s.waits, s.ops, w);
    assert w in s.ready ==> InReady(w, s.fibers, s.tasks, s.waits, s.ops);
    assert Lost(Settled(s, o, success, result, true), w);
  }

  /** The task w is not running and nothing refers to it any more but operations whose settlement would
      resume nobody. */
  ghost predicate Lost(s: State, w: Fiber) {
    && w.Task? && w in s.tasks && s.tasks[w] in {Running, Finished}
    && w != s.current && w !in s.fibers && w !in s.ready && s.caller != Some(w)
    && forall o :: 0 <= o < |s.ops| && s.ops[o].waiter == w ==>
         && !s.ops[o].registered && s.ops[o].status != Pending
         && (s.ops[o].cancelled || (!s.ops[o].linked && o !in s.operations))
  }

  lemma EnterLost(s: State, w: Fiber, x: Fiber)
    requires Lost(s, w) && x != w
    ensures Lost(Enter(s, x), w)
  {
  }

  lemma SwitchLost(s: State, w: Fiber, x: Fiber)
    requires Lost(s, w) && x != w
    ensures Lost(SwitchTo(s, x), w)
  {
    EnterLost(s, w, x);
    assert Lost(Push(s), w);
    EnterLost(Push(s), w, x);
  }

  lemma SuspendLost(s: State, w: Fiber)
    requires Lost(s, w)
    ensures Lost(Suspend(s), w)
  {
    if s.fibers == [] {
      EnterLost(s, w, Runner);
    } else {
      assert Lost(Pop(s), w);
      EnterLost(Pop(s), w, s.fibers[0]);
    }
  }

  lemma RescheduleLost(s: State, w: Fiber, x: Fiber, defer: bool)
    requires Lost(s, w) && x != w
    ensures Lost(Reschedule(s, x, defer), w)
  {
    if defer {
      assert forall f :: f in Enqueue(s, x).ready ==> f == x || f in s.ready;
    } else {
      SwitchLost(SetRunning(s, x), w, x);
    }
  }

  lemma AwaitLost(s: State, w: Fiber, kind: Kind, inOperations: bool, mode: Mode)
    requires Lost(s, w)
    ensures Lost(Step(s, Await(kind, inOperations, mode)), w)
  {
    if Step(s, Await(kind, inOperations, mode)) != s {
      SuspendLost(Waiting(s, kind, inOperations, mode), w);
    }
  }

  lemma FinishLost(s: State, w: Fiber)
    requires Lost(s, w)
    ensures Lost(Step(s, Finish), w)
  {
    SuspendLost(s.(tasks := if s.current in s.tasks then s.tasks[s.current := Finished] else s.tasks), w);
  }

  lemma StepLost(s: State, w: Fiber, e: Event)
    requires Lost(s, w)
    ensures Lost(Step(s, e), w)
  {
    match e
    case Spawn(id) =>
    case Await(kind, inOperations, mode) =>
      AwaitLost(s, w, kind, inOperations, mode);
    case Settle(o, success, result, defer) =>
      if o < |s.ops| && s.ops[o].linked { SettledLost(s, w, o, success, result, defer); }
    case Cancel(o, error) =>
      if o < |s.ops| && s.ops[o].registered { CancelledLost(s, w, o, error); }
    case Release(o) =>
    case Finish => FinishLost(s, w);
    case Dispatch =>
      if s.ready != [] { SwitchLost(Taken(s), w, s.ready[0]); }
    case LoopEnd =>
      if s.caller.Some? { EnterLost(s, w, s.caller.value); }
    case RunLoop => SuspendLost(s.(caller := Some(Root), waits := s.waits[Root := OnLoop]), w);
    case Dispose =>
    case DrainOp(error) =>
      if s.operations != [] && s.operations[0] < |s.ops| {
        assert s.operations[0] in s.operations;
        SettledLost(s, w, s.operations[0], false, error, false);
      }
  }

  lemma SettledLost(s: State, w: Fiber, o: nat, success: bool, result: int, defer: bool)
    requires Lost(s, w) && o < |s.ops| && (s.ops[o].waiter != w || s.ops[o].cancelled)
    ensures Lost(Settled(s, o, success, result, defer), w)
  {
    var t := Dropped(s, o, Outcome(s.ops[o], success, result));
    assert Lost(t, w);
    if !s.ops[o].cancelled {
      RescheduleLost(t.(wins := s.wins + [Return(o, success, result)]), w, s.ops[o].waiter, defer);
    }
  }

  lemma CancelledLost(s: State, w: Fiber, o: nat, error: int)
    requires Lost(s, w) && o < |s.ops| && s.ops[o].waiter != w
    ensures Lost(Cancelled(s, o, error), w)
  {
    var op := Outcome(s.ops[o].(registered := false), false, error).(cancelled := true);
    var t := s.(ops := s.ops[o := op], wins := s.wins + [Return(o, false, error)]);
    assert Lost(t, w);
    RescheduleLost(t, w, op.waiter, false);
  }

  /** A task that was not queued never runs again, whatever happens. */
  lemma {:induction false} LostForever(s: State, w: Fiber, trace: seq<Event>)
    requires Lost(s, w)
    ensures AnyRun(s, trace).current != w
    decreases |trace|
  {
    if trace == [] {
    } else {
      StepLost(s, w, trace[0]);
      LostForever(Step(s, trace[0]), w, trace[1..]);
    }
  }

  /** A task whose function has returned never runs again. */
  lemma FinishedForever(s: State, trace: seq<Event>)
    requires Good(s) && s.current.Task?
    ensures AnyRun(Step(s, Finish), trace).current != s.current
  {
    var w := s.current;
    var t := s.(tasks := s.tasks[w := Finished]);
    FinishUnreferenced(s, w);
    if t.fibers == [] {
      LetGo(t, w, Runner);
    } else {
      LetGo(Pop(t), w, s.fibers[0]);
    }
    LostForever(Step(s, Finish), w, trace);
  }

  /** Nothing refers to the fiber that runs. */
  lemma FinishUnreferenced(s: State, w: Fiber)
    requires Good(s) && w == s.current && w.Task?
    ensures w !in s.fibers && w !in s.ready && s.caller != Some(w)
    ensures forall o :: 0 <= o < |s.ops| && s.ops[o].waiter == w ==>
              && !s.ops[o].registered && s.ops[o].status != Pending
              && (s.ops[o].cancelled || (!s.ops[o].linked && o !in s.operations))
  {
  }

  /** Another fiber takes over from w. */
  lemma LetGo(s: State, w: Fiber, x: Fiber)
    requires Lost(s.(current := x), w)
    ensures Lost(Enter(s, x), w)
  {
    assert Enter(s, x) == Enter(s.(current := x), x);
    EnterLost(s.(current := x), w, x);
  }
}
