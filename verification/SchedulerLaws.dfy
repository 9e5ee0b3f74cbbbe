/** What each event of the scheduler leaves behind, field by field, and when it does nothing
    (src/task.c, src/fiber/asm.c:160-255). A reader can hold these against the C code without
    the functions that SchedulerSpec builds the steps from. */
module SchedulerLaws {
  import opened Queues
  import opened SchedulerSpec
  import opened SchedulerProofs
  import opened SchedulerRuns

  // ---- Awaiting ----

  /** The checks in front of an await. */
  predicate MaySuspend(s: State, kind: Kind) {
    && !s.disposed
    && if s.current.Task? then s.current in s.tasks && s.tasks[s.current] == Running
       else s.caller.None? && kind == AwaitOp
  }

  lemma SuspendKeepsOps(s: State)
    ensures |Suspend(s).ops| == |s.ops|
  {
  }

  /** An await is refused, leaving everything as it was, if and only if one of the checks fails. */
  lemma AwaitRefusedIff(s: State, kind: Kind, inOperations: bool, mode: Mode)
    ensures Step(s, Await(kind, inOperations, mode)) == s <==> !MaySuspend(s, kind)
  {
    if MaySuspend(s, kind) {
      SuspendKeepsOps(Waiting(s, kind, inOperations, mode));
    }
  }

  /** An accepted await makes one more operation: pending, linked, waited for by the caller, with a cancel
      callback exactly if async_await_op was told to wait for the context's cancellation too, and last in
      the scheduler's queue exactly if it is in no list of its own. Control goes to the fiber that
      switched to the caller, or to the runner. */
  lemma AwaitLeaves(s: State, kind: Kind, inOperations: bool, mode: Mode)
    requires Good(s) && MaySuspend(s, kind)
    ensures var n, o := Step(s, Await(kind, inOperations, mode)), |s.ops|;
            && |n.ops| == o + 1 && n.ops[..o] == s.ops
            && n.ops[o].waiter == s.current && n.ops[o].kind == kind && n.ops[o].status == Pending
            && n.ops[o].linked && !n.ops[o].cancelled
            && (n.ops[o].registered <==> kind == AwaitOp && mode != Atomic) && (n.ops[o].stays <==> mode == Kept)
            && n.operations == (if kind == AwaitOp && inOperations then s.operations + [o] else s.operations)
            && n.waits == s.waits[s.current := OnOp(o)]
            && n.tasks == (if s.current.Task? && kind == AwaitOp then s.tasks[s.current := Suspended] else s.tasks)
            && n.caller == (if s.current.Task? then s.caller else Some(s.current))
            && n.current == (if s.fibers == [] then Runner else s.fibers[0])
            && n.fibers == (if s.fibers == [] then [] else s.fibers[1..])
            && n.ready == s.ready && n.disposed == s.disposed && n.wins == s.wins && n.resumed == s.resumed
  {
    RunnerAwaits(s, kind);
    var t := Waiting(s, kind, inOperations, mode);
    assert Step(s, Await(kind, inOperations, mode)) == Suspend(t);
    assert t.ops[..|s.ops|] == s.ops;
    SuspendLeaves(t);
  }

  lemma RunnerAwaits(s: State, kind: Kind)
    requires Good(s) && MaySuspend(s, kind)
    ensures s.current != Runner
  {
    if s.current == Runner {
      RunnerHasCaller(s);
    }
  }

  /** Suspending only hands over control: the fiber that runs next was in no wait. */
  lemma SuspendLeaves(s: State)
    requires s.current != Runner && Next(s) !in s.waits
    ensures var n := Suspend(s);
            && n == s.(current := if s.fibers == [] then Runner else s.fibers[0],
                       fibers := if s.fibers == [] then [] else s.fibers[1..],
                       queued := if s.fibers == [] then s.queued else s.queued - {s.fibers[0]})
  {
  }

  /** The state an accepted await leaves is good, and the new operation is its last one. */
  lemma AwaitedIsWaiting(s: State, kind: Kind, inOperations: bool, mode: Mode)
    requires Good(s) && MaySuspend(s, kind)
    ensures var n, o := Step(s, Await(kind, inOperations, mode)), |s.ops|;
            && Good(n) && o < |n.ops| && n.ops[o].status == Pending && n.ops[o].linked && WaitsFor(n.waits, s.current, o)
  {
    AwaitGood(s, kind, inOperations, mode);
    AwaitLeaves(s, kind, inOperations, mode);
  }

  // ---- Deciding an operation ----

  /** Switching to a fiber that sits in an operation that is decided. */
  lemma SwitchLeaves(s: State, f: Fiber, o: nat)
    requires s.current !in s.queued && f in s.waits && s.waits[f] == OnOp(o) && o < |s.ops|
    requires s.ops[o].status != Pending && (f == Root || f.Task?)
    ensures var op := s.ops[o]; var on := op.cancelled && op.stays && op.linked;
            SwitchTo(s, f) ==
            s.(current := f, fibers := [s.current] + s.fibers, queued := s.queued + {s.current},
               waits := s.waits - {f}, caller := if f.Task? then s.caller else None,
               ops := s.ops[o := op.(linked := on, registered := false)],
               operations := if on then s.operations else Without(s.operations, o),
               resumed := s.resumed + [Return(o, op.status == Resolved, op.result)])
  {
  }

  /** A settlement that is not deferred resumes the waiter at once: it runs on top of the fiber that settled,
      with the outcome in hand, and the operation is in no list any more. */
  lemma SettleLeaves(s: State, o: nat, success: bool, result: int)
    requires Good(s) && o < |s.ops| && s.ops[o].linked && !s.ops[o].cancelled
    ensures var n, op := Step(s, Settle(o, success, result, false)), s.ops[o];
            n == s.(current := op.waiter, fibers := [s.current] + s.fibers, queued := s.queued + {s.current},
                    waits := s.waits - {op.waiter},
                    tasks := if op.waiter.Task? then s.tasks[op.waiter := Running] else s.tasks,
                    caller := if op.waiter.Task? then s.caller else None,
                    ops := s.ops[o := op.(status := if success then Resolved else Failed, result := result, linked := false, registered := false)],
                    operations := Without(s.operations, o),
                    wins := s.wins + [Return(o, success, result)], resumed := s.resumed + [Return(o, success, result)])
  {
    PendingWaiter(s, o);
    SettleResumes(s, o, success, result);
  }

  lemma SettleResumes(s: State, o: nat, success: bool, result: int)
    requires o < |s.ops| && s.ops[o].linked && !s.ops[o].cancelled && s.current !in s.queued && WaitsFor(s.waits, s.ops[o].waiter, o)
    requires (s.ops[o].waiter in s.tasks <==> s.ops[o].waiter.Task?) && s.ops[o].waiter != Runner
    ensures var n, op := Step(s, Settle(o, success, result, false)), s.ops[o];
            n == s.(current := op.waiter, fibers := [s.current] + s.fibers, queued := s.queued + {s.current},
                    waits := s.waits - {op.waiter},
                    tasks := if op.waiter.Task? then s.tasks[op.waiter := Running] else s.tasks,
                    caller := if op.waiter.Task? then s.caller else None,
                    ops := s.ops[o := op.(status := if success then Resolved else Failed, result := result, linked := false, registered := false)],
                    operations := Without(s.operations, o),
                    wins := s.wins + [Return(o, success, result)], resumed := s.resumed + [Return(o, success, result)])
  {
    var op := s.ops[o];
    var decided := op.(status := if success then Resolved else Failed, result := result, linked := false);
    var t := s.(ops := s.ops[o := decided], operations := Without(s.operations, o), wins := s.wins + [Return(o, success, result)],
                tasks := if op.waiter.Task? then s.tasks[op.waiter := Running] else s.tasks);
    SettleSwitches(s, o, success, result, t);
    SwitchLeaves(t, op.waiter, o);
    assert t.ops[o := decided.(registered := false)] == s.ops[o := decided.(registered := false)];
  }

  lemma SettleSwitches(s: State, o: nat, success: bool, result: int, t: State)
    requires o < |s.ops| && s.ops[o].linked && !s.ops[o].cancelled && (s.ops[o].waiter in s.tasks <==> s.ops[o].waiter.Task?)
    requires var op := s.ops[o];
             t == s.(ops := s.ops[o := op.(status := if success then Resolved else Failed, result := result, linked := false)],
                     operations := Without(s.operations, o), wins := s.wins + [Return(o, success, result)],
                     tasks := if op.waiter.Task? then s.tasks[op.waiter := Running] else s.tasks)
    ensures Step(s, Settle(o, success, result, false)) == SwitchTo(t, s.ops[o].waiter)
  {
    var m := Dropped(s, o, Outcome(s.ops[o], success, result)).(wins := t.wins);
    assert SetRunning(m, s.ops[o].waiter) == t;
  }

  /** A deferred one puts the waiter last in the ready queue, still suspended, and control stays where
      it is. */
  lemma DeferLeaves(s: State, o: nat, success: bool, result: int)
    requires Good(s) && o < |s.ops| && s.ops[o].linked && !s.ops[o].cancelled && s.ops[o].kind == AwaitOp
    ensures var n, op := Step(s, Settle(o, success, result, true)), s.ops[o];
            n == s.(ready := s.ready + [op.waiter],
                    ops := s.ops[o := op.(status := if success then Resolved else Failed, result := result, linked := false)],
                    operations := Without(s.operations, o), wins := s.wins + [Return(o, success, result)])
  {
    PendingWaiter(s, o);
  }

  /** A cancellation that finds the operation pending fails it with the error and resumes the waiter at
      once; the operation stays linked if it was awaited with Kept. */
  lemma CancelLeaves(s: State, o: nat, error: int)
    requires Good(s) && o < |s.ops| && s.ops[o].registered && s.ops[o].status == Pending
    ensures var n, op := Step(s, Cancel(o, error)), s.ops[o];
            n == s.(current := op.waiter, fibers := [s.current] + s.fibers, queued := s.queued + {s.current},
                    waits := s.waits - {op.waiter},
                    tasks := if op.waiter.Task? then s.tasks[op.waiter := Running] else s.tasks,
                    caller := if op.waiter.Task? then s.caller else None,
                    ops := s.ops[o := op.(status := Failed, result := error, linked := op.stays, registered := false, cancelled := true)],
                    operations := if op.stays then s.operations else Without(s.operations, o),
                    wins := s.wins + [Return(o, false, error)], resumed := s.resumed + [Return(o, false, error)])
  {
    PendingWaiter(s, o);
    var op := s.ops[o];
    var decided := op.(status := Failed, result := error, registered := false, cancelled := true);
    var t := s.(ops := s.ops[o := decided], wins := s.wins + [Return(o, false, error)],
                tasks := if op.waiter.Task? then s.tasks[op.waiter := Running] else s.tasks);
    CancelSwitches(s, o, error, t);
    SwitchLeaves(t, op.waiter, o);
    assert t.ops[o := decided.(linked := op.stays)] == s.ops[o := decided.(linked := op.stays)];
  }

  lemma CancelSwitches(s: State, o: nat, error: int, t: State)
    requires o < |s.ops| && s.ops[o].registered && s.ops[o].status == Pending && (s.ops[o].waiter in s.tasks <==> s.ops[o].waiter.Task?)
    requires var op := s.ops[o];
             t == s.(ops := s.ops[o := op.(status := Failed, result := error, registered := false, cancelled := true)],
                     wins := s.wins + [Return(o, false, error)],
                     tasks := if op.waiter.Task? then s.tasks[op.waiter := Running] else s.tasks)
    ensures Step(s, Cancel(o, error)) == SwitchTo(t, s.ops[o].waiter)
  {
    var m := s.(ops := t.ops, wins := t.wins);
    assert SetRunning(m, s.ops[o].waiter) == t;
  }

  /** Whoever waits for a pending operation is suspended, off the stack and not in the ready queue. */
  lemma PendingWaiter(s: State, o: nat)
    requires Good(s) && o < |s.ops| && s.ops[o].linked && !s.ops[o].cancelled
    ensures var f := s.ops[o].waiter;
            && s.ops[o].status == Pending && WaitsFor(s.waits, f, o) && f != Runner && f != s.current && s.current !in s.queued
            && (f.Task? ==> f in s.tasks && s.tasks[f] == if s.ops[o].kind == AwaitOp then Suspended else Running)
            && (f == Root ==> s.caller == Some(Root)) && (!f.Task? ==> f == Root && f !in s.tasks)
  {
    var f := s.ops[o].waiter;
    assert WaitsFor(s.waits, f, o);
    assert f.Task? ==> TaskWaits(s.tasks, s.waits, s.ops, f);
  }

  /** A cancellation that comes after the decision only loses its callback; without a callback it does
      nothing. */
  lemma LateCancelLeaves(s: State, o: nat, error: int)
    requires o < |s.ops| && (s.ops[o].registered ==> s.ops[o].status != Pending)
    ensures Step(s, Cancel(o, error)) == s.(ops := s.ops[o := s.ops[o].(registered := false)])
  {
    if !s.ops[o].registered {
      assert s.ops[o := s.ops[o].(registered := false)] == s.ops;
    }
  }

  /** A cancelled operation that is released leaves its list and shows what it showed. */
  lemma ReleaseLeaves(s: State, o: nat)
    requires o < |s.ops| && s.ops[o].cancelled && s.ops[o].linked
    ensures Step(s, Release(o)) == s.(ops := s.ops[o := s.ops[o].(linked := false)], operations := Without(s.operations, o))
    ensures forall p :: p in Step(s, Release(o)).operations <==> p in s.operations && p != o
  {
  }

  /** One turn of the disposal's drain settles the oldest operation that is in the scheduler's list with
      the failure. */
  lemma DrainLeaves(s: State, failure: int)
    requires Good(s) && s.disposed && s.current == Root && s.operations != []
    ensures Step(s, DrainOp(failure)) == Step(s, Settle(s.operations[0], false, failure, false))
  {
    assert s.operations[0] in s.operations;
  }

  /** An await that also waits for the context's cancellation, and is cancelled right afterwards: the fiber
      is back, with the error, on top of whoever ran meanwhile. */
  lemma AwaitThenCancel(s: State, inOperations: bool, mode: Mode, error: int)
    requires Good(s) && MaySuspend(s, AwaitOp) && mode != Atomic
    ensures var n, o := Step(s, Await(AwaitOp, inOperations, mode)), |s.ops|;
            var m := Step(n, Cancel(o, error));
            && m.current == s.current && m.fibers == [n.current] + n.fibers
            && m.resumed == s.resumed + [Return(o, false, error)] && m.wins == s.wins + [Return(o, false, error)]
            && |m.ops| == o + 1 && (m.ops[o].linked <==> mode == Kept) && (o in m.operations <==> inOperations && mode == Kept)
  {
    var n, o := Step(s, Await(AwaitOp, inOperations, mode)), |s.ops|;
    AwaitGood(s, AwaitOp, inOperations, mode);
    AwaitLeaves(s, AwaitOp, inOperations, mode);
    CancelLeaves(n, o, error);
    NewInNoList(s);
  }

  /** An atomic one does not notice. */
  lemma AtomicIgnoresCancel(s: State, kind: Kind, inOperations: bool, mode: Mode, error: int)
    requires Good(s) && MaySuspend(s, kind) && (kind == AwaitVal || mode == Atomic)
    ensures var n := Step(s, Await(kind, inOperations, mode)); Step(n, Cancel(|s.ops|, error)) == n
  {
    AwaitLeaves(s, kind, inOperations, mode);
  }

  lemma NewInNoList(s: State)
    requires Good(s)
    ensures |s.ops| !in s.operations
  {
  }

  // ---- Tasks and the event loop ----

  /** A new task is INIT and last in the ready queue; an identifier in use changes nothing. */
  lemma SpawnLeaves(s: State, id: nat)
    ensures Step(s, Spawn(id)) ==
            if Task(id) in s.tasks then s else s.(tasks := s.tasks[Task(id) := Init], ready := s.ready + [Task(id)])
    ensures Task(id) !in s.tasks ==> Dispatches(Step(s, Spawn(id)), |s.ready|, Task(id))
  {
  }

  /** Fiber f is dispatched after i others. */
  predicate Dispatches(s: State, i: nat, f: Fiber) {
    i < |s.ready| && s.ready[i] == f && i == |s.ready| - 1
  }

  /** A task that returns is FINISHED for good and control goes to the fiber that switched to it, or to
      the runner. */
  lemma FinishLeaves(s: State)
    requires Good(s) && s.current.Task?
    ensures Step(s, Finish) ==
            s.(current := if s.fibers == [] then Runner else s.fibers[0],
               fibers := if s.fibers == [] then [] else s.fibers[1..],
               queued := if s.fibers == [] then {} else s.queued - {s.fibers[0]},
               tasks := s.tasks[s.current := Finished])
  {
    assert s.current in s.tasks && s.tasks[s.current] == Running;
    assert s.fibers == [] ==> s.queued == {};
    SuspendLeaves(s.(tasks := s.tasks[s.current := Finished]));
  }

  /** The runner dispatches the head of the ready queue. A task that has not run yet starts. */
  lemma DispatchStarts(s: State)
    requires Good(s) && s.current == Runner && s.ready != [] && s.ready[0] !in s.waits
    ensures s.ready[0] in s.tasks && s.tasks[s.ready[0]] == Init
    ensures Step(s, Dispatch) ==
            s.(current := s.ready[0], ready := s.ready[1..], fibers := [Runner], queued := {Runner}, tasks := s.tasks[s.ready[0] := Running])
  {
    DispatchGood(s);
    RunnerAlone(s);
    assert InReady(s.ready[0], s.fibers, s.tasks, s.waits, s.ops);
  }

  /** A fiber that was suspended goes on behind its await, with the outcome in hand. */
  lemma DispatchResumes(s: State)
    requires Good(s) && s.current == Runner && s.ready != [] && s.ready[0] in s.waits
    ensures s.waits[s.ready[0]].OnOp? && s.waits[s.ready[0]].op < |s.ops|
    ensures var f, o := s.ready[0], s.waits[s.ready[0]].op;
            && s.ops[o].status != Pending && !s.ops[o].linked
            && Step(s, Dispatch) ==
               s.(current := f, ready := s.ready[1..], fibers := [Runner], queued := {Runner},
                  waits := s.waits - {f}, caller := if f.Task? then s.caller else None,
                  tasks := if f.Task? then s.tasks[f := Running] else s.tasks,
                  ops := s.ops[o := s.ops[o].(registered := false)],
                  resumed := s.resumed + [Return(o, s.ops[o].status == Resolved, s.ops[o].result)])
  {
    ReadyWaits(s, s.ready[0]);
    var f, o := s.ready[0], s.waits[s.ready[0]].op;
    var t := s.(ready := s.ready[1..], tasks := if f.Task? then s.tasks[f := Running] else s.tasks);
    RunnerAlone(s);
    assert Step(s, Dispatch) == SwitchTo(t, f);
    SwitchLeaves(t, f, o);
    assert [Runner] + s.fibers == [Runner] && s.queued + {Runner} == {Runner};
  }

  /** A fiber in the ready queue that is suspended waits for an operation that is decided. */
  lemma ReadyWaits(s: State, f: Fiber)
    requires Good(s) && s.current == Runner && f in s.ready && f in s.waits
    ensures f == Root || f in s.tasks
    ensures (forall t :: t in s.tasks ==> t.Task?) && s.caller == Some(Root)
    ensures s.waits[f].OnOp? && s.waits[f].op < |s.ops| && s.waits[f].op !in s.operations
    ensures var op := s.ops[s.waits[f].op]; op.status != Pending && !op.linked && !op.cancelled
  {
    assert InReady(f, s.fibers, s.tasks, s.waits, s.ops);
    assert f in s.tasks ==> TaskPlace(f, s.tasks[f], s.fibers, s.ready, s.waits, {s.current});
    var o := s.waits[f].op;
    assert WaitsFor(s.waits, f, o) && s.ops[o].waiter == f;
    RunnerHasCaller(s);
  }

  lemma RunnerAlone(s: State)
    requires Good(s) && s.current == Runner
    ensures s.fibers == [] && s.queued == {}
  {
  }

  /** With nothing left to run the fiber that entered the event loop goes on. If it awaits an operation
      that nobody settled, the operation is abandoned. */
  lemma LoopEndLeaves(s: State)
    requires Good(s) && s.current == Runner && s.ready == []
    ensures Root in s.waits
    ensures s.waits[Root].OnLoop? ==> Step(s, LoopEnd) == s.(current := Root, waits := s.waits - {Root}, caller := None)
    ensures s.waits[Root].OnOp? ==>
              var o := s.waits[Root].op;
              && o < |s.ops| && s.ops[o].status == Pending
              && Step(s, LoopEnd) ==
                 s.(current := Root, waits := s.waits - {Root}, caller := None,
                    ops := s.ops[o := s.ops[o].(status := Abandoned, linked := false, registered := false)],
                    operations := Without(s.operations, o), resumed := s.resumed + [Return(o, false, s.ops[o].result)])
  {
    RunnerHasCaller(s);
    if s.waits[Root].OnOp? {
      assert !SettledWait(s.waits, s.ops, Root);
    }
  }

  /** The disposal hands over to the event loop, to come back when it has run out of work. */
  lemma RunLoopLeaves(s: State)
    requires Good(s) && s.current == Root && s.caller.None?
    ensures Step(s, RunLoop) ==
            s.(current := if s.fibers == [] then Runner else s.fibers[0],
               fibers := if s.fibers == [] then [] else s.fibers[1..],
               queued := if s.fibers == [] then {} else s.queued - {s.fibers[0]},
               waits := s.waits[Root := OnLoop], caller := Some(Root))
  {
    assert s.fibers == [] ==> s.queued == {};
    SuspendLeaves(s.(caller := Some(Root), waits := s.waits[Root := OnLoop]));
  }

  /** Once the disposal has set its flag, no await is accepted any more. */
  lemma DisposeLeaves(s: State, kind: Kind, inOperations: bool, mode: Mode)
    requires s.current == Root
    ensures var n := Step(s, Dispose); n == s.(disposed := true) && Step(n, Await(kind, inOperations, mode)) == n
  {
    AwaitRefusedIff(Step(s, Dispose), kind, inOperations, mode);
  }

  /** The events that find nothing to do change nothing. */
  lemma IdleLeaves(s: State, e: Event)
    requires match e
             case Spawn(id) => Task(id) in s.tasks
             case Await(kind, _, _) => !MaySuspend(s, kind)
             case Settle(o, _, _, _) => o >= |s.ops| || !s.ops[o].linked
             case Cancel(o, _) => o >= |s.ops| || !s.ops[o].registered
             case Release(o) => o >= |s.ops| || !s.ops[o].cancelled || !s.ops[o].linked
             case Finish => !s.current.Task?
             case Dispatch => s.current != Runner || s.ready == []
             case LoopEnd => s.current != Runner || s.ready != []
             case RunLoop => s.current != Root || s.caller.Some?
             case Dispose => s.current != Root
             case DrainOp(_) => !s.disposed || s.current != Root || s.operations == []
    ensures Step(s, e) == s
  {
    if e.Await? {
      AwaitRefusedIff(s, e.kind, e.inOperations, e.mode);
    }
  }
}
