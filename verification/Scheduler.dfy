/** The task scheduler's state, updated in place (src/task.c, src/fiber/asm.c:160-255). Each public
    method is one step of the machine in SchedulerSpec. */
module SchedulerObject {
  import opened Queues
  import opened SchedulerSpec
  import opened SchedulerProofs
  import opened SchedulerLaws

  class Scheduler {
    var current: Fiber
    var fibers: seq<Fiber>
    var queued: set<Fiber>
    var ready: seq<Fiber>
    var caller: Option<Fiber>
    var disposed: bool
    var tasks: map<Fiber, TaskStatus>
    var waits: map<Fiber, Wait>
    var ops: seq<Op>
    var operations: seq<nat>
    ghost var wins: seq<Return>
    ghost var resumed: seq<Return>

    ghost function View(): State
      reads this
    {
      State(current, fibers, queued, ready, caller, disposed, tasks, waits, ops, operations, wins, resumed)
    }

    ghost predicate Valid()
      reads this
    {
      Good(View())
    }

    constructor ()
      ensures Valid() && View() == START
    {
      current, fibers, queued, ready, caller, disposed := Root, [], {}, [], None, false;
      tasks, waits, ops, operations, wins, resumed := map[], map[], [], [], [], [];
      StartGood();
    }

    // ---- src/fiber/asm.c ----

    /** ASYNC_LIST_REMOVE on scheduler->operations. */
    static method Unlink(q: seq<nat>, o: nat) returns (r: seq<nat>)
      ensures r == Without(q, o)
    {
      r := [];
      var i := |q|;
      while i > 0
        invariant 0 <= i <= |q| && r == Without(q[i..], o)
      {
        i := i - 1;
        assert q[i..] == [q[i]] + q[i + 1..];
        if q[i] != o {
          r := [q[i]] + r;
        }
      }
      assert q[0..] == q;
    }

    /** The context of f is restored and f goes on behind its suspension (src/task.c:744-766,
        1382-1384). */
    method Resume(f: Fiber)
      modifies this
      ensures View() == Enter(old(View()), f)
    {
      current := f;
      if f in waits {
        var wait := waits[f];
        waits := waits - {f};
        if f == Root {
          caller := None;
        }
        if wait.OnOp? && wait.op < |ops| {
          Behind(wait.op);
        }
      }
    }

    /** The code behind an await: the outcome is returned and the cancel callback taken off, and so is the
        operation itself unless it was cancelled and its owner leaves it. */
    method Behind(o: nat)
      requires o < |ops|
      modifies this`ops, this`operations, this`resumed
      ensures var op := old(ops)[o];
              var on := op.cancelled && op.stays && op.linked;
              && ops == old(ops)[o := op.(linked := on, registered := false, status := if op.status == Pending then Abandoned else op.status)]
              && operations == (if on then old(operations) else Without(old(operations), o))
              && resumed == old(resumed) + [Return(o, op.status == Resolved, op.result)]
    {
      var op := ops[o];
      resumed := resumed + [Return(o, op.status == Resolved, op.result)];
      if op.status == Pending {
        op := op.(status := Abandoned);
      }
      if op.cancelled && op.stays && op.linked {
        ops := ops[o := op.(registered := false)];
      } else {
        ops := ops[o := op.(linked := false, registered := false)];
        operations := Unlink(operations, o);
      }
    }

    /** async_fiber_suspend. */
    method FiberSuspend()
      modifies this
      ensures View() == Suspend(old(View()))
    {
      var next := Runner;
      if fibers != [] {
        next := fibers[0];
        fibers := fibers[1..];
        queued := queued - {next};
      } else if current == next {
        return;
      }
      Resume(next);
    }

    /** async_fiber_switch with ASYNC_FIBER_SUSPEND_PREPEND. */
    method FiberSwitch(next: Fiber)
      modifies this
      ensures View() == SwitchTo(old(View()), next)
    {
      if current !in queued {
        fibers := [current] + fibers;
        queued := queued + {current};
      }
      Resume(next);
    }

    // ---- src/task.c ----

    /** async_task_scheduler_enqueue for the root and for tasks already started. */
    method TaskEnqueue(f: Fiber)
      modifies this`ready
      ensures View() == Enqueue(old(View()), f)
    {
      if f != Root {
        if f !in tasks || tasks[f] != Suspended {
          return;
        }
      }
      ready := ready + [f];
    }

    /** reschedule_task and reschedule_root. */
    method RescheduleWaiter(f: Fiber, defer: bool)
      modifies this
      ensures View() == Reschedule(old(View()), f, defer)
    {
      if defer {
        TaskEnqueue(f);
      } else {
        if f in tasks {
          tasks := tasks[f := Running];
        }
        FiberSwitch(f);
      }
    }

    /** ASYNC_LIST_REMOVE of operation o, with record op. */
    method Drop(o: nat, op: Op)
      requires o < |ops|
      modifies this`ops, this`operations
      ensures View() == Dropped(old(View()), o, op)
    {
      operations := Unlink(operations, o);
      ops := ops[o := op.(linked := false)];
    }

    /** ASYNC_RESOLVE_OP and ASYNC_FAIL_OP with continue_op_task or continue_op_root, which look at the
        CANCELLED flag (src/task.c:597-603, 639-645). */
    method Complete(o: nat, success: bool, result: int, defer: bool)
      requires o < |ops|
      modifies this
      ensures View() == Settled(old(View()), o, success, result, defer)
    {
      var op := ops[o];
      Drop(o, Outcome(op, success, result));
      if !op.cancelled {
        wins := wins + [Return(o, success, result)];
        RescheduleWaiter(op.waiter, defer);
      }
    }

    /** cancel_op and cancel_op_root, reached through the context's cancellation. */
    method CancelOp(o: nat, error: int)
      requires Valid() && o < |ops| && ops[o].registered
      modifies this
      ensures Valid() && View() == Step(old(View()), Cancel(o, error))
    {
      CancelGood(View(), o, error);
      var op := ops[o].(registered := false);
      if op.status != Pending {
        ops := ops[o := op];
      } else {
        ops := ops[o := Outcome(op, false, error).(cancelled := true)];
        wins := wins + [Return(o, false, error)];
        RescheduleWaiter(op.waiter, false);
      }
    }

    /** The owner of a cancelled operation takes it off its list (ASYNC_RESET_OP, php_async.h:751-762). */
    method ReleaseOp(o: nat)
      requires Valid() && o < |ops| && ops[o].cancelled && ops[o].linked
      modifies this`ops, this`operations
      ensures Valid() && View() == Step(old(View()), Release(o))
    {
      ReleaseGood(View(), o);
      Drop(o, ops[o]);
    }

    /** An operation is settled by whoever holds it. A deferred one must be awaited with
        async_await_op: see SchedulerRuns.DeferKeepsWaiterIff and LostForever. */
    method FinishOp(o: nat, success: bool, result: int, defer: bool)
      requires Valid() && o < |ops| && ops[o].linked
      requires defer ==> ops[o].kind == AwaitOp
      modifies this
      ensures Valid() && View() == Step(old(View()), Settle(o, success, result, defer))
    {
      SettleGood(View(), o, success, result, defer);
      Complete(o, success, result, defer);
    }

    /** async_await_op and await_val up to the point where another fiber runs; ok is false when one
        of the checks in front fails. */
    method AwaitOperation(kind: Kind, inOperations: bool, mode: Mode) returns (ok: bool)
      requires Valid()
      modifies this
      ensures Valid() && View() == Step(old(View()), Await(kind, inOperations, mode))
      ensures ok <==> !old(disposed) && if old(current).Task? then old(current) in old(tasks) && old(tasks)[old(current)] == Running
                                        else old(caller).None? && kind == AwaitOp
      ensures if ok then |ops| == |old(ops)| + 1 else View() == old(View())
    {
      AwaitGood(View(), kind, inOperations, mode);
      ok := false;
      var f := current;
      if f.Task? {
        if f !in tasks || tasks[f] != Running {
          return;
        }
        if disposed {
          return;
        }
      } else {
        if disposed || caller.Some? || kind == AwaitVal {
          return;
        }
      }
      ok := true;
      SuspendKeepsOps(Waiting(View(), kind, inOperations, mode));
      Block(kind, inOperations, mode);
    }

    /** The operation is set up and the running fiber suspended. */
    method Block(kind: Kind, inOperations: bool, mode: Mode)
      modifies this
      ensures View() == Suspend(Waiting(old(View()), kind, inOperations, mode))
    {
      var f, o := current, |ops|;
      ops := ops + [Op(f, kind, Pending, 0, true, kind == AwaitOp && mode != Atomic, false, mode == Kept)];
      if kind == AwaitOp && inOperations {
        operations := operations + [o];
      }
      waits := waits[f := OnOp(o)];
      if !f.Task? {
        caller := Some(f);
      } else if kind == AwaitOp {
        tasks := tasks[f := Suspended];
      }
      FiberSuspend();
    }

    /** A new task is put in the ready queue. */
    method SpawnTask(id: nat)
      requires Valid() && Task(id) !in tasks
      modifies this
      ensures Valid() && View() == Step(old(View()), Spawn(id))
    {
      SpawnGood(View(), id);
      tasks := tasks[Task(id) := Init];
      ready := ready + [Task(id)];
    }

    /** run_task_fiber after the task's function has returned. */
    method FinishTask()
      requires Valid() && current.Task?
      modifies this
      ensures Valid() && View() == Step(old(View()), Finish)
    {
      ghost var next := Step(View(), Finish);
      FinishGood(View());
      tasks := tasks[current := Finished];
      FiberSuspend();
      assert View() == next;
    }

    /** The head of the ready queue is taken off and marked RUNNING. */
    method TakeReady() returns (task: Fiber)
      requires ready != []
      modifies this`ready, this`tasks
      ensures View() == Taken(old(View())) && task == old(ready)[0]
    {
      task := ready[0];
      ready := ready[1..];
      if task in tasks {
        tasks := tasks[task := Running];
      }
    }

    /** One turn of dispatch_tasks. */
    method DispatchNext()
      requires Valid() && current == Runner && ready != []
      modifies this
      ensures Valid() && View() == Step(old(View()), Dispatch)
      ensures current == old(ready[0]) && fibers == [Runner]
    {
      ghost var next := Step(View(), Dispatch);
      DispatchGood(View());
      var task := TakeReady();
      FiberSwitch(task);
      assert View() == next;
    }

    /** uv_run returns in run_scheduler_fiber: the fiber that called run_loop goes on. */
    method LoopReturns()
      requires Valid() && current == Runner && ready == []
      modifies this
      ensures Valid() && View() == Step(old(View()), LoopEnd) && current == Root
    {
      ghost var next := Step(View(), LoopEnd);
      LoopEndGood(View());
      RunnerHasCaller(View());
      Resume(caller.value);
      assert View() == next;
    }

    /** async_task_scheduler_run_loop, called by the disposal. */
    method RunUntilIdle()
      requires Valid() && current == Root && caller == None
      modifies this
      ensures Valid() && View() == Step(old(View()), RunLoop)
    {
      RunLoopGood(View());
      EnterLoop();
    }

    method EnterLoop()
      requires current == Root
      modifies this
      ensures View() == Suspend(old(View().(caller := Some(Root), waits := waits[Root := OnLoop])))
    {
      caller := Some(Root);
      waits := waits[Root := OnLoop];
      FiberSuspend();
    }

    method SetDisposed()
      requires Valid() && current == Root
      modifies this`disposed
      ensures Valid() && View() == Step(old(View()), SchedulerSpec.Dispose)
    {
      disposed := true;
    }

    method FailHead(error: int)
      requires operations != [] && operations[0] < |ops|
      modifies this
      ensures View() == Settled(old(View()), old(operations[0]), false, error, false)
    {
      Complete(operations[0], false, error, false);
    }

    /** ASYNC_NEXT_OP and ASYNC_FAIL_OP in async_task_scheduler_dispose. */
    method DrainNext(error: int)
      requires Valid() && disposed && current == Root && operations != []
      modifies this
      ensures Valid() && View() == Step(old(View()), DrainOp(error))
    {
      DrainGood(View(), error);
      FailHead(error);
    }
  }
}
