/** Fibers, the ready queue and awaited operations of one task scheduler as a machine of atomic
    steps (src/task.c, src/fiber/asm.c:160-255).
    Exactly one fiber runs at a time. A step is what the running fiber does up to the point where
    it may switch to another one; when a suspended fiber is switched to, the rest of the call it was
    suspended in belongs to the same step, since nothing else can run before it. */
module SchedulerSpec {
  import opened Queues

  /** The fiber the program started in, the fiber that runs the event loop, and one per task. */
  datatype Fiber = Root | Runner | Task(id: nat)

  datatype TaskStatus = Init | Running | Suspended | Finished

  /** async_op.status while and after it is awaited; Abandoned is an operation whose waiter was
      resumed because the event loop ran out of work. */
  datatype OpStatus = Pending | Resolved | Failed | Abandoned

  /** How the waiter was suspended: async_await_op, or await_val, which leaves the task's status
      alone (src/task.c:815-834). */
  datatype Kind = AwaitOp | AwaitVal

  /** What a cancellation of the context does to an awaited operation: nothing (ASYNC_OP_FLAG_ATOMIC, or
      no cancellation); or it fails the operation, and the code behind the await takes it off its
      list (Withdrawn) or leaves it there (Kept), as ChannelGroup::select does (src/channel.c:926-964)
      and requests that libuv cannot cancel any more (src/filesystem.c:52-57, src/dns.c:236-240). */
  datatype Mode = Atomic | Withdrawn | Kept

  /** linked: some list or pending callback can still settle the operation.
      registered: its cancel callback is still in the list of the context's cancellation.
      cancelled: ASYNC_OP_FLAG_CANCELLED. stays: a cancellation leaves it linked. */
  datatype Op = Op(waiter: Fiber, kind: Kind, status: OpStatus, result: int, linked: bool, registered: bool, cancelled: bool, stays: bool)

  /** What a suspended fiber sits in: an awaited operation, or the bare event loop run of the
      scheduler's disposal. */
  datatype Wait = OnOp(op: nat) | OnLoop

  /** The outcome of an operation: what decided it, or what async_await_op hands back to the resumed
      waiter. */
  datatype Return = Return(op: nat, success: bool, result: int)

  datatype State = State(
    current: Fiber,
    fibers: seq<Fiber>,           // stack of fibers that switched away and are to be resumed
    queued: set<Fiber>,           // ASYNC_FIBER_FLAG_QUEUED
    ready: seq<Fiber>,            // tasks (or the root) for dispatch_tasks
    caller: Option<Fiber>,        // set while the RUNNING flag is
    disposed: bool,
    tasks: map<Fiber, TaskStatus>,
    waits: map<Fiber, Wait>,
    ops: seq<Op>,                 // every operation ever awaited; its index is its address
    operations: seq<nat>,         // scheduler->operations
    wins: seq<Return>,            // every decision, settlement or cancellation, in order
    resumed: seq<Return>)

  datatype Event =
    | Spawn(id: nat)
    | Await(kind: Kind, inOperations: bool, mode: Mode)
    | Settle(op: nat, success: bool, result: int, defer: bool)
    | Cancel(target: nat, error: int)
    | Release(released: nat)      // the owner takes a cancelled operation off its list after all
    | Finish                      // the task's function has returned (run_task_fiber)
    | Dispatch                    // one turn of dispatch_tasks
    | LoopEnd                     // uv_run has nothing left to do (run_scheduler_fiber)
    | RunLoop                     // async_task_scheduler_dispose runs the loop
    | Dispose                     // ... and sets the DISPOSED flag
    | DrainOp(failure: int)       // one turn of the drain of scheduler->operations

  const START := State(Root, [], {}, [], None, false, map[], map[], [], [], [], [])

  // ---- src/fiber/asm.c ----

  /** f runs again. If it was suspended in a wait, the code behind the suspension runs now: the
      operation's outcome is returned, and the operation leaves every list unless a cancellation
      leaves it where it is. */
  function Enter(s: State, f: Fiber): State {
    if f !in s.waits then s.(current := f)
    else
      var t := s.(current := f, waits := s.waits - {f}, caller := if f == Root then None else s.caller);
      if s.waits[f].OnLoop? || s.waits[f].op >= |s.ops| then t
      else
        var o := s.waits[f].op;
        var op := s.ops[o];
        var r, on := Return(o, op.status == Resolved, op.result), op.cancelled && op.stays && op.linked;
        t.(ops := s.ops[o := op.(linked := on, registered := false, status := if op.status == Pending then Abandoned else op.status)],
           operations := if on then s.operations else Without(s.operations, o), resumed := s.resumed + [r])
  }

  function Push(s: State): State {
    s.(fibers := [s.current] + s.fibers, queued := s.queued + {s.current})
  }

  function Pop(s: State): State
    requires s.fibers != []
  {
    s.(fibers := s.fibers[1..], queued := s.queued - {s.fibers[0]})
  }

  /** async_fiber_suspend: back to whoever was pushed last, or to the event loop. */
  function Suspend(s: State): State {
    if s.fibers == [] then
      if s.current == Runner then s else Enter(s, Runner)
    else
      Enter(Pop(s), s.fibers[0])
  }

  /** async_fiber_switch with ASYNC_FIBER_SUSPEND_PREPEND. */
  function SwitchTo(s: State, f: Fiber): State {
    if s.current in s.queued then Enter(s, f) else Enter(Push(s), f)
  }

  // ---- src/task.c ----

  /** async_task_scheduler_enqueue for a task that exists: only a suspended one is queued. */
  function Enqueue(s: State, f: Fiber): State {
    if f == Root || (f in s.tasks && s.tasks[f] == Suspended) then s.(ready := s.ready + [f]) else s
  }

  function SetRunning(s: State, f: Fiber): State {
    if f in s.tasks then s.(tasks := s.tasks[f := Running]) else s
  }

  /** reschedule_task and reschedule_root. */
  function Reschedule(s: State, f: Fiber, defer: bool): State {
    if defer then Enqueue(s, f) else SwitchTo(SetRunning(s, f), f)
  }

  /** Operation o, with record op, is taken off its list; nobody is resumed. */
  function Dropped(s: State, o: nat, op: Op): State
    requires o < |s.ops|
  {
    s.(ops := s.ops[o := op.(linked := false)], operations := Without(s.operations, o))
  }

  function Outcome(op: Op, success: bool, result: int): Op {
    op.(status := if success then Resolved else Failed, result := result)
  }

  /** ASYNC_RESOLVE_OP / ASYNC_FAIL_OP / ASYNC_FINISH_OP with continue_op_task or continue_op_root: a
      cancelled operation gets the new status and result too, but its waiter is left alone. */
  function Settled(s: State, o: nat, success: bool, result: int, defer: bool): State
    requires o < |s.ops|
  {
    var t := Dropped(s, o, Outcome(s.ops[o], success, result));
    if s.ops[o].cancelled then t
    else Reschedule(t.(wins := s.wins + [Return(o, success, result)]), s.ops[o].waiter, defer)
  }

  /** cancel_op and cancel_op_root, called with the callback just taken off the cancellation's list. */
  function Cancelled(s: State, o: nat, error: int): State
    requires o < |s.ops|
  {
    var op := s.ops[o].(registered := false);
    if op.status != Pending then s.(ops := s.ops[o := op])
    else
      var t := s.(ops := s.ops[o := Outcome(op, false, error).(cancelled := true)], wins := s.wins + [Return(o, false, error)]);
      Reschedule(t, op.waiter, false)
  }

  /** async_await_op (and the same part of await_val): the checks in front, then suspension. A
      failed check returns to the caller without suspending it. For the root the two differ in
      nothing that is recorded here: its await_val is Await(AwaitOp, false, Atomic). */
  function Awaited(s: State, kind: Kind, inOperations: bool, mode: Mode): State {
    var f := s.current;
    if s.disposed || (!f.Task? && (s.caller.Some? || kind == AwaitVal)) || (f.Task? && (f !in s.tasks || s.tasks[f] != Running)) then s
    else
      var o, own := |s.ops|, kind == AwaitOp;
      var t := s.(ops := s.ops + [Op(f, kind, Pending, 0, true, own && mode != Atomic, false, mode == Kept)],
                  operations := if own && inOperations then s.operations + [o] else s.operations,
                  waits := s.waits[f := OnOp(o)]);
      if !f.Task? then Suspend(t.(caller := Some(f)))
      else if own then Suspend(t.(tasks := t.tasks[f := Suspended]))
      else Suspend(t)
  }

  function Step(s: State, e: Event): State {
    match e
    case Spawn(id) =>
      if Task(id) in s.tasks then s
      else s.(tasks := s.tasks[Task(id) := Init], ready := s.ready + [Task(id)])
    case Await(kind, inOperations, mode) => Awaited(s, kind, inOperations, mode)
    case Settle(o, success, result, defer) =>
      if o < |s.ops| && s.ops[o].linked then Settled(s, o, success, result, defer) else s
    case Cancel(o, error) =>
      if o < |s.ops| && s.ops[o].registered then Cancelled(s, o, error) else s
    case Release(o) =>
      if o < |s.ops| && s.ops[o].cancelled && s.ops[o].linked then Dropped(s, o, s.ops[o]) else s
    case Finish =>
      if s.current.Task? && s.current in s.tasks && s.tasks[s.current] == Running
      then Suspend(s.(tasks := s.tasks[s.current := Finished])) else s
    case Dispatch =>
      if s.current == Runner && s.ready != []
      then SwitchTo(SetRunning(s.(ready := s.ready[1..]), s.ready[0]), s.ready[0]) else s
    case LoopEnd =>
      if s.current == Runner && s.ready == [] && s.caller.Some? then Enter(s, s.caller.value) else s
    case RunLoop =>
      if s.current == Root && s.caller.None? then Suspend(s.(caller := Some(Root), waits := s.waits[Root := OnLoop])) else s
    case Dispose =>
      if s.current == Root then s.(disposed := true) else s
    case DrainOp(error) =>
      if s.disposed && s.current == Root && s.operations != [] && s.operations[0] < |s.ops|
      then Settled(s, s.operations[0], false, error, false) else s
  }

  /** The only settlement that can lose a wake-up: async_task_scheduler_enqueue drops a task that
      await_val left in status RUNNING. In the C code deferred settlement is used by the
      condition variable only, on operations awaited with async_await_op. */
  predicate KeepsWaiter(s: State, e: Event) {
    e.Settle? && e.defer && e.op < |s.ops| && s.ops[e.op].linked ==> s.ops[e.op].kind == AwaitOp
  }

  /** The state after a run in which no deferred settlement loses its waiter. */
  function Run(s: State, trace: seq<Event>): Option<State>
    decreases |trace|
  {
    if trace == [] then Some(s)
    else if KeepsWaiter(s, trace[0]) then Run(Step(s, trace[0]), trace[1..])
    else None
  }
}
