# A verified model of the concurrency kernel

The extension runs PHP code as tasks on native fibers over one libuv loop. This project models the parts
of it that suspend, queue, resume and cancel: the task scheduler with its fibers and awaited operations,
channels and channel groups, the tree of cancellations, the condition variable, combined deferreds, tick
events, and the two directions of a plaintext stream, with the lists and ring buffers beneath them. It is
written in Dafny 4.11; `dafny verify dfyconfig.toml` checks all of it.

## How it is built

Control moves in the middle of a C function. `ASYNC_FINISH_OP` switches to the waiting task, which may call
any other operation before it suspends and the interrupted function goes on. The models make that explicit
in one of two ways.

* **A machine of steps.** `SchedulerSpec`, `ChannelSpec` and `ChannelGroupSpec` describe a state as a value
  and each atomic piece of the C code as a step on it. The laws are proved of every step and then of every
  run; what each step leaves is also stated in the fields of the state alone (`SchedulerLaws`, the
  `Leaves` lemmas). `SchedulerObject`, `ChannelObject` and `ChannelGroupObject` are the C structs as classes that are
  updated in place, each method proved to perform exactly the steps it stands for.
* **A class with a script.** Where a function resumes tasks in the middle of a loop, the method takes a
  script: any sequence of operations that other tasks perform before control comes back, each of which may
  resume further tasks. Methods are proved for every script, so for every nesting, and to terminate.

Ghost fields record histories: what was accepted, delivered, received, emitted, fired or resumed, in order.
`Queues.Ledger` is the first-in-first-out law that channels, waiters and stream writes share: what left,
followed by what is still inside, is in order what was accepted and not withdrawn.

| file | models |
|---|---|
| `Queues.dfy`, `Ring.dfy` | tickets, ledgers and wrap-around storage, shared by the others |
| `IntrusiveList.dfy` | the list and operation macros of php_async.h, on nodes with prev and next pointers |
| `SchedulerSpec.dfy`, `SchedulerProofs.dfy`, `SchedulerRuns.dfy`, `SchedulerDrain.dfy`, `SchedulerLaws.dfy`, `Scheduler.dfy` | src/task.c and src/fiber/asm.c |
| `ChannelSpec.dfy`, `Channel.dfy` | one channel of src/channel.c |
| `ChannelGroupSpec.dfy`, `ChannelGroup.dfy` | group send and group select |
| `Cancellation.dfy` | src/context.c |
| `Condition.dfy` | src/sync.c |
| `Combine.dfy` | combine and the settlement of a deferred, src/deferred.c |
| `Ticks.dfy` | tick events, src/event.c with the rounds of src/task.c |
| `RingBuffer.dfy`, `StreamRead.dfy`, `StreamWrite.dfy` | include/async/buffer.h and the plaintext paths of src/stream.c |

## Findings

* `await_val` suspends a task without changing its status, and `async_task_scheduler_enqueue` drops a task
  that is not INIT or SUSPENDED. A deferred settlement therefore keeps its waiter exactly when the waiter
  called `async_await_op`; otherwise the task never runs again (`SchedulerRuns.DeferKeepsWaiterIff`,
  `SchedulerRuns.LostForever`). The only user of deferred settlement, the condition variable, awaits with
  `async_await_op`, so `SchedulerObject.Scheduler.FinishOp` asks for that.
* A cancelled operation can stay in `scheduler->operations` or with libuv: `ChannelGroup::select` and requests
  that libuv cannot cancel any more leave it there. When it is settled or drained later, the CANCELLED flag
  keeps its waiter from being resumed again, but its status and result are overwritten
  (`SchedulerRuns.LateSettlementResumesNobody`). What a decided operation shows changes if and only if it was
  cancelled, left linked, and is now settled with something else (`SchedulerRuns.ShownChangesIff`, an input in
  `SchedulerRuns.ShownIsReplaced`).
* `ASYNC_CHANNEL_READABLE_NONBLOCK` tests `receivers` where a group select needs `senders`. A select
  registers with members that have blocked senders or buffered values; the channel's promise survives
  exactly when the member had nothing to take (`ChannelSpec.ListenKeepsPromiseIff`). From then on a later
  send can overtake a waiting value (`ChannelSpec.SelectLetsValuesOvertake`): a run keeps the order of
  acceptance if and only if none of its sends finds a receiver beside held values, or room in the buffer
  beside blocked senders (`ChannelSpec.AlwaysFifoIff`).
* For the same reason a select gets a message at once if and only if the first member with a buffered value
  or a waiting receiver has a buffered value or a blocked sender (`ChannelGroupObject.PollSucceedsIff`).
  On unbuffered channels that takes a receiver beside a blocked sender
  (`ChannelGroupObject.UnbufferedPollIff`), which only an earlier select can leave behind: the first select
  passes the message by and waits, the second takes it at once (`ChannelGroupObject.SecondSelectTakesIt`).
* A select can wait on a member that is closed: it registers with one if and only if it keeps it, because it
  holds values, and the first member that looks readable has a receiver and nothing to take
  (`ChannelGroupObject.RegistersWithClosedIff`). Nothing but a timeout or a cancellation takes it off such a
  member (`ChannelGroupSpec.LateStays`). Once all members are closed, a select without message, error and
  timeout has ended if and only if none of them was closed when it registered
  (`ChannelGroupSpec.StrandedIff`); otherwise it waits for ever (`ChannelGroupObject.SelectIsStranded`). A
  close can leave such a receiver behind (`ChannelGroupObject.CloseLeavesReceiver`).
* `continue_send_cb` asks whether the channel is closed, not what became of the operation. A group send is
  refused although its value got through if and only if a fetch takes it from a closed channel
  (`ChannelGroupSpec.RefusedYetTakenIff`); a task resumed by the close can do that
  (`ChannelGroupSpec.RefusedYetTaken`).
* Closing a condition fails its waiters in place while waiters woken by a broadcast still sit in the ready
  queue. The order of arrival survives a close exactly when one of the two groups is empty
  (`ConditionObject.CloseKeepsOrderIff`).
* `async_stream_read` means to test the end-of-file flag and writes `flags && EOF`, so a direct read starts
  reading again only when no flag at all is set (`StreamRead.Reader.DirectRead`). A blocked read starts
  reading in any case, so no read is lost.
* `chain_cancellation` does not look at the flag: a derived cancellation that was triggered before is marked
  again and gets the new error. After an undisturbed cancellation exactly those descendants have the new
  error that have no triggered cancellation between them and it (`CancellationObject.Contexts.Cancel`, the
  predicate `Open`); `CancellationObject.Contexts.ErrorIsReplaced` is an input where an error is replaced
  and the one below it is not. Handlers fire the first time and not again.
* After a tick callback throws, nothing that was left of the round runs: `dispose_ticks` empties both lists
  (`TicksObject.Ticks.Round`).

## Model

| member | source | states |
|---|---|---|
| Queues.LedgerRetract | src/channel.c:993-1038 | withdrawing one queued entry removes it and keeps the order of everything else |
| Ring.StorePush | src/channel.c:483-501 | writing behind the stored items of a wrapping buffer appends to the sequence it holds |
| Ring.StoreDrop | include/async/buffer.h:132-138 | moving the start of a wrapping buffer, around its end too, drops items from the front |
| Ring.WrapIsRemainder | include/async/buffer.h:128-128 | one subtraction brings a position back exactly as the remainder operator does |
| IntrusiveList.List.Append | php_async.h:920-931 | the pointers spell the old sequence with the node at the end |
| IntrusiveList.List.Prepend | php_async.h:933-944 | the pointers spell the old sequence with the node in front |
| IntrusiveList.List.ExtractFirst | php_async.h:946-961 | yields the head and the rest, null on an empty list, and leaves the head detached |
| IntrusiveList.List.ExtractLast | php_async.h:963-978 | the same at the other end |
| IntrusiveList.List.Remove | php_async.h:980-995 | takes out a member wherever it stands and keeps the order; on a detached node outside the list every pointer stays as it was |
| IntrusiveList.List.Rejoined | php_async.h:980-995 | joining the neighbours of a node leaves a doubly linked list of the others |
| IntrusiveList.AppendOp | php_async.h:727-732 | the operation is last in the list and points to it |
| IntrusiveList.NextOp | php_async.h:741-744 | the first operation leaves the list and points to none |
| IntrusiveList.SettleOp | php_async.h:686-725 | an operation is out of whichever list it was in before its callback can run, and holds its outcome |
| IntrusiveList.RemovalAfterDrain | src/task.c:748-753 | removing a callback that a cancellation has drained already changes nothing, however many others were queued and drained meanwhile |
| SchedulerProofs.StartGood | src/task.c:1552-1580 | the invariant holds at the start |
| SchedulerProofs.EnterGood | src/task.c:744-766 | when a waiter is resumed its cancel callback is gone, its operation leaves its list unless it was cancelled and its owner leaves it there, and the invariant holds with the waiter in control |
| SchedulerProofs.SuspendGood | src/fiber/asm.c:160-204 | suspending hands control to the last fiber pushed, or to the runner when there is none, and keeps the invariant |
| SchedulerProofs.SwitchGood | src/fiber/asm.c:206-255 | switching puts the running fiber on top of the stack and keeps the invariant |
| SchedulerProofs.AwaitGood | src/task.c:667-743 | awaiting, refused or not, keeps the invariant |
| SchedulerProofs.ResumeGood | src/task.c:580-602 | deciding a pending operation resumes its waiter on the spot, above the resumer |
| SchedulerProofs.DeferGood | src/task.c:1346-1372 | deciding it with DEFER appends the waiter to the ready queue and lets the resumer go on |
| SchedulerProofs.DropGood | src/task.c:597-603 | a cancelled operation that is settled or released later leaves its list, whatever outcome it shows then, and the invariant holds |
| SchedulerProofs.CancelGood | src/task.c:606-622 | a cancellation keeps the invariant, whether it finds the operation pending or decided |
| SchedulerProofs.DispatchGood | src/task.c:1148-1185 | the head of the ready queue runs with nothing but the runner beneath it |
| SchedulerProofs.LoopEndGood | src/task.c:1510-1552 | when the loop ends the fiber that ran it goes on, with the invariant |
| SchedulerProofs.StepGood | src/task.c:580-1385 | every step of the scheduler keeps the whole invariant |
| SchedulerRuns.RunGood | src/task.c:580-1385 | so does every run |
| SchedulerRuns.EachFiberInOnePlace | src/fiber/asm.c:160-255 | in every reachable state each fiber is in exactly one of: current, stacked, ready, waiting, parked, done; QUEUED marks exactly the stack; the runner is current only over an empty stack and otherwise at its bottom |
| SchedulerRuns.StepStack | src/fiber/asm.c:160-255 | a step leaves the stack alone, pushes the running fiber, or resumes the top |
| SchedulerRuns.ComesBack | src/fiber/asm.c:206-255 | over any run, a fiber on the stack stays right above what was beneath it until it runs, and then the stack is exactly that |
| SchedulerRuns.SettlingIsACall | src/task.c:580-602 | whoever settles a pending operation in place finds the stack unchanged when it runs next |
| SchedulerRuns.CancellingIsACall | src/task.c:606-622 | the same for whoever cancels it |
| SchedulerRuns.DispatchIsACall | src/task.c:1148-1185 | the runner gets control back from a dispatched task with an empty stack |
| SchedulerRuns.ReadyIsFifo | src/task.c:1346-1372 | over any run, whoever is in the ready queue is dispatched in queue order and before later arrivals |
| SchedulerRuns.RunExtends | src/task.c:597-622 | over any run a decision never changes, the logs only grow, and a decided operation shows the same outcome unless a cancellation left it linked and it was taken off since |
| SchedulerRuns.OneWinnerOneResumption | src/task.c:597-622 | in every reachable state an operation has one winner at most, the cancellation if it is flagged CANCELLED and otherwise the settlement it shows; its waiter is still suspended or was resumed exactly once, with the winner's outcome, late settlements notwithstanding; after a decision it is suspended only while ready; only the root is resumed undecided |
| SchedulerRuns.SettlementWins | src/task.c:598-602 | whatever follows a settlement, cancellations included, its outcome is the one the waiter gets, and the waiter has it when it runs again |
| SchedulerRuns.CancellationWins | src/task.c:597-622 | a cancellation that finds the operation pending resumes its waiter at once with its error, and neither a later settlement nor the drain resumes it again |
| SchedulerRuns.LateSettlementResumesNobody | src/task.c:597-603 | settling a cancelled operation takes it off its list, overwrites what it shows and does nothing else: its waiter was resumed before, once |
| SchedulerRuns.ShownChangesIff | src/task.c:597-622 | what a decided operation shows changes in a step if and only if it was cancelled and left linked, and the step settles or drains it with another outcome |
| SchedulerRuns.ShownIsReplaced | src/task.c:1252-1258 | a concrete run: the root is cancelled, its operation stays queued, and the drain replaces the error it shows without resuming it |
| SchedulerRuns.LateCancellationLoses | src/task.c:606-622 | a cancellation that finds the waiter in the ready queue resumes nobody and changes no outcome |
| SchedulerRuns.DeferKeepsWaiterIff | src/task.c:1346-1372 | a deferred settlement of a pending operation queues its waiter if and only if it waits with async_await_op |
| SchedulerRuns.LostForever | src/task.c:815-834 | a task dropped that way never runs again in any run |
| SchedulerRuns.FinishedForever | src/task.c:362-508 | a task that has finished never runs again in any run |
| SchedulerDrain.DrainTakesHead | src/task.c:1252-1258 | each turn of the drain fails the oldest queued operation and takes it off; it was pending, and its waiter runs, or a cancellation had left it there, and nobody is resumed |
| SchedulerDrain.DrainOrder | src/task.c:1252-1258 | what the drain takes, then what it leaves, is a subsequence of the queue it began with |
| SchedulerDrain.DrainTerminates | src/task.c:1222-1258 | after DISPOSED no run puts an operation into the queue: each is failed at most once, in order, in at most as many turns as the queue is long |
| SchedulerDrain.QueuedAreFailed | src/task.c:1222-1258 | drained operations have failed for good, cancelled ones included, and an operation that left the queue is not pending |
| SchedulerLaws.AwaitRefusedIff | src/task.c:689-719 | an await is refused, leaving everything as it was, if and only if the scheduler is disposed, a task is not running, or the loop has a caller already |
| SchedulerLaws.AwaitLeaves | src/task.c:693-743 | an accepted await, field by field: one more operation, pending, linked and waited for by the caller, with a cancel callback if and only if it is not atomic, and last in scheduler->operations if and only if it is in no list of its own; the fiber below or the runner goes on |
| SchedulerLaws.AwaitThenCancel | src/task.c:606-622 | a cancellation right after an await brings its caller back with the error, on top of whoever ran meanwhile, and the operation stays linked only if its owner leaves it |
| SchedulerLaws.AtomicIgnoresCancel | src/task.c:682-682 | an atomic await does not notice a cancellation |
| SchedulerLaws.SettleLeaves | php_async.h:686-725 | the whole state after a settlement in place: the waiter runs above the settling fiber with the outcome, and its operation is in no list |
| SchedulerLaws.DeferLeaves | src/task.c:580-602 | the whole state after a deferred settlement: the waiter is last in the ready queue, still suspended, and the settling fiber goes on |
| SchedulerLaws.CancelLeaves | src/task.c:606-622 | the whole state after a cancellation that finds the operation pending: the waiter runs with the error, and the operation stays where it is only if its owner leaves it |
| SchedulerLaws.LateCancelLeaves | src/task.c:609-622 | after the decision a cancellation takes off its callback and does nothing else |
| SchedulerLaws.ReleaseLeaves | php_async.h:751-762 | a cancelled operation that is released leaves its list and shows what it showed |
| SchedulerLaws.DrainLeaves | src/task.c:1252-1258 | one turn of the drain is a failed settlement of the oldest operation in scheduler->operations |
| SchedulerLaws.SpawnLeaves | src/task.c:920-945 | a new task is INIT and last in the ready queue |
| SchedulerLaws.FinishLeaves | src/task.c:362-508 | a task that returns is FINISHED and control goes to the fiber below it, or the runner |
| SchedulerLaws.DispatchStarts | src/task.c:1148-1185 | the head of the ready queue starts running if it has not run yet, and it is INIT then |
| SchedulerLaws.DispatchResumes | src/task.c:1148-1185 | otherwise it goes on behind its await with the outcome that was decided, and its cancel callback is gone |
| SchedulerLaws.LoopEndLeaves | src/task.c:1510-1552 | when nothing is left to run the root goes on; an operation it awaits that nobody decided is given up |
| SchedulerLaws.RunLoopLeaves | src/task.c:1374-1385 | the disposing fiber hands over and waits for the end of the loop |
| SchedulerLaws.DisposeLeaves | src/task.c:1222-1222 | after the flag no await is accepted |
| SchedulerLaws.IdleLeaves | src/task.c:580-1385 | when each event changes nothing |
| SchedulerObject.Scheduler.Resume | src/task.c:744-766 | the code behind a suspension, as the machine has it |
| SchedulerObject.Scheduler.FiberSuspend | src/fiber/asm.c:160-204 | updates the stack and the current fiber as the machine does |
| SchedulerObject.Scheduler.FiberSwitch | src/fiber/asm.c:206-255 | pushes the running fiber unless it is queued and enters the next |
| SchedulerObject.Scheduler.TaskEnqueue | src/task.c:1346-1372 | appends the root or a suspended task to the ready queue, and nobody else |
| SchedulerObject.Scheduler.RescheduleWaiter | src/task.c:580-646 | defers or switches |
| SchedulerObject.Scheduler.FinishOp | php_async.h:686-725 | one settlement step, also of a cancelled operation, with the invariant |
| SchedulerObject.Scheduler.CancelOp | src/task.c:606-665 | one cancellation step, with the invariant |
| SchedulerObject.Scheduler.ReleaseOp | php_async.h:751-762 | the owner takes a cancelled operation off its list, with the invariant |
| SchedulerObject.Scheduler.AwaitOperation | src/task.c:667-834 | one await step, with the invariant; accepted if and only if the scheduler is not disposed and the caller is a running task, or the root outside the loop; a refused one changes nothing; AwaitLeaves says what an accepted one leaves |
| SchedulerObject.Scheduler.SpawnTask | src/task.c:920-945 | a new task joins the ready queue; SpawnLeaves says where |
| SchedulerObject.Scheduler.FinishTask | src/task.c:362-508 | one finish step, with the invariant |
| SchedulerObject.Scheduler.DispatchNext | src/task.c:1148-1185 | one turn of the dispatch loop |
| SchedulerObject.Scheduler.LoopReturns | src/task.c:1510-1552 | control returns to the fiber that ran the loop |
| SchedulerObject.Scheduler.RunUntilIdle | src/task.c:1374-1385 | the disposing fiber runs the loop once more |
| SchedulerObject.Scheduler.SetDisposed | src/task.c:1222-1222 | the flag that stops new waits |
| SchedulerObject.Scheduler.DrainNext | src/task.c:1252-1258 | one turn of the drain |
| ChannelSpec.StepFifo | src/channel.c:206-522 | every step but a send that jumps a queue keeps accepted = delivered, then buffered, then blocked, less withdrawn; and the same for receivers |
| ChannelSpec.StepWaits | src/channel.c:206-522 | every step keeps: receivers wait only on an idle channel, senders only on a full buffer, for every capacity |
| ChannelSpec.EveryRun | src/channel.c:206-522 | both laws in every state of every run |
| ChannelSpec.OneFate | src/channel.c:206-282 | every accepted value is exactly one of delivered, held, withdrawn |
| ChannelSpec.DeliveredOnceInOrder | src/channel.c:1226-1267 | no value reaches two iterators, deliveries come in the order of acceptance and carry what was sent |
| ChannelSpec.ServedInOrder | src/channel.c:483-501 | competing receivers are served in the order in which they queued |
| ChannelSpec.TakenConserves | src/channel.c:206-243 | taking a value moves the oldest one from the channel to the deliveries and loses none, refill included |
| ChannelSpec.SendLeaves | src/channel.c:460-522 | a send to an open channel hands its value to the receiver that queued first, else puts it at the end of the buffer, else of the blocked senders; a closed channel refuses it; nothing else changes |
| ChannelSpec.FetchLeaves | src/channel.c:1226-1267 | a fetch ends on a channel that is closed and has nothing left, does nothing while one is under way, takes what the channel holds longest, or waits at the end of the queue; the buffer shrinks only when no sender is blocked |
| ChannelSpec.PollLeaves | src/channel.c:206-243 | a poll takes the same value, whoever waits and whether or not the channel is closed |
| ChannelSpec.WithdrawalLeaves | src/channel.c:511-521 | a sender or receiver that gives up takes away its own entry and no other |
| ChannelSpec.CloseLeaves | src/channel.c:245-282 | the first close sets the flag and the error, later ones nothing; the queues are emptied from the front |
| ChannelSpec.ListenKeepsPromiseIff | src/channel.c:183-183 | registering a select keeps the channel free of needless waits if and only if it had nothing to take |
| ChannelSpec.OfferKeepsPromiseIff | src/channel.c:1087-1162 | registering a group send does so if and only if the member is full and has no receiver |
| ChannelSpec.StepKeepsOrderIff | src/channel.c:481-503 | a step keeps the order of acceptance if and only if it is not a send that reaches a receiver past held values or the buffer past blocked senders |
| ChannelSpec.AlwaysFifoIff | src/channel.c:206-522 | whoever registers, the order holds throughout a run if and only if no send in it does that |
| ChannelSpec.SelectLetsValuesOvertake | src/channel.c:901-914 | a concrete run in which a select makes a later value overtake |
| ChannelObject.Channel.constructor | src/channel.c:284-299 | an empty open channel of the given capacity |
| ChannelObject.Channel.Laws | src/channel.c:206-522 | the object obeys both laws whenever other tasks can look at it |
| ChannelObject.Channel.Send | src/channel.c:460-522 | a send to an open channel is handed to the first receiver, buffered behind the others or queued, in that preference, and recorded before any task it resumes runs; one to a closed channel changes nothing |
| ChannelObject.Channel.TakeAndRefill | src/channel.c:210-228 | the ring gives up its oldest value and takes the first blocked sender's, around its end too |
| ChannelObject.Channel.FetchNoblock | src/channel.c:206-243 | yields the oldest value of buffer and senders, the sender being resumed when the channel is in order again |
| ChannelObject.Channel.Next | src/channel.c:1226-1277 | a fetch ends with the error of the channel, or without one, if and only if the channel is closed with that error, or without one, and has nothing left; it is busy if and only if the iterator waits already; it waits if and only if there is nothing to take; otherwise it gets the oldest value, handed to this iterator |
| ChannelObject.Channel.Join | src/channel.c:1241-1252 | a waiting iterator queues behind the others |
| ChannelObject.Channel.EndReceiver | src/channel.c:264-271 | each receiver is out of the queue before it is resumed |
| ChannelObject.Channel.EndSender | src/channel.c:273-281 | each blocked sender is out of the queue before it is resumed, its value dropped |
| ChannelObject.Channel.Close | src/channel.c:412-437 | the reason becomes the channel's error, once, and afterwards nobody waits on the channel, whatever the resumed tasks do |
| ChannelObject.Channel.Retract | src/channel.c:511-521 | a cancelled send takes its value back and nobody else's |
| ChannelObject.Channel.Unqueue | src/channel.c:1252-1264 | a cancelled fetch leaves the queue |
| ChannelGroupSpec.StepSenders | src/channel.c:206-282 | what one step does to the queue of senders: who leaves, and that the rest stays in ticket order |
| ChannelGroupSpec.StepReceivers | src/channel.c:245-522 | the same for receivers |
| ChannelGroupSpec.StepTidy | src/channel.c:206-522 | values and receivers that got through are neither waiting nor withdrawn, after every step |
| ChannelGroupSpec.SendAfter | src/channel.c:993-1038 | a step on one member disturbs a waiting group send only by taking one of its registrations, which then got through exactly when a fetch took it |
| ChannelGroupSpec.SelectAfter | src/channel.c:764-799 | the same for a select, whose counter is then one more than its linked registrations; the one taken was handed the value of the send, or nothing |
| ChannelGroupSpec.AtMostOneChannel | src/channel.c:1149-1199 | the value of a group send reaches one member at most |
| ChannelGroupSpec.ReportTells | src/channel.c:993-1038 | the value of a group send got through with a registration if and only if its report names that one as having taken it, or as refused although a fetch took it; never while it waits, after an error or a timeout; and what was delivered is that value |
| ChannelGroupSpec.TakenFate | src/channel.c:206-281 | an operation that leaves the queue of senders got through if and only if a fetch took it, and was withdrawn otherwise |
| ChannelGroupSpec.RefusedYetTakenIff | src/channel.c:1026-1033 | the callback sees a closed channel for a value that got through if and only if a fetch takes it from a channel closed before |
| ChannelGroupSpec.RefusedYetTaken | src/channel.c:268-281 | a concrete run in which that happens: a receiver or sender resumed by the close fetches, and the buffer is refilled from the queue |
| ChannelGroupSpec.SelectTells | src/channel.c:764-799 | a group select was served a message with a registration if and only if it returns that entry with a value, and then that value; none while it waits, after an error, a timeout or without an entry |
| ChannelGroupSpec.WaitingFor | src/channel.c:788-794 | a waiting select is linked on a member whose close has not resumed its receivers, or on one that was closed when it registered |
| ChannelGroupSpec.StrandedIff | src/channel.c:788-794 | once all members are closed, a select that got no message, no error and no timeout has ended without an entry if and only if none was closed when it registered |
| ChannelGroupSpec.LateStays | src/channel.c:245-281 | a registration with a closed member leaves its queue by no step but its own withdrawal |
| ChannelGroupSpec.LoseSend | src/channel.c:1191-1199 | unlinking a registration withdraws it and touches no other |
| ChannelGroupSpec.LoseSelect | src/channel.c:945-956 | the same for a select |
| ChannelGroupSpec.SelectGoesOn | src/channel.c:788-794 | a select that loses a closed member goes on with its counter equal to its linked registrations, all groups in order |
| ChannelGroupObject.PollSucceedsIff | src/channel.c:851-889 | a select gets a message at once if and only if the first member with a buffered value or a waiting receiver has a buffered value or a blocked sender |
| ChannelGroupObject.UnbufferedPollIff | src/channel.c:183-183 | on unbuffered channels that is the first member with a waiting receiver, and it must have a blocked sender too |
| ChannelGroupObject.LawfulUnbufferedPollFails | src/channel.c:183-183 | where nobody waits needlessly a select passes by the blocked senders of unbuffered channels |
| ChannelGroupObject.KeptIs | src/channel.c:851-879 | a select keeps its members in order, one by one: a member goes if and only if its channel is closed and has neither buffered values nor receivers |
| ChannelGroupObject.KeptMembers | src/channel.c:851-879 | so a member is kept if and only if its channel is open, has a buffered value or has a receiver |
| ChannelGroupObject.MustWaitIff | src/channel.c:851-914 | a select waits if and only if it may, no member is closed with an error and empty, some member is open or has a buffered value or a receiver, and the first with a buffered value or a receiver has neither a buffered value nor a blocked sender |
| ChannelGroupObject.SentReaches | src/channel.c:1093-1136 | a send to an open channel gets its value through at once if and only if a receiver waits or the buffer has room |
| ChannelGroupObject.SecondSelectTakesIt | src/channel.c:851-889 | a concrete input: the first select passes a blocked sender by, the second, finding the first one waiting, takes its message at once |
| ChannelGroupObject.RegistersWithClosedIff | src/channel.c:851-914 | a select registers with a closed member if and only if it may wait, no member is broken, it keeps a closed one, and the first that looks readable has a receiver and nothing to take |
| ChannelGroupObject.SelectIsStranded | src/channel.c:851-914 | a concrete input: a select over an open channel with a receiver and a closed one with a value waits on both, and goes on waiting when the first is closed too |
| ChannelGroupObject.CloseLeavesReceiver | src/channel.c:245-281 | a concrete input: a sender resumed by the close selects and is left waiting on the closed channel |
| ChannelGroupObject.Groups.UnlinkSends | src/channel.c:1191-1199 | afterwards no registration of the group is linked, and no queue has grown |
| ChannelGroupObject.Groups.UnlinkSelects | src/channel.c:945-956 | the same for a select |
| ChannelGroupObject.Groups.SettleSend | src/channel.c:1177-1199 | a group send that ends has unlinked every registration before any other fiber can reach its members, and ends with the report it was given |
| ChannelGroupObject.Groups.SettleSelect | src/channel.c:926-956 | the same for a select |
| ChannelGroupObject.Groups.ContinueSend | src/channel.c:993-1038 | the taken registration ends the group send: with its entry when the channel is open, with the entry and the error when it was failed, otherwise refused, the report saying whether a fetch took the value; ReportTells says what that means |
| ChannelGroupObject.Groups.ContinueSelect | src/channel.c:764-799 | a message or an error ends the select with that entry; a member closed without error ends it, without an entry, if and only if no registration is linked and every member closed without error; otherwise only the counter changes |
| ChannelGroupObject.Groups.Advance | src/channel.c:206-522 | one channel event followed by the callback of the operation it takes, all groups in order again; the group it belonged to is told: refused, failed with the error of the channel, taken, or handed the value |
| ChannelGroupObject.Groups.PassOn | src/channel.c:1122-1136 | the value has reached the receiver that waited first, or else the end of the buffer, when the send returns |
| ChannelGroupObject.Groups.TakeFirst | src/channel.c:882-889 | the value that the member holds longest is delivered to the group's iterator for it |
| ChannelGroupObject.Groups.Close | src/channel.c:245-281 | for every script: the reason becomes the error of the channel, nobody is left sending on it, and exactly those are left receiving that registered after its receivers had been resumed and were not withdrawn; none if it held no value; all groups in order; a second close changes nothing |
| ChannelGroupObject.Groups.RegisterSend | src/channel.c:1149-1162 | a blocked group send is linked into every member, each operation carrying its value |
| ChannelGroupObject.Groups.RegisterSelect | src/channel.c:901-914 | a waiting select is linked with its iterator into every member it kept, closed ones included, and pending counts them; only members that hold something lose their laws |
| ChannelGroupObject.Groups.ScanSend | src/channel.c:1087-1119 | finds the first member that can take the value, unless a closed one comes to light, and then the first of those |
| ChannelGroupObject.Groups.Send | src/channel.c:1045-1210 | completes on the first member with a receiver or room in its buffer, and then the value is through; waits on all or returns; the first closed member is dropped and reported with its error |
| ChannelGroupObject.Groups.ScanSelect | src/channel.c:851-879 | keeps what Kept says and finds the first that looks readable; the first member that is closed with an error and empty is dropped and its error reported, the members behind it untouched |
| ChannelGroupObject.Groups.Select | src/channel.c:814-965 | takes the oldest value of the first readable member, waits exactly when MustWaitIff says so, reports the error of the first broken member, or returns |
| ChannelGroupObject.Groups.StopSend | src/channel.c:982-991 | a group send that times out or is cancelled ends without an entry, every registration withdrawn |
| ChannelGroupObject.Groups.StopSelect | src/channel.c:801-808 | the same for a select, which consumed no message |
| ChannelGroupObject.Groups.Drop | src/channel.c:511-521 | a single send or fetch blocked on a member channel can be cancelled at any time, no group being disturbed |
| CancellationObject.TriggeredDown | src/context.c:70-118 | with nothing being drained, all that descends from a triggered cancellation is triggered |
| CancellationObject.ExtractTree | src/context.c:78-84 | taking off a callback can unlink only the chained cancellation it is |
| CancellationObject.FireHandlers | src/context.c:78-84 | a handler that is called was registered there, has not fired before and is registered nowhere afterwards |
| CancellationObject.SiblingsApart | src/context.c:108-114 | nothing descends from two cancellations chained to the same one |
| CancellationObject.CallsFrame | src/context.c:78-84 | what a drain calls depends only on the cancellations below |
| CancellationObject.ChainTree | src/context.c:87-118 | chaining a new cancellation keeps the tree in order |
| CancellationObject.Contexts.With | src/context.c:260-291 | the new context shares the cancellation of the old |
| CancellationObject.Contexts.Shield | src/context.c:379-398 | the new context has none |
| CancellationObject.Contexts.WithCancel | src/context.c:87-118 | the new context is cancelled from the start exactly when its parent is, with the same error; otherwise its cancellation is last in the parent's list, and nothing else changes |
| CancellationObject.Contexts.Register | src/task.c:682-714 | the handler is last in the list of the context's cancellation, unless there is none or it is triggered; nothing else changes |
| CancellationObject.Contexts.Unregister | src/task.c:745-753 | takes a handler out of its list unless it has fired, and touches no other list |
| CancellationObject.Contexts.TakeHandler | src/context.c:78-84 | a handler is off the list before it is called |
| CancellationObject.Contexts.TakeChain | src/context.c:70-84 | a chained cancellation is marked as soon as it is off the list, with the new error |
| CancellationObject.Contexts.Drain | src/context.c:78-84 | the recursive drain terminates for every script and leaves the list empty; whatever the script does, only descendants of the drained cancellation and of those it cancels are marked and called, and only handlers it unregisters disappear; undisturbed, the tree is marked and its handlers called in list order, each chained list where its cancellation stands |
| CancellationObject.Contexts.Trigger | src/context.c:633-669 | a second trigger does nothing |
| CancellationObject.Contexts.Cancel | src/context.c:150-174 | for every script: the node and its descendants end up triggered, every handler there has fired once or was unregistered, and nothing else is marked or called but what descends from a cancellation that the script cancels; undisturbed, the exact state of every cancellation, the new error standing exactly where no triggered one lies between; shielded contexts are untouched |
| CancellationObject.Contexts.ErrorIsReplaced | src/context.c:70-84 | a concrete input: a derived cancellation that was triggered on its own gets the error of a later one, and what hangs on it keeps the first |
| CancellationObject.InTreeIff | src/context.c:70-84 | with nothing being drained, what hangs on an untriggered cancellation is what descends from it with nothing triggered between |
| ConditionObject.CloseKeepsOrderIff | src/sync.c:53-55 | failing waiters at a close keeps the order of arrival if and only if nobody is deferred or nobody waits |
| ConditionObject.Condition.ResumedInOrder | src/sync.c:142-241 | waiters are resumed in the order in which they began to wait, for any mix of signal and broadcast |
| ConditionObject.Condition.Wait | src/sync.c:142-180 | a waiter queues last; on a closed condition it does not |
| ConditionObject.Condition.Signal | src/sync.c:184-209 | wakes the first waiter, without an error: in place when no wake-up is outstanding, behind the outstanding ones otherwise |
| ConditionObject.Condition.Broadcast | src/sync.c:214-241 | wakes exactly those waiting at the call, in order, and resumes none of them yet |
| ConditionObject.Condition.DispatchDeferred | src/sync.c:174-176 | a resumed waiter takes itself off the counter, which stays the number of outstanding wake-ups, and succeeds |
| ConditionObject.Condition.Cancel | src/task.c:606-622 | a waiter can be cancelled until it is woken |
| ConditionObject.Condition.Close | src/sync.c:37-56 | everyone who waits and is not cancelled meanwhile fails with the reason, in order, and deferred waiters are left to succeed; for every script the order of arrival survives if and only if nobody was deferred or nobody waited |
| CombineObject.Combination.Finished | src/deferred.c:775-871 | when all calls have returned each input was handed over once, exactly one call was told it was the last, and the record is gone |
| CombineObject.Combination.TriggerOps | src/deferred.c:181-199 | everyone who waits is resumed once with the final result, in order, and nobody is left waiting |
| CombineObject.Combination.SettleWith | src/deferred.c:669-734 | the first settlement decides, and answers everyone who waits |
| CombineObject.Combination.CombineCallback | src/deferred.c:775-871 | a call is marked last exactly when it is the last to begin, however calls nest; after the last return the record is released once and the result is not pending |
| CombineObject.Combination.Continue | src/deferred.c:820-853 | a continuation that throws fails a result that is still open |
| CombineObject.Combination.Release | src/deferred.c:855-868 | a result that is still open fails before the record is freed |
| CombineObject.Combination.Combine | src/deferred.c:878-966 | for every script: each input that is settled already has been handed to the continuation, and each other one is still scheduled unless somebody settled it; undisturbed, the calls are the settled inputs in order and started counts the others; the record is not used after its release |
| CombineObject.ReadyIs | src/deferred.c:936-966 | the inputs handed over at once are exactly the settled ones, in ascending order |
| TicksObject.RoundDrop | src/event.c:356-368 | an event stopped before its turn leaves the round, the others keep their order |
| TicksObject.Ticks.Activate | src/event.c:336-354 | the event is last in ticks and counted if referenced |
| TicksObject.Ticks.Deactivate | src/event.c:356-368 | the event leaves whichever list it is in and the count follows |
| TicksObject.Ticks.CreateEvent | src/event.c:370-393 | a new event is referenced, open and last in ticks |
| TicksObject.Ticks.StartEvent | src/event.c:430-443 | a started event joins ticks, never the running round |
| TicksObject.Ticks.StopEvent | src/event.c:448-461 | a stopped event leaves the list it is in, the others stay; a closed one is refused |
| TicksObject.Ticks.CloseEvent | src/event.c:412-425 | a closed event leaves the list it is in, the others and their references stay, and it cannot be started |
| TicksObject.Ticks.RefEvent | src/event.c:466-483 | refticks follows the flag, in either list |
| TicksObject.Ticks.UnrefEvent | src/event.c:488-505 | the same for clearing it |
| TicksObject.Ticks.DisposeTicks | src/task.c:1416-1441 | both lists and the count are emptied, and exactly the events of the round that had not run are dropped from it |
| TicksObject.Ticks.BeginRound | src/task.c:1455-1466 | the list becomes the round, in order |
| TicksObject.Ticks.TakeHead | src/task.c:1468-1475 | the head leaves the round and the count before its callback is called |
| TicksObject.Ticks.RunTicks | src/task.c:1443-1508 | for every script: the callbacks called are those of the events listed at the start, in order, less those that the script stops, closes or drops by an error; nothing runs twice; the round ends early if and only if a callback throws, at the first one that does; events created meanwhile are active unless taken out |
| TicksObject.Ticks.Round | src/task.c:1528-1537 | the same, and a callback that throws drops what was left of the round and of ticks; otherwise what was created meanwhile is left to the next round |
| RingBufferObject.RingBuffer.WriteLen | include/async/buffer.h:52-63 | the window is free, cannot be extended in memory, and is empty only when the buffer is full |
| RingBufferObject.RingBuffer.Fill | include/async/buffer.h:52-63 | bytes put into the window leave the buffered bytes alone |
| RingBufferObject.RingBuffer.WriteMove | include/async/buffer.h:123-130 | the bytes behind the contents join them; the positions stay in order if and only if they fit |
| RingBufferObject.RingBuffer.Consume | include/async/buffer.h:132-139 | leaves contents and positions as a discarded read of the same length does |
| RingBufferObject.RingBuffer.Read | include/async/buffer.h:65-96 | copies out the first min(n, len) bytes, in two copies at most, and nothing else |
| RingBufferObject.RingBuffer.ReadString | include/async/buffer.h:98-121 | the same into a new string, or none |
| StreamRead.Reader.constructor | src/stream.c:205-227 | an idle stream with a buffer of at least 32 KiB |
| StreamRead.Reader.AllocWindow | src/stream.c:802-827 | while reading, the window offered to libuv is never empty and holds no buffered byte |
| StreamRead.Reader.DirectRead | src/stream.c:871-893 | a direct read returns the oldest bytes and restarts reading exactly when no flag is set and 4096 bytes are free |
| StreamRead.Reader.Read | src/stream.c:844-936 | every outcome of a read, with bytes returned then bytes buffered equal to bytes received |
| StreamRead.Reader.Complete | src/stream.c:788-790 | a blocked read ends without bytes and its task runs |
| StreamRead.Reader.Deliver | src/stream.c:752-766 | a blocked read ends with the oldest bytes |
| StreamRead.Reader.Serve | src/stream.c:752-766 | at most one read is served, since a resumed task blocks again only on an empty buffer |
| StreamRead.Reader.FinishAll | src/stream.c:700-704 | afterwards no read is blocked, however often resumed tasks read again |
| StreamRead.Reader.Receive | src/stream.c:649-654 | arrived bytes join the buffer behind those already there |
| StreamRead.Reader.BytesArrive | src/stream.c:752-799 | whatever the resumed task does, reading goes on exactly when 4096 bytes are free, unless the stream has ended |
| StreamRead.Reader.EndArrives | src/stream.c:709-793 | at the end of the stream reading stops for good and a blocked read succeeds with nothing |
| StreamRead.Reader.ReadCallback | src/stream.c:679-800 | the answer a blocked read gets to each kind of arrival; no byte is lost, repeated or reordered; undisturbed, the read ends with that answer alone and the flags change only as the arrival says |
| StreamRead.Reader.Timeout | src/stream.c:829-842 | a blocked read that times out takes no bytes |
| StreamRead.Reader.ShutdownRead | src/stream.c:459-505 | reading stops for good and a blocked read is cancelled |
| StreamRead.Reader.Close | src/stream.c:350-375 | the same for a close |
| StreamWrite.OrderBegin | src/stream.c:1117-1157 | beginning a write after a partial direct write keeps emitted then pending bytes equal to the begun writes |
| StreamWrite.OrderWithdraw | src/stream.c:1192-1196 | a write that was not begun can be taken out from any position without moving a byte |
| StreamWrite.OrderFinish | src/stream.c:1013-1018 | a finished write has all its bytes on the wire |
| StreamWrite.Writer.EmittedIsPrefix | src/stream.c:961-1206 | until a transport error the emitted bytes are a prefix of the accepted writes in call order, less those cancelled unbegun, and all of it when none is queued |
| StreamWrite.Writer.CancelledEmitsNothing | src/stream.c:1176-1197 | a withdrawn write is neither finished nor queued |
| StreamWrite.Writer.TryWrite | src/stream.c:1129-1151 | the bytes taken are the counts libuv answers before it would block or fails, up to all the data; an error is reported if and only if libuv answers one before it has them all |
| StreamWrite.Writer.Write | src/stream.c:1066-1206 | the same when nothing is queued and no callback is active; otherwise the write is queued last, not begun, and nothing else changes; a shut stream refuses it and changes nothing |
| StreamWrite.Writer.WriteNow | src/stream.c:1112-1161 | on an idle stream a write fails if and only if libuv reports an error before it has all bytes, is sent if and only if libuv takes them all, and is otherwise begun, libuv holding exactly the rest |
| StreamWrite.Writer.Cancel | src/stream.c:1176-1197 | a started write stays the first with all its bytes, one that was not started is gone with none |
| StreamWrite.Writer.Emit | src/stream.c:984-996 | emitting pending bytes keeps the order |
| StreamWrite.Writer.FinishFirst | src/stream.c:1013-1018 | only the first write can finish, with all its bytes out or with a transport error, which is not counted as done |
| StreamWrite.Writer.StartFirst | src/stream.c:961-997 | only the first write is started, with all its bytes |
| StreamWrite.Writer.WriteCallback | src/stream.c:999-1044 | whatever the resumed tasks write or cancel, the first write finishes, and afterwards a write is started or no flush waits; undisturbed it is the next one, with all its bytes, and the rest of the queue stays |
| StreamWrite.Writer.Flush | src/stream.c:536-554 | waits only while writes are queued |

## Left out

- libuv: handles, timers and sockets appear only as the events they cause (bytes arrived, bytes taken, write completed, time is up).
- TLS: the encrypted paths of the stream, its BIOs and the shutdown handshake.
- The PHP VM: values, errors and exceptions are abstract, reference counts, output buffers, bailouts and the scheduler's ERROR path are not modelled.
- Machine-level switching: src/fiber/asm.c is modelled down to the jump; the other two backends repeat the protocol.
- Inline task execution (src/task.c:511-578) and the delegation of an await to a task that is not started.
- `32-bit counters` such as cond->broadcast and scheduler->refticks are unbounded.
- SchedulerObject.Scheduler.FinishOp: asks that a deferred operation be awaited with async_await_op, as its only user does; SchedulerRuns.LostForever says what happens otherwise.
- SchedulerSpec.Enter: an operation that the root gives up because the loop ran out of work is taken to be withdrawn by its owner.
- SchedulerSpec.Awaited: an operation that is awaited again while a cancellation left it queued counts as a new one at the end of the queue, where the C code leaves it in its place; SchedulerSpec.Release is the old one leaving.
- SchedulerLaws.AwaitRefusedIff: an await in a context that is cancelled already fails in front of these checks (src/task.c:684-690); CancellationObject.Contexts.Register says when a callback can still be put on a cancellation.
- SchedulerSpec: whether uv_run has work left is a free choice of the run, so that the loop ends is not stated.
- ChannelGroupObject.Groups: two tasks using one group at once, compact_group, shuffle_group and the order in which they leave the entries.
- ChannelObject.Channel: the iterator's current key and value; the channel stands for the values it hands to iterators.
- CancellationObject.Contexts: the memory of a cancellation is never released, contexts keep no variables; the exact state after a cancellation is stated for the undisturbed one, since a script can cancel anything.
- ConditionObject.Condition: the place of its waiters in the ready queue among other tasks; SchedulerRuns.ReadyIsFifo gives the order.
- CombineObject.Combination: the key, result and error that a call of the continuation is given for its input, the exit path of a continuation that ends the process, and Deferred::transform.
- TicksObject.Ticks: the return of run_ticks when the process exits.
- StreamRead.Reader: reads into a buffer of the caller copy the same bytes as reads into a string (RingBufferObject.RingBuffer.Read); imported handles and the IPC mode.
- StreamWrite.Writer: the status that the resumed writer gets from write_cb, zero-length writes, which encode_buffer asserts away; exported handles; the delayed shutdown; the completion of writes queued while flushes are finished, which nothing starts; the callback that a started write keeps after its task was cancelled.
- async_ring_buffer_read_len, which nothing calls.
