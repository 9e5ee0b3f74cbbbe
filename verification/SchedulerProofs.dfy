/** What every step of the scheduler keeps, and what follows for whole runs. */
module SchedulerProofs {
  import opened Queues
  import opened SchedulerSpec

  // ---- The invariant, with x the fiber that runs or is about to ----

  ghost predicate WaitsFor(waits: map<Fiber, Wait>, f: Fiber, o: nat) {
    f in waits && waits[f] == OnOp(o)
  }

  ghost predicate SettledWait(waits: map<Fiber, Wait>, ops: seq<Op>, f: Fiber) {
    f in waits && waits[f].OnOp? && waits[f].op < |ops| && ops[waits[f].op].status != Pending
  }

  /** A waiting task has the status its kind of wait gives it. */
  ghost predicate TaskWaits(tasks: map<Fiber, TaskStatus>, waits: map<Fiber, Wait>, ops: seq<Op>, f: Fiber)
    requires f in waits
  {
    && f in tasks && waits[f].OnOp? && waits[f].op < |ops|
    && tasks[f] == if ops[waits[f].op].kind == AwaitOp then Suspended else Running
  }

  /** The waiter was handed the outcome that decided its operation and waits for it no more. */
  ghost predicate Faithful(ops: seq<Op>, waits: map<Fiber, Wait>, wins: seq<Return>, r: Return) {
    && r.op < |ops| && ops[r.op].status != Pending && !WaitsFor(waits, ops[r.op].waiter, r.op)
    && (if ops[r.op].status == Abandoned then r == Return(r.op, false, ops[r.op].result) else r in wins)
  }

  /** The decision of an operation is the outcome it shows, unless it was cancelled and its waiter is
      gone: then it may have been settled since. */
  ghost predicate Winner(ops: seq<Op>, waits: map<Fiber, Wait>, w: Return) {
    && w.op < |ops| && ops[w.op].status in {Resolved, Failed}
    && (ops[w.op].cancelled ==> !w.success)
    && (!ops[w.op].cancelled || WaitsFor(waits, ops[w.op].waiter, w.op) ==>
          w.success == (ops[w.op].status == Resolved) && w.result == ops[w.op].result)
  }

  /** QUEUED marks exactly the stack; nobody is on it twice; the runner is at its bottom. */
  ghost predicate Stack(fibers: seq<Fiber>, queued: set<Fiber>, tasks: map<Fiber, TaskStatus>) {
    && NoDup(fibers)
    && (forall f :: f in queued <==> f in fibers)
    && (forall i :: 0 <= i < |fibers| - 1 ==> fibers[i] != Runner)
    && (forall f :: f in fibers && f.Task? ==> f in tasks && tasks[f] == Running)
  }

  ghost predicate StackOk(s: State) {
    Stack(s.fibers, s.queued, s.tasks)
  }

  ghost predicate InReady(f: Fiber, fibers: seq<Fiber>, tasks: map<Fiber, TaskStatus>, waits: map<Fiber, Wait>, ops: seq<Op>) {
    && f !in fibers && f != Runner
    && (f == Root ==> SettledWait(waits, ops, f))
    && (f.Task? ==> f in tasks && (tasks[f] == Init || (tasks[f] == Suspended && SettledWait(waits, ops, f))))
  }

  ghost predicate ReadyIn(ready: seq<Fiber>, fibers: seq<Fiber>, tasks: map<Fiber, TaskStatus>, waits: map<Fiber, Wait>, ops: seq<Op>) {
    && NoDup(ready)
    && (forall f :: f in ready ==> InReady(f, fibers, tasks, waits, ops))
  }

  ghost predicate ReadyOk(s: State) {
    ReadyIn(s.ready, s.fibers, s.tasks, s.waits, s.ops)
  }

  ghost predicate WaitShape(waits: map<Fiber, Wait>, ops: seq<Op>, fibers: seq<Fiber>, caller: Option<Fiber>) {
    && (forall f :: f in waits ==> f != Runner && f !in fibers)
    && (forall f :: f in waits && waits[f].OnLoop? ==> f == Root)
    && (forall f :: f in waits && waits[f].OnOp? ==> waits[f].op < |ops| && ops[waits[f].op].waiter == f)
    && (Root in waits <==> caller == Some(Root))
    && (caller.Some? ==> caller.value == Root)
  }

  ghost predicate WaitTasks(waits: map<Fiber, Wait>, ops: seq<Op>, tasks: map<Fiber, TaskStatus>, x: Fiber) {
    forall f :: f in waits && f.Task? && f != x ==> TaskWaits(tasks, waits, ops, f)
  }

  /** Whoever's wait has ended is in the ready queue. */
  ghost predicate WaitReady(waits: map<Fiber, Wait>, ops: seq<Op>, ready: seq<Fiber>, x: Fiber) {
    forall f :: f != x && SettledWait(waits, ops, f) ==> f in ready
  }

  ghost predicate WaitsOk(s: State, x: Fiber) {
    && WaitShape(s.waits, s.ops, s.fibers, s.caller)
    && WaitTasks(s.waits, s.ops, s.tasks, x)
    && WaitReady(s.waits, s.ops, s.ready, x)
  }

  /** A task's status tells where it is, except possibly for the fibers xs. */
  ghost predicate TaskPlace(f: Fiber, status: TaskStatus, fibers: seq<Fiber>, ready: seq<Fiber>, waits: map<Fiber, Wait>, xs: set<Fiber>) {
    match status
    case Init => f in ready && f !in waits
    case Suspended => f in waits
    case Running => f in xs || f in fibers || f in waits
    case Finished => f !in xs && f !in waits
  }

  ghost predicate TasksIn(tasks: map<Fiber, TaskStatus>, fibers: seq<Fiber>, ready: seq<Fiber>, waits: map<Fiber, Wait>, xs: set<Fiber>) {
    && (forall f :: f in tasks ==> f.Task? && TaskPlace(f, tasks[f], fibers, ready, waits, xs))
    && (Root !in xs ==> Root in fibers || Root in waits)
  }

  ghost predicate TasksOk(s: State, xs: set<Fiber>) {
    TasksIn(s.tasks, s.fibers, s.ready, s.waits, xs)
  }

  ghost predicate OpsIn(ops: seq<Op>, waits: map<Fiber, Wait>, operations: seq<nat>, x: Fiber) {
    && (forall o :: 0 <= o < |ops| && ops[o].status == Pending ==> ops[o].linked && !ops[o].cancelled && WaitsFor(waits, ops[o].waiter, o))
    && (forall o :: 0 <= o < |ops| && ops[o].linked && !ops[o].cancelled ==> ops[o].status == Pending || ops[o].waiter == x)
    && (forall o :: 0 <= o < |ops| && ops[o].linked && !ops[o].cancelled ==> WaitsFor(waits, ops[o].waiter, o))
    && (forall o :: 0 <= o < |ops| && ops[o].registered ==> WaitsFor(waits, ops[o].waiter, o))
    && (forall o :: 0 <= o < |ops| && ops[o].cancelled ==> CancelledOp(ops[o]) && (WaitsFor(waits, ops[o].waiter, o) ==> ops[o].waiter == x))
    && (forall o :: 0 <= o < |ops| && ops[o].status == Abandoned ==> ops[o].waiter == Root)
    && (forall o :: 0 <= o < |ops| && ops[o].kind == AwaitVal ==> ops[o].waiter.Task? && !ops[o].registered && !ops[o].cancelled)
    && NoDup(operations)
    && (forall o :: o in operations ==> o < |ops| && ops[o].linked)
  }

  predicate CancelledOp(op: Op) {
    !op.registered && op.status in {Resolved, Failed}
  }

  ghost predicate OpsOk(s: State, x: Fiber) {
    OpsIn(s.ops, s.waits, s.operations, x)
  }

  ghost predicate HasReturn(rs: seq<Return>, o: nat) {
    exists r :: r in rs && r.op == o
  }

  /** wins has one entry for each settled or cancelled operation; resumed has one, with the winner's
      outcome, for each operation whose waiter is not waiting on it any more. */
  ghost predicate LogIn(ops: seq<Op>, waits: map<Fiber, Wait>, wins: seq<Return>, resumed: seq<Return>) {
    && Once(wins) && Once(resumed)
    && (forall w :: w in wins ==> Winner(ops, waits, w))
    && (forall o :: 0 <= o < |ops| && ops[o].status in {Resolved, Failed} ==> HasReturn(wins, o))
    && (forall r :: r in resumed ==> Faithful(ops, waits, wins, r))
    && (forall o :: 0 <= o < |ops| && ops[o].status != Pending ==> WaitsFor(waits, ops[o].waiter, o) || HasReturn(resumed, o))
  }

  /** Each operation occurs once at most. */
  ghost predicate Once(rs: seq<Return>) {
    forall i, j :: 0 <= i < j < |rs| ==> rs[i].op != rs[j].op
  }

  ghost predicate LogOk(s: State) {
    LogIn(s.ops, s.waits, s.wins, s.resumed)
  }

  ghost predicate Ready(s: State, x: Fiber) {
    StackOk(s) && ReadyOk(s) && WaitsOk(s, x) && TasksOk(s, {x}) && OpsOk(s, x) && LogOk(s)
  }

  /** x can be switched to: it is nowhere else, or suspended in a wait that has ended (only the root
      may be resumed from one that has not). */
  ghost predicate Eligible(s: State, x: Fiber) {
    && x !in s.fibers && x !in s.ready
    && (x == Runner ==> s.fibers == [])
    && (x.Task? ==> x in s.tasks && s.tasks[x] == Running)
    && (x in s.waits ==> x != Runner && EndedWait(s, x))
  }

  ghost predicate EndedWait(s: State, x: Fiber)
    requires x in s.waits
  {
    if s.waits[x].OnLoop? then x == Root
    else
      var o := s.waits[x].op;
      o < |s.ops| && s.ops[o].waiter == x && (s.ops[o].status == Pending ==> x == Root)
  }

  /** The invariant of the machine. */
  ghost predicate Good(s: State) {
    Ready(s, s.current) && Eligible(s, s.current) && s.current !in s.waits
  }

  lemma StartGood()
    ensures Good(START)
  {
  }

  // ---- The building blocks ----

  lemma EnterOps(s: State, x: Fiber)
    requires OpsOk(s, x) && Eligible(s, x)
    ensures OpsOk(Enter(s, x), x)
  {
    if x in s.waits && s.waits[x].OnOp? {
      var o, t := s.waits[x].op, Enter(s, x);
      WithoutNoDup(s.operations, o);
      assert forall p :: 0 <= p < |s.ops| && p != o ==> (WaitsFor(t.waits, s.ops[p].waiter, p) <==> WaitsFor(s.waits, s.ops[p].waiter, p));
    }
  }

  lemma HasMore(rs: seq<Return>, more: seq<Return>)
    ensures forall o :: HasReturn(rs, o) ==> HasReturn(rs + more, o)
    ensures forall r :: r in more ==> HasReturn(rs + more, r.op)
  {
    forall o | HasReturn(rs, o)
      ensures HasReturn(rs + more, o)
    {
      var r :| r in rs && r.op == o;
      assert r in rs + more;
    }
    assert forall r :: r in more ==> r in rs + more;
  }

  lemma EnterLog(s: State, x: Fiber)
    requires LogOk(s) && Eligible(s, x)
    ensures LogOk(Enter(s, x))
  {
    var t := Enter(s, x);
    if x in s.waits && s.waits[x].OnOp? {
      var o := s.waits[x].op;
      assert WaitsFor(s.waits, s.ops[o].waiter, o);
      forall p | 0 <= p < |s.ops| && p != o
        ensures t.ops[p] == s.ops[p] && (WaitsFor(t.waits, s.ops[p].waiter, p) <==> WaitsFor(s.waits, s.ops[p].waiter, p))
      {
      }
      var r := t.resumed[|s.resumed|];
      assert t.resumed == s.resumed + [r];
      assert forall q :: q in s.resumed ==> Faithful(s.ops, s.waits, s.wins, q) && q.op != o;
      EnterFaithful(s, x, o);
      EnterWinners(s, x, o);
      forall q | q in s.resumed
        ensures Faithful(t.ops, t.waits, t.wins, q)
      {
        assert Faithful(s.ops, s.waits, s.wins, q);
      }
      HasMore(s.resumed, [r]);
    }
  }

  lemma EnterWinners(s: State, x: Fiber, o: nat)
    requires LogOk(s) && Eligible(s, x) && x in s.waits && s.waits[x] == OnOp(o)
    ensures var t := Enter(s, x); forall w :: w in t.wins ==> Winner(t.ops, t.waits, w)
  {
    var t := Enter(s, x);
    forall w | w in t.wins
      ensures Winner(t.ops, t.waits, w)
    {
      assert Winner(s.ops, s.waits, w);
    }
  }

  /** What the resumed waiter is handed is the decision of its operation, if there is one. */
  lemma EnterFaithful(s: State, x: Fiber, o: nat)
    requires LogOk(s) && Eligible(s, x) && x in s.waits && s.waits[x] == OnOp(o)
    ensures var t := Enter(s, x); Faithful(t.ops, t.waits, t.wins, Return(o, s.ops[o].status == Resolved, s.ops[o].result))
  {
    if s.ops[o].status in {Resolved, Failed} {
      var w :| w in s.wins && w.op == o;
      assert Winner(s.ops, s.waits, w) && WaitsFor(s.waits, s.ops[o].waiter, o);
      assert w == Return(o, s.ops[o].status == Resolved, s.ops[o].result);
    }
  }

  lemma EnterPlaces(s: State, x: Fiber)
    requires StackOk(s) && ReadyOk(s) && TasksOk(s, {x}) && Eligible(s, x)
    ensures var t := Enter(s, x); StackOk(t) && ReadyOk(t) && TasksOk(t, {x})
  {
  }

  lemma EnterShape(s: State, x: Fiber)
    requires WaitShape(s.waits, s.ops, s.fibers, s.caller) && Eligible(s, x)
    ensures var t := Enter(s, x); WaitShape(t.waits, t.ops, t.fibers, t.caller)
  {
  }

  lemma EnterWaits(s: State, x: Fiber)
    requires WaitsOk(s, x) && Eligible(s, x)
    ensures WaitsOk(Enter(s, x), x)
  {
    EnterShape(s, x);
    var t := Enter(s, x);
    assert forall f :: f in t.waits ==> f in s.waits && f != x && t.waits[f] == s.waits[f];
  }

  lemma EnterGood(s: State, x: Fiber)
    requires Ready(s, x) && Eligible(s, x)
    ensures Good(Enter(s, x))
  {
    EnterOps(s, x);
    EnterLog(s, x);
    EnterPlaces(s, x);
    EnterWaits(s, x);
    assert Enter(s, x).current == x;
  }

  /** The fiber async_fiber_suspend hands control to. */
  function Next(s: State): Fiber {
    if s.fibers == [] then Runner else s.fibers[0]
  }

  lemma PopPlaces(s: State)
    requires s.fibers != [] && StackOk(s) && ReadyOk(s) && TasksOk(s, {s.fibers[0]})
    ensures StackOk(Pop(s)) && ReadyOk(Pop(s)) && TasksOk(Pop(s), {s.fibers[0]})
    ensures s.fibers[0] !in Pop(s).fibers && s.fibers[0] !in s.ready
    ensures s.fibers[0] == Runner ==> Pop(s).fibers == []
  {
    var t := Pop(s);
    assert s.fibers == [s.fibers[0]] + t.fibers;
    assert forall f :: f in s.fibers <==> f == s.fibers[0] || f in t.fibers;
  }

  lemma PopRest(s: State, x: Fiber)
    requires s.fibers != [] && WaitsOk(s, x) && OpsOk(s, x) && LogOk(s)
    ensures WaitsOk(Pop(s), x) && OpsOk(Pop(s), x) && LogOk(Pop(s))
  {
    assert forall f :: f in Pop(s).fibers ==> f in s.fibers;
  }

  lemma SuspendGood(s: State)
    requires Ready(s, Next(s)) && s.current != Runner
    ensures Good(Suspend(s)) && Suspend(s).current == Next(s)
  {
    if s.fibers == [] {
      EnterGood(s, Runner);
    } else {
      PopPlaces(s);
      PopRest(s, s.fibers[0]);
      EnterGood(Pop(s), s.fibers[0]);
    }
  }

  /** The running fiber is nowhere but in control. */
  ghost predicate InControl(s: State) {
    && s.current !in s.fibers && s.current !in s.ready && s.current !in s.waits
    && (s.current == Runner ==> s.fibers == [])
    && (s.current.Task? ==> s.current in s.tasks && s.tasks[s.current] == Running)
  }

  lemma PushPlaces(s: State, x: Fiber)
    requires StackOk(s) && ReadyOk(s) && TasksOk(s, {x, s.current}) && InControl(s)
    ensures StackOk(Push(s)) && ReadyOk(Push(s)) && TasksOk(Push(s), {x})
  {
    var t := Push(s);
    assert forall f :: f in t.fibers <==> f == s.current || f in s.fibers;
  }

  lemma PushRest(s: State, x: Fiber)
    requires WaitsOk(s, x) && OpsOk(s, x) && LogOk(s) && s.current !in s.waits
    ensures WaitsOk(Push(s), x) && OpsOk(Push(s), x) && LogOk(Push(s))
  {
    assert forall f :: f in Push(s).fibers <==> f == s.current || f in s.fibers;
  }

  /** What must hold before the running fiber switches to x. */
  ghost predicate CanSwitch(s: State, x: Fiber) {
    && StackOk(s) && ReadyOk(s) && WaitsOk(s, x) && TasksOk(s, {x, s.current}) && OpsOk(s, x) && LogOk(s)
    && Eligible(s, x) && x != s.current && x != Runner && InControl(s)
  }

  lemma SwitchGood(s: State, x: Fiber)
    requires CanSwitch(s, x)
    ensures Good(SwitchTo(s, x)) && SwitchTo(s, x).current == x
    ensures SwitchTo(s, x).fibers == [s.current] + s.fibers
  {
    PushPlaces(s, x);
    PushRest(s, x);
    assert x !in Push(s).fibers;
    EnterGood(Push(s), x);
  }

  // ---- One lemma per event ----

  lemma SpawnPlaces(s: State, f: Fiber)
    requires StackOk(s) && ReadyOk(s) && TasksOk(s, {s.current}) && WaitsOk(s, s.current)
    requires f.Task? && f !in s.tasks && f !in s.waits
    ensures var t := s.(tasks := s.tasks[f := Init], ready := s.ready + [f]);
            StackOk(t) && ReadyOk(t) && TasksOk(t, {s.current}) && WaitsOk(t, s.current) && f !in s.ready
  {
    var t := s.(tasks := s.tasks[f := Init], ready := s.ready + [f]);
    assert f !in s.ready && forall g :: g in t.ready <==> g == f || g in s.ready;
  }

  lemma SpawnGood(s: State, id: nat)
    requires Good(s)
    ensures Good(Step(s, Spawn(id)))
  {
    if Task(id) !in s.tasks {
      SpawnPlaces(s, Task(id));
    }
  }

  /** The waiting state in which async_await_op leaves its caller. */
  function Waiting(s: State, kind: Kind, inOperations: bool, mode: Mode): State {
    var f, o, own := s.current, |s.ops|, kind == AwaitOp;
    s.(ops := s.ops + [Op(f, kind, Pending, 0, true, own && mode != Atomic, false, mode == Kept)],
       operations := if own && inOperations then s.operations + [o] else s.operations,
       waits := s.waits[f := OnOp(o)],
       caller := if f.Task? then s.caller else Some(f),
       tasks := if f.Task? && own then s.tasks[f := Suspended] else s.tasks)
  }

  lemma WaitingOps(s: State, kind: Kind, inOperations: bool, mode: Mode, x: Fiber)
    requires OpsOk(s, s.current) && s.current !in s.waits && MayAwait(s, kind)
    ensures OpsOk(Waiting(s, kind, inOperations, mode), x)
  {
    var t, o := Waiting(s, kind, inOperations, mode), |s.ops|;
    assert forall p :: 0 <= p < |s.ops| && WaitsFor(s.waits, s.ops[p].waiter, p) ==> WaitsFor(t.waits, t.ops[p].waiter, p);
    assert t.ops[o].status == Pending && WaitsFor(t.waits, s.current, o);
    assert forall k :: 0 <= k < |s.operations| ==> s.operations[k] in s.operations;
  }

  lemma WaitingLog(s: State, kind: Kind, inOperations: bool, mode: Mode)
    requires LogOk(s) && s.current !in s.waits
    ensures LogOk(Waiting(s, kind, inOperations, mode))
  {
    var t, o := Waiting(s, kind, inOperations, mode), |s.ops|;
    assert forall p :: 0 <= p < |s.ops| ==> (WaitsFor(s.waits, s.ops[p].waiter, p) <==> WaitsFor(t.waits, t.ops[p].waiter, p));
    forall r | r in t.resumed
      ensures Faithful(t.ops, t.waits, t.wins, r)
    {
      assert Faithful(s.ops, s.waits, s.wins, r);
      assert t.ops[r.op] == s.ops[r.op];
    }
    forall w | w in t.wins
      ensures Winner(t.ops, t.waits, w)
    {
      assert Winner(s.ops, s.waits, w);
      assert t.ops[w.op] == s.ops[w.op];
    }
  }

  ghost predicate MayAwait(s: State, kind: Kind) {
    s.current.Task? || (s.current == Root && s.caller.None? && kind == AwaitOp)
  }

  lemma WaitingSettled(s: State, kind: Kind, inOperations: bool, mode: Mode, f: Fiber)
    requires s.current !in s.waits && (f in s.waits && s.waits[f].OnOp? ==> s.waits[f].op < |s.ops|)
    ensures SettledWait(Waiting(s, kind, inOperations, mode).waits, Waiting(s, kind, inOperations, mode).ops, f) <==> SettledWait(s.waits, s.ops, f)
  {
  }

  lemma WaitingPlaces(s: State, kind: Kind, inOperations: bool, mode: Mode)
    requires StackOk(s) && ReadyOk(s) && TasksOk(s, {s.current}) && InControl(s) && MayAwait(s, kind)
    requires forall f :: f in s.waits && s.waits[f].OnOp? ==> s.waits[f].op < |s.ops|
    ensures var t := Waiting(s, kind, inOperations, mode);
            StackOk(t) && ReadyOk(t) && TasksOk(t, {Next(t)}) && Next(t) != s.current
  {
    forall f
      ensures SettledWait(Waiting(s, kind, inOperations, mode).waits, Waiting(s, kind, inOperations, mode).ops, f) <==> SettledWait(s.waits, s.ops, f)
    {
      WaitingSettled(s, kind, inOperations, mode, f);
    }
  }

  lemma WaitingWaits(s: State, kind: Kind, inOperations: bool, mode: Mode, x: Fiber)
    requires WaitsOk(s, s.current) && InControl(s) && MayAwait(s, kind) && x != s.current
    ensures WaitsOk(Waiting(s, kind, inOperations, mode), x)
  {
    forall f
      ensures SettledWait(Waiting(s, kind, inOperations, mode).waits, Waiting(s, kind, inOperations, mode).ops, f) <==> SettledWait(s.waits, s.ops, f)
    {
      WaitingSettled(s, kind, inOperations, mode, f);
    }
  }

  lemma RunnerHasCaller(s: State)
    requires Good(s) && s.current == Runner
    ensures s.caller == Some(Root)
  {
  }

  lemma AwaitGood(s: State, kind: Kind, inOperations: bool, mode: Mode)
    requires Good(s)
    ensures Good(Step(s, Await(kind, inOperations, mode)))
  {
    var t := Waiting(s, kind, inOperations, mode);
    var n := Step(s, Await(kind, inOperations, mode));
    if s.current == Runner {
      RunnerHasCaller(s);
      assert n == s;
    } else if n != s {
      assert n == Suspend(t);
      WaitingPlaces(s, kind, inOperations, mode);
      WaitingWaits(s, kind, inOperations, mode, Next(t));
      WaitingOps(s, kind, inOperations, mode, Next(t));
      WaitingLog(s, kind, inOperations, mode);
      SuspendGood(t);
    }
  }

  /** Operation o has been decided: its record is op, and it is in the log of wins. */
  function Won(s: State, o: nat, op: Op): State
    requires o < |s.ops|
  {
    s.(ops := s.ops[o := op], operations := if op.linked then s.operations else Without(s.operations, o), wins := s.wins + [Decision(o, op)])
  }

  function Decision(o: nat, op: Op): Return {
    Return(o, op.status == Resolved, op.result)
  }

  /** What a settlement or a cancellation does to the record of a pending operation. */
  ghost predicate Decides(s: State, o: nat, op: Op) {
    && o < |s.ops| && s.ops[o].status == Pending && s.ops[o].linked
    && op.status in {Resolved, Failed} && op.waiter == s.ops[o].waiter && op.kind == s.ops[o].kind
    && (op.registered ==> s.ops[o].registered)
    && (if op.cancelled then op.status == Failed && !op.registered && s.ops[o].kind == AwaitOp else !op.linked)
  }

  lemma WonOps(s: State, o: nat, op: Op, x: Fiber)
    requires OpsOk(s, s.current) && Decides(s, o, op) && s.current !in s.waits
    requires op.cancelled ==> x == op.waiter
    ensures OpsOk(Won(s, o, op), x)
  {
    WithoutNoDup(s.operations, o);
    assert forall p :: 0 <= p < |s.ops| && WaitsFor(s.waits, s.ops[p].waiter, p) ==> WaitsFor(s.waits, s.ops[p].waiter, p);
  }

  lemma WonLog(s: State, o: nat, op: Op)
    requires LogOk(s) && Decides(s, o, op) && WaitsFor(s.waits, s.ops[o].waiter, o)
    ensures LogOk(Won(s, o, op))
  {
    var t, d := Won(s, o, op), Decision(o, op);
    forall w | w in s.wins
      ensures w.op != o && Winner(t.ops, t.waits, w)
    {
      assert Winner(s.ops, s.waits, w);
    }
    forall r | r in s.resumed
      ensures Faithful(t.ops, t.waits, t.wins, r)
    {
      assert Faithful(s.ops, s.waits, s.wins, r);
    }
    HasMore(s.wins, [d]);
    assert WaitsFor(t.waits, t.ops[o].waiter, o) && Winner(t.ops, t.waits, d);
    assert forall p :: 0 <= p < |s.ops| && WaitsFor(s.waits, s.ops[p].waiter, p) ==> WaitsFor(t.waits, t.ops[p].waiter, p);
  }

  lemma WonSettled(s: State, o: nat, op: Op, f: Fiber)
    requires Decides(s, o, op) && WaitsFor(s.waits, s.ops[o].waiter, o)
    requires f in s.waits && s.waits[f].OnOp? ==> s.waits[f].op < |s.ops| && s.ops[s.waits[f].op].waiter == f
    ensures SettledWait(s.waits, Won(s, o, op).ops, f) <==> SettledWait(s.waits, s.ops, f) || f == op.waiter
  {
  }

  /** Deciding a pending operation disturbs only its waiter. */
  lemma WonWaits(s: State, o: nat, op: Op)
    requires ReadyOk(s) && WaitsOk(s, s.current) && s.current !in s.waits
    requires Decides(s, o, op) && WaitsFor(s.waits, s.ops[o].waiter, o)
    ensures ReadyOk(Won(s, o, op)) && WaitsOk(Won(s, o, op), op.waiter)
    ensures op.waiter !in s.ready && op.waiter != s.current && op.waiter !in s.fibers && op.waiter != Runner
  {
    forall f
      ensures SettledWait(s.waits, Won(s, o, op).ops, f) <==> SettledWait(s.waits, s.ops, f) || f == op.waiter
    {
      WonSettled(s, o, op, f);
    }
    assert !SettledWait(s.waits, s.ops, op.waiter);
  }

  /** Marking the resumed task RUNNING. */
  lemma RunningPlaces(s: State, w: Fiber, xs: set<Fiber>)
    requires StackOk(s) && ReadyOk(s) && TasksOk(s, xs) && w !in s.ready
    requires w in s.waits && (w.Task? ==> w in s.tasks)
    ensures var t := SetRunning(s, w); StackOk(t) && ReadyOk(t) && TasksOk(t, xs + {w})
  {
  }

  lemma RunningWaits(s: State, w: Fiber)
    requires WaitsOk(s, w)
    ensures WaitsOk(SetRunning(s, w), w)
  {
  }

  lemma WonPlaces(s: State, o: nat, op: Op, xs: set<Fiber>)
    requires StackOk(s) && TasksOk(s, xs) && o < |s.ops|
    ensures StackOk(Won(s, o, op)) && TasksOk(Won(s, o, op), xs)
  {
  }

  /** The waiter of a decided operation is resumed at once. */
  lemma ResumeGood(s: State, o: nat, op: Op)
    requires Good(s) && Decides(s, o, op)
    ensures var t := Reschedule(Won(s, o, op), op.waiter, false);
            Good(t) && t.current == op.waiter && t.fibers == [s.current] + s.fibers
  {
    var t, w := Won(s, o, op), op.waiter;
    WonOps(s, o, op, w);
    WonLog(s, o, op);
    WonWaits(s, o, op);
    WonPlaces(s, o, op, {s.current});
    var m := SetRunning(t, w);
    assert w.Task? ==> TaskWaits(s.tasks, s.waits, s.ops, w);
    RunningPlaces(t, w, {s.current});
    RunningWaits(t, w);
    assert {s.current} + {w} == {w, s.current};
    SwitchGood(m, w);
  }

  lemma QueuedPlaces(s: State, w: Fiber, x: Fiber)
    requires StackOk(s) && ReadyOk(s) && TasksOk(s, {x}) && WaitsOk(s, w)
    requires w !in s.ready && InReady(w, s.fibers, s.tasks, s.waits, s.ops)
    requires w.Task? ==> TaskWaits(s.tasks, s.waits, s.ops, w)
    ensures var t := s.(ready := s.ready + [w]); StackOk(t) && ReadyOk(t) && TasksOk(t, {x}) && WaitsOk(t, x)
  {
    var t := s.(ready := s.ready + [w]);
    assert forall f :: f in t.ready <==> f == w || f in s.ready;
  }

  /** Or it joins the ready queue and stays suspended. */
  lemma DeferGood(s: State, o: nat, op: Op)
    requires Good(s) && Decides(s, o, op) && !op.cancelled && op.kind == AwaitOp
    ensures var t := Reschedule(Won(s, o, op), op.waiter, true);
            Good(t) && t.current == s.current && t.fibers == s.fibers && t.ready == s.ready + [op.waiter]
  {
    var t, w := Won(s, o, op), op.waiter;
    WonOps(s, o, op, s.current);
    WonLog(s, o, op);
    WonWaits(s, o, op);
    WonPlaces(s, o, op, {s.current});
    assert w.Task? ==> TaskWaits(s.tasks, s.waits, s.ops, w);
    assert SettledWait(t.waits, t.ops, w);
    assert w.Task? ==> TaskWaits(t.tasks, t.waits, t.ops, w);
    QueuedPlaces(t, w, s.current);
  }

  lemma SettleGood(s: State, o: nat, success: bool, result: int, defer: bool)
    requires Good(s) && o < |s.ops| && s.ops[o].linked
    requires defer ==> s.ops[o].kind == AwaitOp
    ensures Good(Settled(s, o, success, result, defer))
    ensures !defer && !s.ops[o].cancelled ==> Settled(s, o, success, result, defer).fibers == [s.current] + s.fibers
    ensures !defer && !s.ops[o].cancelled ==> Settled(s, o, success, result, defer).current == s.ops[o].waiter
  {
    var op := Outcome(s.ops[o], success, result);
    if s.ops[o].cancelled {
      DropGood(s, o, op);
    } else {
      var decided := op.(linked := false);
      assert s.ops[o].status == Pending;
      assert Settled(s, o, success, result, defer) == Reschedule(Won(s, o, decided), op.waiter, defer);
      if defer {
        DeferGood(s, o, decided);
      } else {
        ResumeGood(s, o, decided);
      }
    }
  }

  lemma CancelGood(s: State, o: nat, error: int)
    requires Good(s) && o < |s.ops| && s.ops[o].registered
    ensures Good(Cancelled(s, o, error))
    ensures s.ops[o].status == Pending ==> Cancelled(s, o, error).fibers == [s.current] + s.fibers
    ensures s.ops[o].status == Pending ==> Cancelled(s, o, error).current == s.ops[o].waiter
  {
    if s.ops[o].status == Pending {
      var op := Outcome(s.ops[o].(registered := false), false, error).(cancelled := true);
      assert Cancelled(s, o, error) == Reschedule(Won(s, o, op), op.waiter, false);
      ResumeGood(s, o, op);
    } else {
      LateCancelGood(s, o);
    }
  }

  /** What can still happen to the record of an operation that is decided: its cancel callback goes; and
      a cancelled one is taken off its list, with another outcome or without. */
  ghost predicate Later(s: State, o: nat, op: Op) {
    && o < |s.ops| && s.ops[o].status != Pending
    && op.waiter == s.ops[o].waiter && op.kind == s.ops[o].kind && op.cancelled == s.ops[o].cancelled
    && (op.registered ==> s.ops[o].registered) && (op.linked ==> s.ops[o].linked)
    && (if op.cancelled then op.status in {Resolved, Failed} && s.ops[o].status in {Resolved, Failed} && !WaitsFor(s.waits, op.waiter, o)
        else op.status == s.ops[o].status && op.result == s.ops[o].result)
  }

  /** A cancellation that comes after the settlement only takes the callback off its list. */
  lemma LateCancelGood(s: State, o: nat)
    requires Good(s) && o < |s.ops| && s.ops[o].status != Pending
    ensures Good(s.(ops := s.ops[o := s.ops[o].(registered := false)]))
  {
    var op := s.ops[o].(registered := false);
    LaterOps(s, o, op);
    LaterLog(s, o, op);
    LaterPlaces(s, o, op);
  }

  /** Taking a cancelled operation off its list resumes nobody, whatever outcome it shows then. */
  lemma DropGood(s: State, o: nat, op: Op)
    requires Good(s) && o < |s.ops| && s.ops[o].cancelled && s.ops[o].linked && Later(s, o, op)
    ensures Good(Dropped(s, o, op))
  {
    var dropped := op.(linked := false);
    DropOps(s, o, dropped);
    LaterLog(s, o, dropped);
    LaterPlaces(s, o, dropped);
  }

  lemma ReleaseGood(s: State, o: nat)
    requires Good(s) && o < |s.ops| && s.ops[o].cancelled && s.ops[o].linked
    ensures Good(Dropped(s, o, s.ops[o]))
  {
    DropGood(s, o, s.ops[o]);
  }

  lemma DropOps(s: State, o: nat, op: Op)
    requires OpsOk(s, s.current) && Later(s, o, op) && !op.linked && op.cancelled
    ensures OpsOk(s.(ops := s.ops[o := op], operations := Without(s.operations, o)), s.current)
  {
    WithoutNoDup(s.operations, o);
  }

  lemma LaterOps(s: State, o: nat, op: Op)
    requires OpsOk(s, s.current) && Later(s, o, op) && op.linked == s.ops[o].linked
    ensures OpsOk(s.(ops := s.ops[o := op]), s.current)
  {
  }

  lemma LaterLog(s: State, o: nat, op: Op)
    requires LogOk(s) && Later(s, o, op)
    ensures LogOk(s.(ops := s.ops[o := op]))
  {
    var ops := s.ops[o := op];
    forall r | r in s.resumed
      ensures Faithful(ops, s.waits, s.wins, r)
    {
      assert Faithful(s.ops, s.waits, s.wins, r);
    }
    forall w | w in s.wins
      ensures Winner(ops, s.waits, w)
    {
      assert Winner(s.ops, s.waits, w);
    }
  }

  lemma LaterPlaces(s: State, o: nat, op: Op)
    requires ReadyOk(s) && WaitsOk(s, s.current) && Later(s, o, op)
    ensures var t := s.(ops := s.ops[o := op]); ReadyOk(t) && WaitsOk(t, s.current)
  {
    var ops := s.ops[o := op];
    assert forall f :: SettledWait(s.waits, ops, f) <==> SettledWait(s.waits, s.ops, f);
    forall f | f in s.ready
      ensures InReady(f, s.fibers, s.tasks, s.waits, ops)
    {
      assert InReady(f, s.fibers, s.tasks, s.waits, s.ops);
    }
  }

  /** The running task becomes FINISHED and is nowhere any more. */
  lemma FinishPlaces(s: State, x: Fiber)
    requires StackOk(s) && ReadyOk(s) && TasksOk(s, {s.current}) && WaitsOk(s, s.current) && InControl(s) && s.current.Task?
    requires x == Runner || x in s.fibers
    ensures var t := s.(tasks := s.tasks[s.current := Finished]);
            StackOk(t) && ReadyOk(t) && TasksOk(t, {x}) && WaitsOk(t, x)
  {
    var t := s.(tasks := s.tasks[s.current := Finished]);
    forall f | f in s.ready
      ensures InReady(f, t.fibers, t.tasks, t.waits, t.ops)
    {
      assert InReady(f, s.fibers, s.tasks, s.waits, s.ops);
    }
  }

  lemma OpsFrom(s: State, x: Fiber)
    requires OpsOk(s, s.current) && s.current !in s.waits
    ensures OpsOk(s, x)
  {
  }

  lemma FinishGood(s: State)
    requires Good(s)
    ensures Good(Step(s, Finish))
  {
    if s.current.Task? {
      var t := s.(tasks := s.tasks[s.current := Finished]);
      FinishPlaces(s, Next(s));
      OpsFrom(s, Next(s));
      SuspendGood(t);
    }
  }

  /** The head of the ready queue is taken off and marked RUNNING. */
  function Taken(s: State): State
    requires s.ready != []
  {
    SetRunning(s.(ready := s.ready[1..]), s.ready[0])
  }

  lemma TakenReady(s: State)
    requires StackOk(s) && ReadyOk(s) && s.ready != []
    ensures StackOk(Taken(s)) && ReadyOk(Taken(s))
    ensures s.ready[0] != Runner && s.ready[0] !in s.fibers && s.ready[0] !in Taken(s).ready
    ensures forall g :: g in s.ready <==> g == s.ready[0] || g in Taken(s).ready
  {
    var t := Taken(s);
    assert s.ready == [s.ready[0]] + t.ready;
    assert InReady(s.ready[0], s.fibers, s.tasks, s.waits, s.ops);
    forall f | f in t.ready
      ensures InReady(f, t.fibers, t.tasks, t.waits, t.ops)
    {
      assert InReady(f, s.fibers, s.tasks, s.waits, s.ops);
    }
  }

  lemma TakenPlaces(s: State)
    requires TasksOk(s, {Runner}) && WaitsOk(s, Runner) && s.ready != []
    requires InReady(s.ready[0], s.fibers, s.tasks, s.waits, s.ops)
    requires forall g :: g in s.ready <==> g == s.ready[0] || g in Taken(s).ready
    ensures TasksOk(Taken(s), {s.ready[0], Runner}) && WaitsOk(Taken(s), s.ready[0])
  {
  }

  lemma DispatchGood(s: State)
    requires Good(s)
    ensures Good(Step(s, Dispatch))
    ensures s.current == Runner && s.ready != [] ==>
              Step(s, Dispatch).current == s.ready[0] && Step(s, Dispatch).fibers == [Runner]
  {
    if s.current == Runner && s.ready != [] {
      var f := s.ready[0];
      assert InReady(f, s.fibers, s.tasks, s.waits, s.ops);
      TakenReady(s);
      TakenPlaces(s);
      OpsFrom(s, f);
      SwitchGood(Taken(s), f);
    }
  }

  lemma LoopEndGood(s: State)
    requires Good(s)
    ensures Good(Step(s, LoopEnd))
  {
    if s.current == Runner && s.ready == [] && s.caller.Some? {
      OpsFrom(s, Root);
      EnterGood(s, Root);
    }
  }

  lemma RunLoopGood(s: State)
    requires Good(s)
    ensures Good(Step(s, RunLoop))
    ensures s.current == Root && s.caller.None? ==>
              Step(s, RunLoop) == Suspend(s.(caller := Some(Root), waits := s.waits[Root := OnLoop]))
  {
    if s.current == Root && s.caller.None? {
      var t := s.(caller := Some(Root), waits := s.waits[Root := OnLoop]);
      LoopPlaces(s, Next(t));
      LoopOps(s, Next(t));
      SuspendGood(t);
    }
  }

  lemma LoopPlaces(s: State, x: Fiber)
    requires StackOk(s) && ReadyOk(s) && TasksOk(s, {Root}) && WaitsOk(s, Root) && Root !in s.waits && Root !in s.fibers && Root !in s.ready
    requires x == Runner || x in s.fibers
    ensures var t := s.(caller := Some(Root), waits := s.waits[Root := OnLoop]);
            StackOk(t) && ReadyOk(t) && TasksOk(t, {x}) && WaitsOk(t, x)
  {
    var t := s.(caller := Some(Root), waits := s.waits[Root := OnLoop]);
    assert forall f :: SettledWait(t.waits, t.ops, f) <==> SettledWait(s.waits, s.ops, f);
    forall f | f in s.ready
      ensures InReady(f, t.fibers, t.tasks, t.waits, t.ops)
    {
      assert InReady(f, s.fibers, s.tasks, s.waits, s.ops);
    }
  }

  lemma LoopOps(s: State, x: Fiber)
    requires OpsOk(s, Root) && LogOk(s) && Root !in s.waits
    ensures var t := s.(caller := Some(Root), waits := s.waits[Root := OnLoop]); OpsOk(t, x) && LogOk(t)
  {
    var t := s.(caller := Some(Root), waits := s.waits[Root := OnLoop]);
    assert forall f, o :: WaitsFor(t.waits, f, o) <==> WaitsFor(s.waits, f, o);
    forall r | r in s.resumed
      ensures Faithful(t.ops, t.waits, t.wins, r)
    {
      assert Faithful(s.ops, s.waits, s.wins, r);
    }
    forall w | w in s.wins
      ensures Winner(t.ops, t.waits, w)
    {
      assert Winner(s.ops, s.waits, w);
    }
  }

  lemma DrainGood(s: State, error: int)
    requires Good(s)
    ensures Good(Step(s, DrainOp(error)))
    ensures s.operations != [] ==> s.operations[0] < |s.ops|
    ensures s.disposed && s.current == Root && s.operations != [] ==>
              Step(s, DrainOp(error)) == Settled(s, s.operations[0], false, error, false)
  {
    if s.operations != [] {
      assert s.operations[0] in s.operations;
    }
    if s.disposed && s.current == Root && s.operations != [] && s.operations[0] < |s.ops| {
      SettleGood(s, s.operations[0], false, error, false);
    }
  }

  lemma StepGood(s: State, e: Event)
    requires Good(s) && KeepsWaiter(s, e)
    ensures Good(Step(s, e))
  {
    match e
    case Spawn(id) => SpawnGood(s, id);
    case Await(kind, inOperations, mode) => AwaitGood(s, kind, inOperations, mode);
    case Settle(o, success, result, defer) =>
      if o < |s.ops| && s.ops[o].linked { SettleGood(s, o, success, result, defer); }
    case Cancel(o, error) =>
      if o < |s.ops| && s.ops[o].registered { CancelGood(s, o, error); }
    case Release(o) =>
      if o < |s.ops| && s.ops[o].cancelled && s.ops[o].linked { ReleaseGood(s, o); }
    case Finish => FinishGood(s);
    case Dispatch => DispatchGood(s);
    case LoopEnd => LoopEndGood(s);
    case RunLoop => RunLoopGood(s);
    case Dispose =>
    case DrainOp(error) => DrainGood(s, error);
  }
}
