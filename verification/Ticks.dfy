/** Tick events and the round that runs them (src/event.c:336-393, 412-505, src/task.c:1387-1508,
    1528-1536). A callback may create, start, stop, close, reference and unreference any tick; what it
    does is a script, ended by Back, which also tells whether it threw. */
module TicksObject {
  import opened Queues

  datatype ListName = InTicks | InRunning

  datatype Act = Create | Start(e: nat) | Stop(e: nat) | Close(e: nat) | Ref(e: nat) | Unref(e: nat) | Error | Back(thrown: bool)

  /** How many of the events in q are referenced. */
  function Referenced(q: seq<nat>, refs: set<nat>): (n: nat)
    ensures n <= |q|
  {
    if q == [] then 0 else (if q[0] in refs then 1 else 0) + Referenced(q[1..], refs)
  }

  lemma {:induction false} ReferencedAppend(a: seq<nat>, b: seq<nat>, refs: set<nat>)
    ensures Referenced(a + b, refs) == Referenced(a, refs) + Referenced(b, refs)
  {
    if a == [] {
      assert a + b == b;
    } else {
      assert (a + b)[1..] == a[1..] + b;
      ReferencedAppend(a[1..], b, refs);
    }
  }

  /** Taking one event out. */
  lemma {:induction false} ReferencedKeep(q: seq<nat>, e: nat, refs: set<nat>)
    requires NoDup(q)
    ensures Referenced(Keep(q, {e}), refs) == Referenced(q, refs) - (if e in q && e in refs then 1 else 0)
  {
    if q == [] {
    } else {
      assert q == [q[0]] + q[1..];
      ReferencedKeep(q[1..], e, refs);
      assert q[0] !in q[1..];
    }
  }

  /** Setting or clearing the flag of one event. */
  lemma {:induction false} ReferencedFlag(q: seq<nat>, e: nat, refs: set<nat>)
    requires NoDup(q) && e !in refs
    ensures Referenced(q, refs + {e}) == Referenced(q, refs) + (if e in q then 1 else 0)
  {
    if q == [] {
    } else {
      assert q == [q[0]] + q[1..];
      ReferencedFlag(q[1..], e, refs);
      assert q[0] !in q[1..];
    }
  }

  /** Where the script of one callback ends. */
  function Ends(script: seq<Act>): (k: nat)
    ensures k <= |script| && (forall i :: 0 <= i < k ==> !script[i].Back?) && (k < |script| ==> script[k].Back?)
  {
    if script == [] || script[0].Back? then 0 else 1 + Ends(script[1..])
  }

  /** What is left for the callbacks after it. */
  function Behind(script: seq<Act>): seq<Act> {
    if Ends(script) == |script| then [] else script[Ends(script) + 1..]
  }

  /** Whether it throws. */
  predicate Throws(script: seq<Act>) {
    Ends(script) < |script| && script[Ends(script)].thrown
  }

  lemma EndsAfter(script: seq<Act>)
    requires script != [] && !script[0].Back?
    ensures Behind(script) == Behind(script[1..]) && Throws(script) == Throws(script[1..])
  {
  }

  /** The script that is left after n callbacks, for callback n. */
  function Left(script: seq<Act>, n: nat): seq<Act> {
    if n == 0 then script else Behind(Left(script, n - 1))
  }

  /** Of n callbacks none threw, except the last one if thrown. */
  predicate ThrewLast(script: seq<Act>, n: nat, thrown: bool) {
    && (forall j :: 0 <= j < n - 1 ==> !Throws(Left(script, j)))
    && thrown == (n > 0 && Throws(Left(script, n - 1)))
  }

  lemma ThrewMore(script: seq<Act>, n: nat)
    requires ThrewLast(script, n, false)
    ensures ThrewLast(script, n + 1, Throws(Left(script, n)))
  {
  }

  /** Something in the script takes event e out of the round. */
  predicate TakenOut(script: seq<Act>, e: nat) {
    Error in script || Stop(e) in script || Close(e) in script
  }

  ghost predicate AllTakenOut(script: seq<Act>, dropped: set<nat>) {
    forall e :: e in dropped ==> TakenOut(script, e)
  }

  lemma MoreTakenOut(script: seq<Act>, rest: seq<Act>, before: set<nat>, after: set<nat>)
    requires AllTakenOut(script, before) && Within(rest, script)
    requires forall e :: e in after && e !in before ==> TakenOut(rest, e)
    ensures AllTakenOut(script, after)
  {
  }

  /** The events that ran and those still to run are the ones of the round less the dropped ones, in
      the order of the round. */
  ghost predicate RoundOk(round: seq<nat>, dropped: set<nat>, ran: seq<nat>, running: seq<nat>) {
    NoDup(round) && ran + running == Keep(round, dropped)
  }

  /** An event that has yet to run is taken out of the round. */
  lemma RoundDrop(round: seq<nat>, dropped: set<nat>, ran: seq<nat>, running: seq<nat>, e: nat)
    requires RoundOk(round, dropped, ran, running) && e in running
    ensures RoundOk(round, dropped + {e}, ran, Keep(running, {e}))
  {
    KeepNoDup(round, dropped);
    var i :| 0 <= i < |running| && running[i] == e;
    assert (ran + running)[|ran| + i] == e;
    assert forall k :: 0 <= k < |ran| ==> (ran + running)[k] == ran[k];
    KeepTwice(round, dropped, {e});
    KeepAppend(ran, running, {e});
    KeepAll(ran, {e});
  }

  class Ticks {
    var ticks: seq<nat>            // scheduler->ticks
    var running: seq<nat>          // scheduler->running
    var refticks: nat
    var count: nat                 // events created so far
    var refs: set<nat>             // ASYNC_TICK_EVENT_FLAG_REFERENCED
    var closed: set<nat>           // ASYNC_TICK_EVENT_FLAG_CLOSED
    var list: map<nat, ListName>   // event->list, for events in a list
    ghost var round: seq<nat>      // what the current round began with
    ghost var ran: seq<nat>        // events whose callback was called in it
    ghost var dropped: set<nat>    // events of it that were taken out before their turn

    /** refticks counts the referenced events in both lists; an event is in the list it points to. */
    ghost predicate Valid()
      reads this
    {
      && NoDup(ticks) && NoDup(running)
      && (forall e :: e in list <==> e in ticks || e in running)
      && (forall e :: e in ticks ==> list[e] == InTicks && e < count)
      && (forall e :: e in running ==> list[e] == InRunning && e < count)
      && refticks == Referenced(ticks, refs) + Referenced(running, refs)
      && RoundOk(round, dropped, ran, running)
    }

    /** Within a round nothing joins it and what has run stays on record. */
    twostate predicate SameRound()
      reads this
    {
      && round == old(round) && ran == old(ran) && old(dropped) <= dropped && |running| <= |old(running)|
      && (forall e :: e in running ==> e in old(running))
    }

    /** No event leaves the round but those the script takes out. */
    twostate predicate OnlyTakenOut(script: seq<Act>)
      reads this
    {
      forall e :: e in dropped && e !in old(dropped) ==> TakenOut(script, e)
    }

    /** Events that are active outside the round, and new ones, stay so unless the script takes them out. */
    twostate predicate StaysActive(script: seq<Act>)
      reads this
    {
      && old(count) <= count
      && forall e :: e in old(ticks) || old(count) <= e < count ==> e in ticks || TakenOut(script, e)
    }

    constructor ()
      ensures Valid() && ticks == [] && running == [] && refticks == 0
    {
      ticks, running, refticks, count := [], [], 0, 0;
      refs, closed, list := {}, {}, map[];
      round, ran, dropped := [], [], {};
    }

    /** activate_tick. */
    method Activate(e: nat)
      requires Valid() && e !in list && e < count
      modifies this`ticks, this`refticks, this`list
      ensures Valid() && SameRound() && ticks == old(ticks) + [e] && running == old(running)
    {
      ReferencedAppend(ticks, [e], refs);
      list := list[e := InTicks];
      ticks := ticks + [e];
      if e in refs {
        refticks := refticks + 1;
      }
    }

    /** deactivate_tick: the event leaves whichever list it is in. */
    method Deactivate(e: nat)
      requires Valid() && e in list
      modifies this`ticks, this`running, this`refticks, this`list, this`dropped
      ensures Valid() && SameRound() && list == old(list) - {e}
      ensures ticks == Keep(old(ticks), {e}) && running == Keep(old(running), {e})
      ensures dropped == old(dropped) + (if e in old(running) then {e} else {})
    {
      Forget(e);
      if list[e] == InTicks {
        ticks := Keep(ticks, {e});
      } else {
        RoundDrop(round, dropped, ran, running, e);
        dropped := dropped + {e};
        running := Keep(running, {e});
      }
      list := list - {e};
      if e in refs {
        refticks := refticks - 1;
      }
    }

    lemma Forget(e: nat)
      requires Valid() && e in list
      ensures NoDup(Keep(ticks, {e})) && NoDup(Keep(running, {e}))
      ensures forall x :: x in Keep(ticks, {e}) <==> x in ticks && x != e
      ensures forall x :: x in Keep(running, {e}) <==> x in running && x != e
      ensures |Keep(running, {e})| <= |running|
      ensures list[e] == InTicks ==> Keep(running, {e}) == running
      ensures list[e] == InRunning ==> Keep(ticks, {e}) == ticks
      ensures Referenced(Keep(ticks, {e}), refs) + Referenced(Keep(running, {e}), refs) == refticks - (if e in refs then 1 else 0)
    {
      KeepNoDup(ticks, {e});
      KeepNoDup(running, {e});
      forall x
        ensures x in Keep(ticks, {e}) <==> x in ticks && x != e
        ensures x in Keep(running, {e}) <==> x in running && x != e
      {
        KeepMembers(ticks, {e}, x);
        KeepMembers(running, {e}, x);
      }
      KeepLess(running, e);
      ReferencedKeep(ticks, e, refs);
      ReferencedKeep(running, e, refs);
      if list[e] == InTicks {
        KeepAll(running, {e});
      } else {
        KeepAll(ticks, {e});
      }
    }

    /** async_tick_event_object_create: a new event is referenced and active. */
    method CreateEvent() returns (e: nat)
      requires Valid()
      modifies this
      ensures Valid() && SameRound() && e == old(count) && count == old(count) + 1
      ensures ticks == old(ticks) + [e] && running == old(running) && dropped == old(dropped)
      ensures refs == old(refs) + {e} && closed == old(closed) - {e}
    {
      e := count;
      count := count + 1;
      closed := closed - {e};
      if e !in refs {
        ReferencedFlag(ticks, e, refs);
        ReferencedFlag(running, e, refs);
        refs := refs + {e};
      }
      Activate(e);
    }

    /** TickEvent::start, stop and close; ok is false when the event has been closed. */
    method StartEvent(e: nat) returns (ok: bool)
      requires Valid() && e < count
      modifies this`ticks, this`refticks, this`list
      ensures Valid() && SameRound() && running == old(running) && ok == (e !in closed)
      ensures ticks == if ok && e !in old(list) then old(ticks) + [e] else old(ticks)
    {
      ok := e !in closed;
      if ok && e !in list {
        Activate(e);
      }
    }

    method StopEvent(e: nat) returns (ok: bool)
      requires Valid() && e < count
      modifies this`ticks, this`running, this`refticks, this`list, this`dropped
      ensures Valid() && SameRound() && ok == (e !in closed)
      ensures ok ==> list == old(list) - {e} && ticks == Keep(old(ticks), {e}) && running == Keep(old(running), {e})
      ensures ok ==> dropped == old(dropped) + (if e in old(running) then {e} else {})
      ensures !ok ==> list == old(list) && ticks == old(ticks) && running == old(running) && dropped == old(dropped)
    {
      ok := e !in closed;
      if ok {
        Leave(e);
      }
    }

    /** An event leaves its list, if it is in one. */
    method Leave(e: nat)
      requires Valid() && e < count
      modifies this`ticks, this`running, this`refticks, this`list, this`dropped
      ensures Valid() && SameRound() && list == old(list) - {e}
      ensures ticks == Keep(old(ticks), {e}) && running == Keep(old(running), {e})
      ensures dropped == old(dropped) + (if e in old(running) then {e} else {})
    {
      if e in list {
        Deactivate(e);
      } else {
        KeepAll(ticks, {e});
        KeepAll(running, {e});
      }
    }

    method CloseEvent(e: nat)
      requires Valid() && e < count
      modifies this
      ensures Valid() && SameRound() && closed == old(closed) + {e} && refs == old(refs) && count == old(count)
      ensures list == old(list) - {e} && ticks == Keep(old(ticks), {e}) && running == Keep(old(running), {e})
      ensures dropped == old(dropped) + (if e in old(running) then {e} else {})
    {
      closed := closed + {e};
      Leave(e);
    }

    /** TickEvent::ref and unref. */
    method RefEvent(e: nat) returns (ok: bool)
      requires Valid() && e < count
      modifies this`refs, this`refticks
      ensures Valid() && SameRound() && ok == (e !in closed)
      ensures refs == (if ok then old(refs) + {e} else old(refs))
    {
      ok := e !in closed;
      if ok && e !in refs {
        ReferencedFlag(ticks, e, refs);
        ReferencedFlag(running, e, refs);
        refs := refs + {e};
        if e in list {
          refticks := refticks + 1;
        }
      }
    }

    method UnrefEvent(e: nat) returns (ok: bool)
      requires Valid() && e < count
      modifies this`refs, this`refticks
      ensures Valid() && SameRound() && ok == (e !in closed)
      ensures refs == (if ok then old(refs) - {e} else old(refs))
    {
      ok := e !in closed;
      if ok && e in refs {
        ReferencedFlag(ticks, e, refs - {e});
        ReferencedFlag(running, e, refs - {e});
        assert refs - {e} + {e} == refs;
        refs := refs - {e};
        if e in list {
          refticks := refticks - 1;
        }
      }
    }

    /** dispose_ticks: both lists are emptied. */
    method DisposeTicks()
      requires Valid()
      modifies this`ticks, this`running, this`refticks, this`list, this`dropped
      ensures Valid() && SameRound() && ticks == [] && running == [] && refticks == 0
      ensures forall e :: e in dropped <==> e in old(dropped) || e in old(running)
    {
      while running != []
        invariant Valid() && SameRound() && ticks == old(ticks)
        invariant forall e :: e in dropped || e in running <==> e in old(dropped) || e in old(running)
        decreases |running|
      {
        KeepLess(running, running[0]);
        assert forall e :: e in ticks ==> list[e] == InTicks;
        var e := running[0];
        assert e in running && list[e] == InRunning;
        Forget(e);
        Deactivate(e);
      }
      while ticks != []
        invariant Valid() && SameRound() && running == []
        invariant forall e :: e in dropped <==> e in old(dropped) || e in old(running)
        decreases |ticks|
      {
        KeepLess(ticks, ticks[0]);
        var e := ticks[0];
        assert e in ticks;
        Forget(e);
        Deactivate(e);
      }
    }

    /** What a callback does, up to its end. */
    method Others(script: seq<Act>) returns (rest: seq<Act>, thrown: bool)
      requires Valid()
      modifies this
      ensures Valid() && SameRound() && Within(rest, script) && OnlyTakenOut(script)
      ensures StaysActive(script)
      ensures rest == Behind(script) && thrown == Throws(script)
      ensures thrown ==> Back(true) in script
      ensures script == [] ==> rest == [] && !thrown && unchanged(this)
    {
      rest, thrown := script, false;
      while rest != [] && !rest[0].Back?
        invariant Valid() && SameRound() && Within(rest, script) && OnlyTakenOut(script)
        invariant StaysActive(script)
        invariant Behind(rest) == Behind(script) && Throws(rest) == Throws(script)
        invariant script == [] ==> unchanged(this)
        decreases |rest|
      {
        EndsAfter(rest);
        Do(rest[0]);
        rest := rest[1..];
      }
      if rest != [] {
        thrown := rest[0].thrown;
        rest := rest[1..];
      }
    }

    method Do(act: Act)
      requires Valid()
      modifies this
      ensures Valid() && SameRound() && OnlyTakenOut([act]) && StaysActive([act])
      ensures act.Create? ==> ticks == old(ticks) + [old(count)]
      ensures act.Start? && act.e < old(count) && act.e !in closed ==> act.e in list
      ensures act.Stop? && act.e < old(count) && act.e !in closed ==> act.e !in list
      ensures act.Close? && act.e < old(count) ==> act.e !in list && act.e in closed
      ensures act.Error? ==> ticks == [] && running == []
    {
      forall x
        ensures x in ticks ==> x in Keep(ticks, if act.Stop? || act.Close? then {act.e} else {}) || TakenOut([act], x)
      {
        KeepMembers(ticks, if act.Stop? || act.Close? then {act.e} else {}, x);
      }
      match act
      case Create => var _ := CreateEvent();
      case Start(e) => if e < count { var _ := StartEvent(e); }
      case Stop(e) => if e < count { var _ := StopEvent(e); }
      case Close(e) => if e < count { CloseEvent(e); }
      case Ref(e) => if e < count { var _ := RefEvent(e); }
      case Unref(e) => if e < count { var _ := UnrefEvent(e); }
      case Error => DisposeTicks();
      case Back(_) =>
    }

    /** The list of ticks becomes the list of the round. */
    method BeginRound()
      requires Valid() && running == [] && ticks != []
      modifies this`ticks, this`running, this`list, this`round, this`ran, this`dropped
      ensures Valid() && running == round == old(ticks) && ticks == [] && ran == [] && dropped == {}
    {
      var moved := Moved(ticks, list);
      KeepAll(ticks, {});
      ghost var all := ticks;
      list, running, ticks := moved, ticks, [];
      round, ran, dropped := all, [], {};
      assert [] + all == all;
    }

    /** The loop that points the events at their new list. */
    static method Moved(q: seq<nat>, from: map<nat, ListName>) returns (to: map<nat, ListName>)
      ensures forall e :: e in to <==> e in from || e in q
      ensures forall e :: e in q ==> to[e] == InRunning
    {
      to := from;
      for i := 0 to |q|
        invariant forall e :: e in to <==> e in from || e in q[..i]
        invariant forall k :: 0 <= k < i ==> to[q[k]] == InRunning
      {
        to := to[q[i] := InRunning];
      }
      assert q[..|q|] == q;
    }

    /** The head of the round is taken off, as its callback is about to be called. */
    method TakeHead() returns (e: nat)
      requires Valid() && running != []
      modifies this`running, this`refticks, this`list, this`ran
      ensures Valid() && e == old(running)[0] && running == old(running)[1..] && ran == old(ran) + [e]
      ensures e !in list && list == old(list) - {e}
    {
      e := running[0];
      assert running == [e] + running[1..];
      assert e in running && e !in running[1..];
      assert (ran + [e]) + running[1..] == ran + running;
      running := running[1..];
      list := list - {e};
      if e in refs {
        refticks := refticks - 1;
      }
      ran := ran + [e];
    }

    /** The head is called; thrown tells whether its callback threw. */
    method RunHead(script: seq<Act>) returns (rest: seq<Act>, thrown: bool)
      requires Valid() && running != []
      modifies this
      ensures Valid() && round == old(round) && |running| < |old(running)| && Within(rest, script) && StaysActive(script)
      ensures forall e :: e in dropped && e !in old(dropped) ==> TakenOut(script, e)
      ensures ran == old(ran) + [old(running)[0]] && rest == Behind(script) && thrown == Throws(script)
      ensures thrown ==> Back(true) in script
      ensures script == [] ==> !thrown && rest == [] && dropped == old(dropped) && ticks == old(ticks)
    {
      var _ := TakeHead();
      rest, thrown := Others(script);
    }

    /** run_ticks: the callbacks of the events that were in the list when the round began are called, in
        order, except those taken out before their turn. What is started meanwhile stays in ticks. */
    method RunTicks(script: seq<Act>) returns (thrown: bool, rest: seq<Act>)
      requires Valid() && running == [] && ticks != []
      modifies this
      ensures Valid() && round == old(ticks) && NoDup(ran) && Within(rest, script)
      ensures AllTakenOut(script, dropped)
      ensures rest == Left(script, |ran|) && ThrewLast(script, |ran|, thrown)
      ensures thrown ==> Back(true) in script && ran != []
      ensures !thrown ==> running == [] && ran == Keep(old(ticks), dropped)
      ensures thrown ==> ran + running == Keep(old(ticks), dropped)
      ensures script == [] ==> !thrown && ran == old(ticks) && ticks == [] && refticks == 0
      ensures forall e :: old(count) <= e < count ==> e in ticks || TakenOut(script, e)
    {
      rest, thrown := script, false;
      BeginRound();
      while running != [] && !thrown
        invariant Valid() && Midway(old(ticks), script, rest, thrown) && old(count) <= count
        invariant forall e :: old(count) <= e < count ==> e in ticks || TakenOut(script, e)
        decreases |running|
      {
        ghost var left := rest;
        rest, thrown := Turn(old(ticks), script, rest);
        assert forall e :: TakenOut(left, e) ==> TakenOut(script, e);
      }
      RanOnce();
      assert !thrown ==> ran + running == ran;
      KeepAll(round, {});
    }

    /** The round that began with the events in start has called |ran| callbacks, none of which threw but,
        if thrown, the last one. */
    ghost predicate Midway(start: seq<nat>, script: seq<Act>, rest: seq<Act>, thrown: bool)
      reads this
    {
      && round == start && Within(rest, script) && AllTakenOut(script, dropped)
      && rest == Left(script, |ran|) && ThrewLast(script, |ran|, thrown)
      && (thrown ==> Back(true) in script)
      && (script == [] ==> !thrown && rest == [] && dropped == {} && ticks == [])
    }

    method Turn(ghost start: seq<nat>, ghost script: seq<Act>, left: seq<Act>) returns (rest: seq<Act>, thrown: bool)
      requires Valid() && running != [] && Midway(start, script, left, false)
      modifies this
      ensures Valid() && |running| < |old(running)| && Midway(start, script, rest, thrown)
      ensures StaysActive(left)
    {
      ThrewMore(script, |ran|);
      rest, thrown := RunHead(left);
      MoreTakenOut(script, left, old(dropped), dropped);
    }

    /** Nothing runs twice in a round. */
    lemma RanOnce()
      requires Valid()
      ensures NoDup(ran)
    {
      KeepNoDup(round, dropped);
      assert forall k :: 0 <= k < |ran| ==> (ran + running)[k] == ran[k];
    }

    /** One turn of the loop in run_scheduler_fiber. The events that the script stops, closes or, through
        an error, disposes of are out; of the others all run, or, when a callback throws, the first
        ones up to that callback, and what was left is dropped. */
    method Round(script: seq<Act>) returns (thrown: bool, rest: seq<Act>, ghost stopped: set<nat>)
      requires Valid() && running == []
      modifies this
      ensures Valid() && running == []
      ensures forall e :: e in stopped ==> TakenOut(script, e)
      ensures thrown ==> Back(true) in script && ticks == [] && refticks == 0
      ensures old(ticks) != [] ==> rest == Left(script, |ran|) && ThrewLast(script, |ran|, thrown)
      ensures old(ticks) != [] ==>
                && round == old(ticks) && NoDup(ran)
                && (if thrown then ran != [] && ran <= Keep(old(ticks), stopped) else ran == Keep(old(ticks), stopped))
      ensures !thrown ==> forall e :: old(count) <= e < count ==> e in ticks || TakenOut(script, e)
      ensures old(ticks) == [] ==> unchanged(this) && !thrown
    {
      thrown, rest, stopped := false, script, {};
      if ticks != [] {
        thrown, rest := RunTicks(script);
        stopped := dropped;
        if thrown {
          DisposeTicks();
        }
      }
    }
  }
}
