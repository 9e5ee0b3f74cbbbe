/** One channel as a machine of atomic steps (src/channel.c).
    The C code runs until it finishes an operation, which resumes another task on the spot; each
    event below is the code between two such points. Tasks may therefore interleave at every
    event boundary, so a statement about every run covers every nesting of resumed tasks. */
module ChannelSpec {
  import opened Queues

  type Value = int
  type Error = int

  /** A value handed to the iterator that fetched it. */
  datatype Delivery = Delivery(entry: Entry<Value>, receiver: nat, waiter: Option<nat>)

  /** The fields of async_channel_state, then the history the theorems speak about: every value
      accepted by a send, the tickets withdrawn before delivery, every delivery, every
      registration of a receiver, the registrations served by a send, those that left the queue
      unserved, and how many registrations there were when a close had resumed the receivers. */
  datatype Chan = Chan(
    capacity: nat,
    buffer: seq<Entry<Value>>,
    senders: seq<Entry<Value>>,
    receivers: seq<Entry<nat>>,
    closed: bool,
    error: Option<Error>,
    offers: seq<Entry<Value>>,
    gone: set<nat>,
    delivered: seq<Delivery>,
    waits: seq<Entry<nat>>,
    served: seq<Entry<nat>>,
    left: set<nat>,
    shut: Option<nat>)

  datatype Event =
    | Send(value: Value)          // Channel::send
    | Offer(offered: Value)       // a blocked ChannelGroup::send registers with this member
    | Fetch(it: nat)              // fetch_next_entry of an iterator
    | Poll(poller: nat)           // fetch_noblock by a ChannelGroup::select that does not wait
    | Listen(listener: nat)       // a ChannelGroup::select registers its iterator for this member
    | Retract(ticket: nat)        // a blocked sender is unlinked: cancelled, timed out or beaten
    | Unqueue(waiter: nat)        // a blocked receiver is unlinked
    | Close(reason: Option<Error>)
    | DrainReceiver               // one turn of the first loop of dispose_state
    | EndDrain                    // that loop is over
    | DrainSender                 // one turn of its second loop

  function Open(capacity: nat): Chan {
    Chan(capacity, [], [], [], false, None, [], {}, [], [], [], {}, None)
  }

  predicate Fetching(s: Chan, it: nat) {
    exists i :: 0 <= i < |s.receivers| && s.receivers[i].item == it
  }

  /** ASYNC_CHANNEL_READABLE: the guard in front of every fetch. */
  predicate Readable(s: Chan) {
    !s.closed || s.receivers != [] || s.buffer != []
  }

  function Block(s: Chan, v: Value): Chan {
    var e := Entry(|s.offers|, v);
    s.(senders := s.senders + [e], offers := s.offers + [e])
  }

  function Queue(s: Chan, it: nat): Chan {
    var w := Entry(|s.waits|, it);
    s.(receivers := s.receivers + [w], waits := s.waits + [w])
  }

  /** Channel::send: first receiver, then buffer, then the queue of senders. */
  function Sent(s: Chan, v: Value): Chan {
    var e := Entry(|s.offers|, v);
    if s.closed || s.error.Some? then s
    else if s.receivers != [] then
      s.(receivers := s.receivers[1..], offers := s.offers + [e], served := s.served + [s.receivers[0]],
         delivered := s.delivered + [Delivery(e, s.receivers[0].item, Some(s.receivers[0].ticket))])
    else if |s.buffer| < s.capacity then s.(buffer := s.buffer + [e], offers := s.offers + [e])
    else Block(s, v)
  }

  /** fetch_noblock. */
  function Taken(s: Chan, it: nat): Chan
    requires s.buffer != [] || s.senders != []
  {
    if s.buffer != [] then
      var t := s.(delivered := s.delivered + [Delivery(s.buffer[0], it, None)]);
      if s.senders != [] then t.(buffer := s.buffer[1..] + [s.senders[0]], senders := s.senders[1..])
      else t.(buffer := s.buffer[1..])
    else
      s.(delivered := s.delivered + [Delivery(s.senders[0], it, None)], senders := s.senders[1..])
  }

  function Fetched(s: Chan, it: nat): Chan {
    if !Readable(s) || Fetching(s, it) then s
    else if s.buffer != [] || s.senders != [] then Taken(s, it)
    else Queue(s, it)
  }

  function Step(s: Chan, e: Event): Chan {
    match e
    case Send(v) => Sent(s, v)
    case Offer(v) => if s.closed then s else Block(s, v)
    case Fetch(it) => Fetched(s, it)
    case Poll(it) => if s.buffer != [] || s.senders != [] then Taken(s, it) else s
    case Listen(it) => Queue(s, it)
    case Retract(t) =>
      if Has(s.senders, t)
      then s.(senders := Live(s.senders, {t}), gone := s.gone + {t}) else s
    case Unqueue(w) =>
      if Has(s.receivers, w)
      then s.(receivers := Live(s.receivers, {w}), left := s.left + {w}) else s
    case Close(reason) =>
      if s.closed then s else s.(closed := true, error := reason)
    case DrainReceiver =>
      if s.closed && s.shut.None? && s.receivers != []
      then s.(receivers := s.receivers[1..], left := s.left + {s.receivers[0].ticket}) else s
    case EndDrain =>
      if s.closed && s.shut.None? && s.receivers == [] then s.(shut := Some(|s.waits|)) else s
    case DrainSender =>
      if s.closed && s.senders != []
      then s.(senders := s.senders[1..], gone := s.gone + {s.senders[0].ticket}) else s
  }

  // ---- What every step keeps ----

  function Entries(ds: seq<Delivery>): seq<Entry<Value>> {
    seq(|ds|, i requires 0 <= i < |ds| => ds[i].entry)
  }

  /** First in, first out: what was accepted and not withdrawn is, in order, what was delivered,
      then what is buffered, then what the blocked senders hold. The waiting receivers obey the
      same law. */
  ghost predicate Fifo(s: Chan) {
    && Ledger(s.offers, s.gone, Entries(s.delivered) + s.buffer + s.senders)
    && Ledger(s.waits, s.left, s.served + s.receivers)
  }

  /** Nobody waits needlessly: a receiver waits only on an idle channel, a sender only on a full
      buffer. For capacity 0 the buffer is always both empty and full. */
  predicate NoNeedlessWait(s: Chan) {
    && |s.buffer| <= s.capacity
    && (s.receivers != [] ==> s.buffer == [] && s.senders == [])
    && (s.senders != [] ==> |s.buffer| == s.capacity)
  }

  /** When a group registration meets the expectations of the channel it joins: a sender is
      registered only where it must block, a listener only where there is nothing to take. */
  predicate Courteous(s: Chan, e: Event) {
    match e
    case Offer(_) => s.receivers == [] && |s.buffer| == s.capacity
    case Listen(_) => s.buffer == [] && s.senders == []
    case _ => true
  }

  /** The channel after a run, if every group registration in it was courteous. */
  function Run(s: Chan, trace: seq<Event>): Option<Chan> {
    if trace == [] then Some(s)
    else
      var (before, e) := (Run(s, trace[..|trace| - 1]), trace[|trace| - 1]);
      if before.Some? && Courteous(before.value, e) then Some(Step(before.value, e)) else None
  }

  lemma RunMore(s: Chan, trace: seq<Event>, m: Chan, e: Event)
    requires Run(s, trace) == Some(m) && Courteous(m, e)
    ensures Run(s, trace + [e]) == Some(Step(m, e))
  {
    assert (trace + [e])[..|trace|] == trace;
  }

  lemma StepWaits(s: Chan, e: Event)
    requires NoNeedlessWait(s) && Courteous(s, e)
    ensures NoNeedlessWait(Step(s, e))
  {
  }

  /** When a step can be taken without letting a value overtake an earlier one: only a send can, by
      reaching a receiver past held values, or the buffer past blocked senders. */
  predicate Orderly(s: Chan, e: Event) {
    e.Send? && !s.closed && s.error.None? ==>
      if s.receivers != [] then s.buffer == [] && s.senders == []
      else |s.buffer| < s.capacity ==> s.senders == []
  }

  lemma FifoSend(s: Chan, v: Value)
    requires Fifo(s) && Orderly(s, Send(v))
    ensures Fifo(Step(s, Send(v)))
  {
    var e := Entry(|s.offers|, v);
    LedgerAccept(s.offers, s.gone, Entries(s.delivered) + s.buffer + s.senders, v);
    if s.closed || s.error.Some? {
    } else if s.receivers != [] {
      var r := Delivery(e, s.receivers[0].item, Some(s.receivers[0].ticket));
      assert Entries(s.delivered + [r]) + s.buffer + s.senders == Entries(s.delivered) + s.buffer + s.senders + [e];
      assert s.served + [s.receivers[0]] + s.receivers[1..] == s.served + s.receivers;
    } else {
      assert s.senders == [] ==>
          Entries(s.delivered) + (s.buffer + [e]) + s.senders == Entries(s.delivered) + s.buffer + s.senders + [e];
      assert Entries(s.delivered) + s.buffer + (s.senders + [e]) == Entries(s.delivered) + s.buffer + s.senders + [e];
    }
  }

  lemma FifoAscending(s: Chan)
    ensures Fifo(s) ==> Ascending(Entries(s.delivered) + s.buffer + s.senders)
  {
    if Fifo(s) {
      LedgerFacts(s.offers, s.gone, Entries(s.delivered) + s.buffer + s.senders);
    }
  }

  lemma DisorderlySend(s: Chan, v: Value)
    requires Fifo(s) && !Orderly(s, Send(v))
    ensures !Fifo(Step(s, Send(v)))
  {
    var t, d := Step(s, Send(v)), Entries(s.delivered);
    var before, after := d + s.buffer + s.senders, Entries(t.delivered) + t.buffer + t.senders;
    LedgerFacts(s.offers, s.gone, before);
    var n := if s.receivers != [] then |d| else |d| + |s.buffer|;
    assert after[n] == Entry(|s.offers|, v) && after[n + 1] == before[n];
    FifoAscending(t);
  }

  /** Taking a value moves it from the front of what the channel holds to the end of what was
      delivered. */
  lemma TakenConserves(s: Chan, it: nat)
    requires s.buffer != [] || s.senders != []
    ensures var t := Taken(s, it);
            Entries(t.delivered) + t.buffer + t.senders == Entries(s.delivered) + s.buffer + s.senders
  {
    var t := Taken(s, it);
    var e := if s.buffer != [] then s.buffer[0] else s.senders[0];
    assert Entries(t.delivered) == Entries(s.delivered) + [e];
    assert [e] + t.buffer + t.senders == s.buffer + s.senders;
  }

  lemma FifoQueue(s: Chan, it: nat)
    requires Fifo(s)
    ensures Fifo(Queue(s, it))
  {
    LedgerAccept(s.waits, s.left, s.served + s.receivers, it);
    var w := Entry(|s.waits|, it);
    assert s.served + (s.receivers + [w]) == s.served + s.receivers + [w];
  }

  lemma FifoOffer(s: Chan, v: Value)
    requires Fifo(s)
    ensures Fifo(Block(s, v))
  {
    var e := Entry(|s.offers|, v);
    LedgerAccept(s.offers, s.gone, Entries(s.delivered) + s.buffer + s.senders, v);
    assert Entries(s.delivered) + s.buffer + (s.senders + [e]) == Entries(s.delivered) + s.buffer + s.senders + [e];
  }

  lemma StepFifo(s: Chan, e: Event)
    requires Fifo(s) && Orderly(s, e)
    ensures Fifo(Step(s, e))
  {
    match e
    case Send(v) => FifoSend(s, v);
    case Offer(v) => FifoOffer(s, v);
    case Fetch(it) =>
      FifoQueue(s, it);
      if s.buffer != [] || s.senders != [] {
        TakenConserves(s, it);
      }
    case Poll(it) =>
      if s.buffer != [] || s.senders != [] {
        TakenConserves(s, it);
      }
    case Listen(it) => FifoQueue(s, it);
    case Retract(t) =>
      if Has(s.senders, t) {
        LedgerRetract(s.offers, s.gone, Entries(s.delivered) + s.buffer, s.senders, t);
      }
    case Unqueue(w) =>
      if Has(s.receivers, w) {
        LedgerRetract(s.waits, s.left, s.served, s.receivers, w);
      }
    case Close(_) =>
    case DrainReceiver =>
      if s.receivers != [] {
        LedgerDropHead(s.waits, s.left, s.served, s.receivers);
      }
    case EndDrain =>
    case DrainSender =>
      if s.senders != [] {
        LedgerDropHead(s.offers, s.gone, Entries(s.delivered) + s.buffer, s.senders);
      }
  }

  /** A step keeps the order of acceptance exactly when it is orderly. */
  lemma StepKeepsOrderIff(s: Chan, e: Event)
    requires Fifo(s)
    ensures Fifo(Step(s, e)) <==> Orderly(s, e)
  {
    if Orderly(s, e) {
      StepFifo(s, e);
    } else {
      DisorderlySend(s, e.value);
    }
  }

  /** History only grows. */
  lemma StepHistory(s: Chan, e: Event)
    ensures s.offers <= Step(s, e).offers && s.delivered <= Step(s, e).delivered
    ensures s.closed ==> Step(s, e).closed && Step(s, e).error == s.error
  {
  }

  // ---- What each operation leaves, field by field ----

  /** A send to an open channel reaches the receiver that queued first, else the end of the buffer, else the
      end of the queue of senders; a closed one refuses it. */
  lemma SendLeaves(s: Chan, v: Value)
    requires NoNeedlessWait(s) && (s.error.Some? ==> s.closed)
    ensures var n, e := Step(s, Send(v)), Entry(|s.offers|, v);
            && (s.closed ==> n == s)
            && (!s.closed ==> n.offers == s.offers + [e])
            && (!s.closed && s.receivers != [] ==>
                  n == s.(receivers := s.receivers[1..], served := s.served + [s.receivers[0]], offers := n.offers,
                          delivered := s.delivered + [Delivery(e, s.receivers[0].item, Some(s.receivers[0].ticket))]))
            && (!s.closed && s.receivers == [] ==> n == s.(buffer := n.buffer, senders := n.senders, offers := n.offers))
            && (!s.closed && s.receivers == [] ==> n.buffer + n.senders == s.buffer + s.senders + [e])
            && (!s.closed && s.receivers == [] && |s.buffer| < s.capacity ==> n.senders == [])
            && (!s.closed && s.receivers == [] && |s.buffer| == s.capacity ==> n.buffer == s.buffer)
  {
    assert s.buffer + (s.senders + [Entry(|s.offers|, v)]) == s.buffer + s.senders + [Entry(|s.offers|, v)];
  }

  /** A fetch ends when the channel is closed and has nothing left, does nothing while the iterator is
      fetching already, and otherwise takes what the channel holds longest or waits at the end of the
      queue. The buffer shrinks only when no sender is blocked. */
  lemma FetchLeaves(s: Chan, it: nat)
    ensures var n, held := Step(s, Fetch(it)), s.buffer + s.senders;
            var ended := s.closed && s.receivers == [] && s.buffer == [];
            && (ended || Fetching(s, it) ==> n == s)
            && (!ended && !Fetching(s, it) && held == [] ==>
                  n == s.(receivers := s.receivers + [Entry(|s.waits|, it)], waits := s.waits + [Entry(|s.waits|, it)]))
            && (!ended && !Fetching(s, it) && held != [] ==> TakesFirst(s, n, it))
  {
    var n := Step(s, Fetch(it));
    if s.buffer + s.senders != [] && n != s {
      TakenLeaves(s, it);
    }
  }

  /** n is s after the iterator took what s holds longest. */
  ghost predicate TakesFirst(s: Chan, n: Chan, it: nat)
    requires s.buffer + s.senders != []
  {
    && n == s.(buffer := n.buffer, senders := n.senders, delivered := s.delivered + [Delivery((s.buffer + s.senders)[0], it, None)])
    && n.buffer + n.senders == (s.buffer + s.senders)[1..]
    && |n.buffer| == if s.senders == [] then |s.buffer| - 1 else |s.buffer|
  }

  lemma TakenLeaves(s: Chan, it: nat)
    requires s.buffer + s.senders != []
    ensures TakesFirst(s, Taken(s, it), it)
  {
    var n, held := Taken(s, it), s.buffer + s.senders;
    if s.buffer != [] && s.senders != [] {
      assert n.buffer + n.senders == s.buffer[1..] + ([s.senders[0]] + s.senders[1..]);
      assert s.senders == [s.senders[0]] + s.senders[1..];
    }
    assert n.buffer + n.senders == held[1..];
  }

  /** The poll of a group select takes the same value, whoever is fetching and whether or not the channel
      is closed. */
  lemma PollLeaves(s: Chan, it: nat)
    ensures if s.buffer + s.senders == [] then Step(s, Poll(it)) == s else TakesFirst(s, Step(s, Poll(it)), it)
  {
    if s.buffer + s.senders != [] {
      TakenLeaves(s, it);
    }
  }

  /** The registrations of a group go to the ends of the queues, whatever the channel holds. */
  lemma RegistrationLeaves(s: Chan, v: Value, it: nat)
    ensures Step(s, Offer(v)) ==
            if s.closed then s else s.(senders := s.senders + [Entry(|s.offers|, v)], offers := s.offers + [Entry(|s.offers|, v)])
    ensures Step(s, Listen(it)) ==
            s.(receivers := s.receivers + [Entry(|s.waits|, it)], waits := s.waits + [Entry(|s.waits|, it)])
  {
  }

  /** A blocked sender or receiver that gives up takes away its own entry and no other. */
  lemma WithdrawalLeaves(s: Chan, ticket: nat)
    ensures var n := Step(s, Retract(ticket));
            && n == s.(senders := n.senders, gone := if Has(s.senders, ticket) then s.gone + {ticket} else s.gone)
            && forall e :: e in n.senders <==> e in s.senders && e.ticket != ticket
    ensures var n := Step(s, Unqueue(ticket));
            && n == s.(receivers := n.receivers, left := if Has(s.receivers, ticket) then s.left + {ticket} else s.left)
            && forall e :: e in n.receivers <==> e in s.receivers && e.ticket != ticket
  {
    forall e
      ensures e in Live(s.senders, {ticket}) <==> e in s.senders && e.ticket != ticket
    {
      LiveMembers(s.senders, {ticket}, e);
    }
    forall e
      ensures e in Live(s.receivers, {ticket}) <==> e in s.receivers && e.ticket != ticket
    {
      LiveMembers(s.receivers, {ticket}, e);
    }
    assert forall e :: e in s.senders && e.ticket == ticket ==> Has(s.senders, ticket);
    assert forall e :: e in s.receivers && e.ticket == ticket ==> Has(s.receivers, ticket);
  }

  /** The first close sets the flag and the error and touches nothing else; later ones do nothing. Then
      the receivers leave from the front of their queue, then the senders from theirs. */
  lemma CloseLeaves(s: Chan, reason: Option<Error>)
    ensures Step(s, Close(reason)) == if s.closed then s else s.(closed := true, error := reason)
    ensures s.closed && s.shut.None? && s.receivers != [] ==>
              Step(s, DrainReceiver) == s.(receivers := s.receivers[1..], left := s.left + {s.receivers[0].ticket})
    ensures s.closed && s.shut.None? && s.receivers == [] ==> Step(s, EndDrain) == s.(shut := Some(|s.waits|))
    ensures s.closed && s.senders != [] ==>
              Step(s, DrainSender) == s.(senders := s.senders[1..], gone := s.gone + {s.senders[0].ticket})
  {
  }

  // ---- Over whole runs ----

  /** A channel refines a queue and never blocks needlessly, in every state of every run. */
  lemma {:induction false} EveryRun(capacity: nat, trace: seq<Event>, s: Chan)
    requires Run(Open(capacity), trace) == Some(s)
    ensures Fifo(s) && NoNeedlessWait(s) && s.capacity == capacity
    ensures s.error.Some? || s.shut.Some? ==> s.closed
  {
    if trace == [] {
    } else {
      var before := Run(Open(capacity), trace[..|trace| - 1]).value;
      EveryRun(capacity, trace[..|trace| - 1], before);
      StepFifo(before, trace[|trace| - 1]);
      StepWaits(before, trace[|trace| - 1]);
    }
  }

  /** Where a value is, read off the four places it can be. */
  predicate IsDelivered(s: Chan, ticket: nat) {
    exists i :: 0 <= i < |s.delivered| && s.delivered[i].entry.ticket == ticket
  }

  predicate IsHeld(s: Chan, ticket: nat) {
    Has(s.buffer, ticket) || Has(s.senders, ticket)
  }

  /** Every accepted value is exactly one of delivered, held by the channel, or withdrawn. */
  lemma OneFate(s: Chan, ticket: nat)
    requires Fifo(s) && ticket < |s.offers|
    ensures IsDelivered(s, ticket) <==> ticket !in s.gone && !IsHeld(s, ticket)
    ensures IsHeld(s, ticket) ==> ticket !in s.gone
  {
    var out, held := Entries(s.delivered), s.buffer + s.senders;
    assert out + s.buffer + s.senders == out + held;
    LedgerFacts(s.offers, s.gone, out + held);
    assert IsHeld(s, ticket) <==> Has(held, ticket) by {
      HasConcat(s.buffer, s.senders, ticket);
    }
    assert IsDelivered(s, ticket) <==> Has(out, ticket) by {
      assert forall i :: 0 <= i < |out| ==> out[i] == s.delivered[i].entry;
    }
    HasConcat(out, held, ticket);
    AscendingOnce(out, held, ticket);
    if ticket !in s.gone {
      var i :| 0 <= i < |out + held| && (out + held)[i] == s.offers[ticket];
    }
  }

  /** No value reaches two receivers, deliveries come in acceptance order, and each one carries
      the value that was sent. */
  lemma DeliveredOnceInOrder(s: Chan, i: nat, j: nat)
    requires Fifo(s) && i < j < |s.delivered|
    ensures s.delivered[i].entry.ticket < s.delivered[j].entry.ticket < |s.offers|
    ensures s.delivered[j].entry == s.offers[s.delivered[j].entry.ticket]
    ensures s.delivered[i].entry == s.offers[s.delivered[i].entry.ticket]
  {
    var live := Entries(s.delivered) + s.buffer + s.senders;
    LedgerFacts(s.offers, s.gone, live);
    assert live[i] == s.delivered[i].entry && live[j] == s.delivered[j].entry;
  }

  /** Receivers that were not withdrawn are served in the order they queued. */
  lemma ServedInOrder(s: Chan, i: nat, j: nat)
    requires Fifo(s) && i < |s.served| && j < |s.receivers|
    ensures s.served[i].ticket < s.receivers[j].ticket
    ensures i + 1 < |s.served| ==> s.served[i].ticket < s.served[i + 1].ticket
  {
    var live := s.served + s.receivers;
    LedgerFacts(s.waits, s.left, live);
    assert live[i] == s.served[i] && live[|s.served| + j] == s.receivers[j];
    assert i + 1 < |s.served| ==> live[i + 1] == s.served[i + 1];
  }

  // ---- Where the code departs from the queue ----

  /** ChannelGroup::select registers with every member, whatever it holds: the readiness test in
      front of it looks at receivers where it means senders. The channel keeps its promise
      exactly when the member had nothing to take. */
  lemma ListenKeepsPromiseIff(s: Chan, it: nat)
    requires NoNeedlessWait(s)
    ensures NoNeedlessWait(Step(s, Listen(it))) <==> s.buffer == [] && s.senders == []
  {
    assert Step(s, Listen(it)).receivers != [];
  }

  /** The same for a group send: it must find the member full and without receivers. */
  lemma OfferKeepsPromiseIff(s: Chan, v: Value)
    requires NoNeedlessWait(s) && !s.closed
    ensures NoNeedlessWait(Step(s, Offer(v))) <==> s.receivers == [] && |s.buffer| == s.capacity
  {
    assert Step(s, Offer(v)).senders != [];
  }

  /** The law holds in every state of a run, whoever registers in it. */
  ghost predicate AlwaysFifo(s: Chan, trace: seq<Event>)
    decreases |trace|
  {
    Fifo(s) && (trace == [] || AlwaysFifo(Step(s, trace[0]), trace[1..]))
  }

  predicate AllOrderly(s: Chan, trace: seq<Event>)
    decreases |trace|
  {
    trace == [] || (Orderly(s, trace[0]) && AllOrderly(Step(s, trace[0]), trace[1..]))
  }

  /** Group selects included, values keep their order throughout a run exactly when no send in it finds
      a receiver beside held values or room in the buffer beside blocked senders. */
  lemma {:induction false} AlwaysFifoIff(s: Chan, trace: seq<Event>)
    requires Fifo(s)
    ensures AlwaysFifo(s, trace) <==> AllOrderly(s, trace)
    decreases |trace|
  {
    if trace == [] {
    } else {
      StepKeepsOrderIff(s, trace[0]);
      if Orderly(s, trace[0]) {
        AlwaysFifoIff(Step(s, trace[0]), trace[1..]);
      }
    }
  }

  /** After a discourteous registration a later send overtakes the value that was waiting. */
  lemma SelectLetsValuesOvertake()
    ensures var s := Step(Step(Step(Open(0), Send(1)), Listen(7)), Send(2));
            s.delivered == [Delivery(Entry(1, 2), 7, Some(0))] && s.senders == [Entry(0, 1)] && !Fifo(s)
  {
    var s := Step(Step(Step(Open(0), Send(1)), Listen(7)), Send(2));
    assert s.offers == [Entry(0, 1), Entry(1, 2)] && s.senders == [Entry(0, 1)];
    LiveNone(s.offers, s.gone);
    assert Live(s.offers, s.gone)[0] == Entry(0, 1);
    assert (Entries(s.delivered) + s.buffer + s.senders)[0] == Entry(1, 2);
  }
}
