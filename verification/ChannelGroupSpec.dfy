/** What one step of a channel does to the operations that are linked into its two queues, and
    the laws of operations that are linked into several channels at once (ChannelGroup::send and
    ChannelGroup::select, src/channel.c:764-1217). */
module ChannelGroupSpec {
  import opened Queues
  import opened ChannelSpec

  // ---- One channel ----

  /** Tickets in the queues are in order and none of them was withdrawn. Unlike the laws of
      ChannelSpec this survives discourteous registrations. */
  ghost predicate Tidy(s: Chan) {
    && Placed(s.senders, |s.offers|, s.gone)
    && Placed(s.receivers, |s.waits|, s.left)
    && Apart(s) && ServedApart(s) && HandedServed(s) && Genuine(s)
    && (s.error.Some? ==> s.closed)
    && |s.buffer| <= s.capacity
    && ShutOk(s)
  }

  /** When the receivers of a closed channel have been resumed, those that wait are exactly the ones that
      registered afterwards and were not withdrawn. */
  ghost predicate ShutOk(s: Chan) {
    s.shut.Some? ==>
      && s.closed && s.shut.value <= |s.waits|
      && forall t: nat :: Has(s.receivers, t) <==> s.shut.value <= t < |s.waits| && t !in s.left
  }

  /** The receiver registered with a channel whose close had resumed its receivers already. */
  predicate LateTicket(s: Chan, ticket: nat) {
    s.shut.Some? && s.shut.value <= ticket
  }

  /** The sender that a step takes out of the queue. */
  function SenderOut(s: Chan, e: Event): Option<nat> {
    match e
    case Fetch(it) =>
      if Readable(s) && !Fetching(s, it) && s.senders != [] then Some(s.senders[0].ticket) else None
    case Poll(_) => if s.senders != [] then Some(s.senders[0].ticket) else None
    case Retract(t) => if Has(s.senders, t) then Some(t) else None
    case DrainSender => if s.closed && s.senders != [] then Some(s.senders[0].ticket) else None
    case _ => None
  }

  /** The receiver that a step takes out of the queue. */
  function ReceiverOut(s: Chan, e: Event): Option<nat> {
    match e
    case Send(_) => if !s.closed && s.receivers != [] then Some(s.receivers[0].ticket) else None
    case Unqueue(w) => if Has(s.receivers, w) then Some(w) else None
    case DrainReceiver => if s.closed && s.shut.None? && s.receivers != [] then Some(s.receivers[0].ticket) else None
    case _ => None
  }

  /** to differs from from by the departure of out and by fresh tickets at the end. */
  ghost predicate Moved<T>(before: seq<Entry<T>>, after: seq<Entry<T>>, out: Option<nat>, limit: nat) {
    && (forall t :: 0 <= t < limit ==> (Has(after, t) <==> Has(before, t) && out != Some(t)))
    && (out.Some? ==> Has(before, out.value))
  }

  /** A queue in ticket order, below limit, without withdrawn tickets. */
  ghost predicate Placed<T>(q: seq<Entry<T>>, limit: nat, withdrawn: set<nat>) {
    && Ascending(q)
    && (forall k :: 0 <= k < |q| ==> q[k].ticket < limit && q[k].ticket !in withdrawn)
    && (forall t :: t in withdrawn ==> t < limit)
  }

  lemma PlacedHead<T>(q: seq<Entry<T>>, limit: nat, withdrawn: set<nat>)
    requires Placed(q, limit, withdrawn) && q != []
    ensures Moved(q, q[1..], Some(q[0].ticket), limit)
    ensures Placed(q[1..], limit, withdrawn) && Placed(q[1..], limit, withdrawn + {q[0].ticket})
  {
    forall t | 0 <= t < limit
      ensures Has(q[1..], t) <==> Has(q, t) && q[0].ticket != t
    {
      assert q == [q[0]] + q[1..];
      HasConcat([q[0]], q[1..], t);
      assert Has([q[0]], t) <==> [q[0]][0].ticket == t;
    }
    assert q[0].ticket == q[0].ticket;
  }

  lemma PlacedOut<T>(q: seq<Entry<T>>, ticket: nat, limit: nat, withdrawn: set<nat>)
    requires Placed(q, limit, withdrawn) && Has(q, ticket)
    ensures Moved(q, Live(q, {ticket}), Some(ticket), limit)
    ensures Placed(Live(q, {ticket}), limit, withdrawn + {ticket})
  {
    LiveAscending(q, {ticket});
    var a := Live(q, {ticket});
    forall k | 0 <= k < |a|
      ensures a[k] in q && a[k].ticket != ticket && a[k].ticket < limit && a[k].ticket !in withdrawn
    {
      LiveMembers(q, {ticket}, a[k]);
      var j :| 0 <= j < |q| && q[j] == a[k];
    }
    forall t | 0 <= t < limit && Has(q, t) && t != ticket
      ensures Has(a, t)
    {
      var i :| 0 <= i < |q| && q[i].ticket == t;
      LiveMembers(q, {ticket}, q[i]);
      var k :| 0 <= k < |a| && a[k] == q[i];
    }
  }

  lemma MovedPush<T>(q: seq<Entry<T>>, e: Entry<T>, limit: nat)
    requires e.ticket >= limit
    ensures Moved(q, q + [e], None, limit)
  {
    forall t | 0 <= t < limit
      ensures Has(q + [e], t) <==> Has(q, t)
    {
      HasConcat(q, [e], t);
    }
  }

  /** What a departure or an arrival does to a queue and its withdrawn tickets. */
  ghost predicate SendersStep(s: Chan, t: Chan, out: Option<nat>, withdrawn: bool) {
    && Moved(s.senders, t.senders, out, |s.offers|)
    && Placed(t.senders, |t.offers|, t.gone)
    && |s.offers| <= |t.offers|
    && t.gone == if withdrawn && out.Some? then s.gone + {out.value} else s.gone
  }

  lemma TakenSenders(s: Chan, it: nat)
    requires Tidy(s) && (s.buffer != [] || s.senders != [])
    ensures SendersStep(s, Taken(s, it), if s.senders != [] then Some(s.senders[0].ticket) else None, false)
  {
    if s.senders != [] {
      PlacedHead(s.senders, |s.offers|, s.gone);
    }
  }

  lemma PutSenders(s: Chan, e: Event, v: Value)
    requires Tidy(s) && e in {Event.Send(v), Offer(v)}
    ensures SendersStep(s, Step(s, e), SenderOut(s, e), false)
  {
    MovedPush(s.senders, Entry(|s.offers|, v), |s.offers|);
  }

  lemma FetchSenders(s: Chan, e: Event)
    requires Tidy(s) && (e.Fetch? || e.Poll?)
    ensures SendersStep(s, Step(s, e), SenderOut(s, e), false)
  {
    if s.buffer != [] || s.senders != [] {
      TakenSenders(s, if e.Fetch? then e.it else e.poller);
    }
  }

  lemma LoseSender(s: Chan, e: Event)
    requires Tidy(s) && (e.Retract? || e.DrainSender?)
    ensures SendersStep(s, Step(s, e), SenderOut(s, e), true)
  {
    if e.Retract? {
      if Has(s.senders, e.ticket) { PlacedOut(s.senders, e.ticket, |s.offers|, s.gone); }
    } else {
      if s.senders != [] { PlacedHead(s.senders, |s.offers|, s.gone); }
    }
  }

  /** The other events leave the senders alone. */
  lemma SameSenders(s: Chan, e: Event)
    requires Tidy(s) && !e.Send? && !e.Offer? && !e.Fetch? && !e.Poll? && !e.Retract? && !e.DrainSender?
    ensures SendersStep(s, Step(s, e), None, false) && SenderOut(s, e) == None
  {
  }

  lemma StepSenders(s: Chan, e: Event)
    requires Tidy(s)
    ensures SendersStep(s, Step(s, e), SenderOut(s, e), e.Retract? || e.DrainSender?)
  {
    match e
    case Fetch(_) => FetchSenders(s, e);
    case Poll(_) => FetchSenders(s, e);
    case Retract(_) => LoseSender(s, e);
    case DrainSender => LoseSender(s, e);
    case Offer(v) => PutSenders(s, e, v);
    case Send(v) => PutSenders(s, e, v);
    case _ => SameSenders(s, e);
  }

  ghost predicate ReceiversStep(s: Chan, t: Chan, out: Option<nat>, withdrawn: bool) {
    && Moved(s.receivers, t.receivers, out, |s.waits|)
    && Placed(t.receivers, |t.waits|, t.left)
    && |s.waits| <= |t.waits|
    && t.left == if withdrawn && out.Some? then s.left + {out.value} else s.left
  }

  lemma PutReceivers(s: Chan, it: nat)
    requires Tidy(s)
    ensures ReceiversStep(s, Queue(s, it), None, false)
  {
    MovedPush(s.receivers, Entry(|s.waits|, it), |s.waits|);
  }

  lemma LoseReceiver(s: Chan, e: Event)
    requires Tidy(s) && (e.Unqueue? || e.DrainReceiver? || e.Send?)
    ensures ReceiversStep(s, Step(s, e), ReceiverOut(s, e), !e.Send?)
  {
    if e.Unqueue? {
      if Has(s.receivers, e.waiter) { PlacedOut(s.receivers, e.waiter, |s.waits|, s.left); }
    } else {
      if s.receivers != [] { PlacedHead(s.receivers, |s.waits|, s.left); }
    }
  }

  /** The other events leave the receivers alone. */
  lemma SameReceivers(s: Chan, e: Event)
    requires Tidy(s) && !e.Unqueue? && !e.DrainReceiver? && !e.Send? && !e.Fetch? && !e.Listen?
    ensures ReceiversStep(s, Step(s, e), None, false) && ReceiverOut(s, e) == None
  {
  }

  lemma StepReceivers(s: Chan, e: Event)
    requires Tidy(s)
    ensures ReceiversStep(s, Step(s, e), ReceiverOut(s, e), e.Unqueue? || e.DrainReceiver?)
  {
    match e
    case Unqueue(_) => LoseReceiver(s, e);
    case Send(_) => LoseReceiver(s, e);
    case DrainReceiver => LoseReceiver(s, e);
    case Fetch(it) => PutReceivers(s, it);
    case Listen(it) => PutReceivers(s, it);
    case _ => SameReceivers(s, e);
  }

  lemma StepShut(s: Chan, e: Event)
    requires Tidy(s)
    ensures ShutOk(Step(s, e))
    ensures forall t :: 0 <= t < |s.waits| ==> LateTicket(Step(s, e), t) == LateTicket(s, t)
  {
    var t := Step(s, e);
    StepReceivers(s, e);
    if s.shut.Some? {
      forall k: nat
        ensures Has(t.receivers, k) <==> t.shut.value <= k < |t.waits| && k !in t.left
      {
        if k < |s.waits| {
          assert Has(t.receivers, k) <==> Has(s.receivers, k) && ReceiverOut(s, e) != Some(k);
        } else {
          NewReceiver(s, e, k);
        }
      }
    }
  }

  /** A registration that a step makes is in the queue. */
  lemma NewReceiver(s: Chan, e: Event, ticket: nat)
    requires Tidy(s) && s.closed && ticket >= |s.waits|
    ensures Has(Step(s, e).receivers, ticket) <==> ticket < |Step(s, e).waits|
    ensures ticket !in Step(s, e).left
  {
    var t := Step(s, e);
    StepReceivers(s, e);
    if |t.waits| > |s.waits| {
      assert t.receivers[|s.receivers|].ticket == |s.waits|;
    }
  }

  /** The value has left its sender's hands: it is buffered or delivered. */
  predicate Reached(s: Chan, ticket: nat) {
    IsDelivered(s, ticket) || Has(s.buffer, ticket)
  }

  /** A value that reached the channel is neither waiting nor withdrawn. */
  ghost predicate Apart(s: Chan) {
    forall t: nat :: Reached(s, t) ==> t < |s.offers| && !Has(s.senders, t) && t !in s.gone
  }

  /** The ticket that reaches the channel in this step. */
  function Entering(s: Chan, e: Event): Option<nat> {
    match e
    case Send(_) =>
      if !s.closed && s.error.None? && (s.receivers != [] || |s.buffer| < s.capacity) then Some(|s.offers|) else None
    case _ => if e.Fetch? || e.Poll? then SenderOut(s, e) else None
  }

  lemma DeliveredMore(ds: seq<Delivery>, d: Delivery, s: Chan, t: Chan, ticket: nat)
    requires s.delivered == ds && t.delivered == ds + [d]
    ensures IsDelivered(t, ticket) <==> IsDelivered(s, ticket) || d.entry.ticket == ticket
  {
    if i :| 0 <= i < |ds| && ds[i].entry.ticket == ticket {
      assert t.delivered[i].entry.ticket == ticket;
    }
    if d.entry.ticket == ticket {
      assert t.delivered[|ds|].entry.ticket == ticket;
    }
  }

  lemma TakenReaches(s: Chan, it: nat, ticket: nat)
    requires s.buffer != [] || s.senders != []
    ensures Reached(Taken(s, it), ticket) <==> Reached(s, ticket) || (s.senders != [] && s.senders[0].ticket == ticket)
  {
    var t := Taken(s, it);
    DeliveredMore(s.delivered, t.delivered[|s.delivered|], s, t, ticket);
    if s.buffer != [] {
      assert s.buffer == [s.buffer[0]] + s.buffer[1..];
      HasConcat([s.buffer[0]], s.buffer[1..], ticket);
      assert Has([s.buffer[0]], ticket) <==> [s.buffer[0]][0].ticket == ticket;
      if s.senders != [] {
        HasConcat(s.buffer[1..], [s.senders[0]], ticket);
        assert Has([s.senders[0]], ticket) <==> [s.senders[0]][0].ticket == ticket;
      }
    }
  }

  lemma StepReaches(s: Chan, e: Event, ticket: nat)
    ensures Reached(Step(s, e), ticket) <==> Reached(s, ticket) || Entering(s, e) == Some(ticket)
  {
    match e
    case Fetch(it) => if s.buffer != [] || s.senders != [] { TakenReaches(s, it, ticket); }
    case Poll(it) => if s.buffer != [] || s.senders != [] { TakenReaches(s, it, ticket); }
    case Send(v) =>
      var entry := Entry(|s.offers|, v);
      if Entering(s, e).Some? && s.receivers != [] {
        DeliveredMore(s.delivered, Delivery(entry, s.receivers[0].item, Some(s.receivers[0].ticket)), s, Step(s, e), ticket);
      } else if Entering(s, e).Some? {
        HasConcat(s.buffer, [entry], ticket);
        assert Has([entry], ticket) <==> [entry][0].ticket == ticket;
      }
    case _ =>
  }

  lemma StepApart(s: Chan, e: Event)
    requires Tidy(s)
    ensures Apart(Step(s, e))
  {
    var t := Step(s, e);
    StepSenders(s, e);
    forall k: nat | Reached(t, k)
      ensures k < |t.offers| && !Has(t.senders, k) && k !in t.gone
    {
      StepReaches(s, e, k);
    }
  }

  /** Whoever was handed a value was served. */
  ghost predicate HandedServed(s: Chan) {
    forall i :: 0 <= i < |s.delivered| && s.delivered[i].waiter.Some? ==> Has(s.served, s.delivered[i].waiter.value)
  }

  lemma StepHandedServed(s: Chan, e: Event)
    requires Tidy(s)
    ensures HandedServed(Step(s, e))
  {
    var t := Step(s, e);
    forall i | 0 <= i < |t.delivered| && t.delivered[i].waiter.Some?
      ensures Has(t.served, t.delivered[i].waiter.value)
    {
      StepServed(s, e, t.delivered[i].waiter.value);
      assert i < |s.delivered| ==> t.delivered[i] == s.delivered[i];
    }
  }

  /** A receiver that was served waits no more and was not withdrawn. */
  ghost predicate ServedApart(s: Chan) {
    forall t: nat :: Has(s.served, t) ==> t < |s.waits| && !Has(s.receivers, t) && t !in s.left
  }

  lemma StepServed(s: Chan, e: Event, ticket: nat)
    requires s.error.Some? ==> s.closed
    ensures Has(Step(s, e).served, ticket) <==> Has(s.served, ticket) || (e.Send? && ReceiverOut(s, e) == Some(ticket))
  {
    if e.Send? && ReceiverOut(s, e).Some? {
      HasConcat(s.served, [s.receivers[0]], ticket);
      assert Has([s.receivers[0]], ticket) <==> [s.receivers[0]][0].ticket == ticket;
    }
  }

  lemma StepServedApart(s: Chan, e: Event)
    requires Tidy(s)
    ensures ServedApart(Step(s, e))
  {
    var t := Step(s, e);
    StepReceivers(s, e);
    forall k: nat | Has(t.served, k)
      ensures k < |t.waits| && !Has(t.receivers, k) && k !in t.left
    {
      StepServed(s, e, k);
      if e.Send? && ReceiverOut(s, e) == Some(k) {
        assert s.receivers[0].ticket == k;
      }
    }
  }

  /** Whatever is delivered or held is what was accepted under its ticket. */
  ghost predicate Genuine(s: Chan) {
    && (forall i :: 0 <= i < |s.delivered| ==> Accepted(s, s.delivered[i].entry))
    && (forall i :: 0 <= i < |s.buffer| ==> Accepted(s, s.buffer[i]))
    && (forall i :: 0 <= i < |s.senders| ==> Accepted(s, s.senders[i]))
  }

  predicate Accepted(s: Chan, e: Entry<Value>) {
    e.ticket < |s.offers| && s.offers[e.ticket] == e
  }

  lemma TakenGenuine(s: Chan, it: nat)
    requires Genuine(s) && (s.buffer != [] || s.senders != [])
    ensures Genuine(Taken(s, it))
  {
    var t := Taken(s, it);
    assert forall i :: 0 <= i < |t.buffer| ==> t.buffer[i] in s.buffer || t.buffer[i] in s.senders;
  }

  lemma PutGenuine(s: Chan, e: Event)
    requires Genuine(s) && (e.Send? || e.Offer?)
    ensures Genuine(Step(s, e))
  {
    var t := Step(s, e);
    forall x: Entry<Value> | Accepted(s, x)
      ensures Accepted(t, x)
    {
    }
  }

  lemma StepGenuine(s: Chan, e: Event)
    requires Genuine(s)
    ensures Genuine(Step(s, e))
  {
    match e
    case Send(_) => PutGenuine(s, e);
    case Offer(_) => PutGenuine(s, e);
    case Fetch(it) => if s.buffer != [] || s.senders != [] { TakenGenuine(s, it); }
    case Poll(it) => if s.buffer != [] || s.senders != [] { TakenGenuine(s, it); }
    case Retract(t) =>
      forall i | 0 <= i < |Live(s.senders, {t})|
        ensures Accepted(s, Live(s.senders, {t})[i])
      {
        LiveMembers(s.senders, {t}, Live(s.senders, {t})[i]);
      }
    case _ =>
  }

  lemma StepTidy(s: Chan, e: Event)
    requires Tidy(s)
    ensures Tidy(Step(s, e))
  {
    StepGenuine(s, e);
    StepHandedServed(s, e);
    StepSenders(s, e);
    StepReceivers(s, e);
    StepApart(s, e);
    StepServedApart(s, e);
    StepShut(s, e);
  }

  // ---- Several channels ----

  /** One operation of a group, linked into the queue of one member channel. */
  datatype Registration = Registration(member: nat, ticket: nat)

  /** How a blocked group send ends: with the entry that took its value; because the operation of an
      entry was failed with the error of its closed channel; because the operation was taken out of
      the queue of a channel that is closed without being failed (fetched: a fetch took it, which the
      C struct does not record); or, timed out or cancelled, without any of these. */
  datatype SendReport = Pending | TakenBy(index: nat) | Failed(index: nat) | Refused(index: nat, fetched: bool) | GaveUp

  /** async_channel_group_send_op. */
  datatype GroupSend = GroupSend(value: Value, regs: seq<Registration>, report: SendReport) {
    predicate Settled() {
      !report.Pending?
    }
  }

  /** async_channel_group_select_op; stopped: it timed out or was cancelled. */
  datatype GroupSelect =
    GroupSelect(regs: seq<Registration>, pending: nat, settled: bool, entry: Option<nat>, value: Option<Value>, stopped: bool)

  predicate Known(chans: seq<Chan>, regs: seq<Registration>) {
    forall k :: 0 <= k < |regs| ==> regs[k].member < |chans|
  }

  predicate LinkedSend(chans: seq<Chan>, r: Registration)
    requires r.member < |chans|
  {
    Has(chans[r.member].senders, r.ticket)
  }

  predicate LinkedSelect(chans: seq<Chan>, r: Registration)
    requires r.member < |chans|
  {
    Has(chans[r.member].receivers, r.ticket)
  }

  predicate GoneSend(chans: seq<Chan>, r: Registration)
    requires r.member < |chans|
  {
    r.ticket in chans[r.member].gone
  }

  predicate LeftSelect(chans: seq<Chan>, r: Registration)
    requires r.member < |chans|
  {
    r.ticket in chans[r.member].left
  }

  /** The value of this registration has got through. */
  predicate ReachedBy(chans: seq<Chan>, r: Registration)
    requires r.member < |chans|
  {
    Reached(chans[r.member], r.ticket)
  }

  /** This registration was handed v by a send. */
  predicate HandedTo(chans: seq<Chan>, r: Registration, v: Value)
    requires r.member < |chans|
  {
    var ds := chans[r.member].delivered;
    exists i :: 0 <= i < |ds| && ds[i].waiter == Some(r.ticket) && ds[i].entry.item == v
  }

  /** The member had been closed, and its receivers resumed, before this registration. */
  predicate Late(chans: seq<Chan>, r: Registration)
    requires r.member < |chans|
  {
    LateTicket(chans[r.member], r.ticket)
  }

  /** A member that closed without error. */
  predicate ShutDown(chans: seq<Chan>, r: Registration)
    requires r.member < |chans|
  {
    chans[r.member].closed && chans[r.member].error.None?
  }

  /** Registrations of a group are distinct operations that the member channels know, for v. */
  predicate SendRegs(chans: seq<Chan>, regs: seq<Registration>, v: Value) {
    && NoDup(regs)
    && forall k :: 0 <= k < |regs| ==>
         && regs[k].member < |chans| && regs[k].ticket < |chans[regs[k].member].offers|
         && chans[regs[k].member].offers[regs[k].ticket].item == v
  }

  predicate SelectRegs(chans: seq<Chan>, regs: seq<Registration>) {
    && NoDup(regs)
    && forall k :: 0 <= k < |regs| ==> regs[k].member < |chans| && regs[k].ticket < |chans[regs[k].member].waits|
  }

  /** The registration that was taken out of its queue, or -1, and whether it got through. */
  function Hit(r: SendReport): int {
    if r.TakenBy? || r.Failed? || r.Refused? then r.index else -1
  }

  predicate GotThrough(r: SendReport) {
    r.TakenBy? || (r.Refused? && r.fetched)
  }

  /** The named registration exists and has the fate the report stands for. */
  ghost predicate Fate(chans: seq<Chan>, regs: seq<Registration>, hit: int, through: bool)
    requires forall k :: 0 <= k < |regs| ==> regs[k].member < |chans|
  {
    && hit < |regs|
    && (hit >= 0 ==> if through then ReachedBy(chans, regs[hit]) else GoneSend(chans, regs[hit]))
  }

  /** A group send waits with every registration linked, and ends with none linked and all withdrawn
      but the one that got through, if the report stands for one. */
  ghost predicate SendOk(chans: seq<Chan>, s: GroupSend) {
    && SendRegs(chans, s.regs, s.value)
    && if s.Settled() then
         && (forall k :: 0 <= k < |s.regs| ==> !LinkedSend(chans, s.regs[k]))
         && (forall k :: 0 <= k < |s.regs| && k != Hit(s.report) ==> GoneSend(chans, s.regs[k]))
         && Fate(chans, s.regs, Hit(s.report), GotThrough(s.report))
       else
         forall k :: 0 <= k < |s.regs| ==> LinkedSend(chans, s.regs[k])
  }

  /** What the report of a group send means: its value got through with the registration that the report
      names as having taken it, or as refused by a closed channel although a fetch took it, and with no
      other; and whoever was handed anything under one of its registrations was handed its value. */
  lemma ReportTells(chans: seq<Chan>, s: GroupSend, k: nat)
    requires SendOk(chans, s) && AllTidy(chans) && k < |s.regs|
    ensures ReachedBy(chans, s.regs[k]) <==> s.report == TakenBy(k) || s.report == Refused(k, true)
    ensures var c := chans[s.regs[k].member];
            forall i :: 0 <= i < |c.delivered| && c.delivered[i].entry.ticket == s.regs[k].ticket ==> c.delivered[i].entry.item == s.value
  {
    var c := chans[s.regs[k].member];
    assert Apart(c) && Tidy(c) && Genuine(c);
    assert s.Settled() && k != Hit(s.report) ==> GoneSend(chans, s.regs[k]);
    assert !s.Settled() ==> LinkedSend(chans, s.regs[k]);
  }

  /** So it reaches one of its channels at most. */
  lemma AtMostOneChannel(chans: seq<Chan>, s: GroupSend, j: nat, k: nat)
    requires SendOk(chans, s) && AllTidy(chans) && j < k < |s.regs|
    ensures !(ReachedBy(chans, s.regs[j]) && ReachedBy(chans, s.regs[k]))
  {
    ReportTells(chans, s, j);
    ReportTells(chans, s, k);
  }

  /** The registration that a step takes out of a queue of senders got through exactly when a fetch took
      it, from an open or a closed channel. */
  lemma TakenFate(s: Chan, e: Event)
    requires Tidy(s) && SenderOut(s, e).Some?
    ensures Reached(Step(s, e), SenderOut(s, e).value) <==> e.Fetch? || e.Poll?
    ensures SenderOut(s, e).value in Step(s, e).gone <==> e.Retract? || e.DrainSender?
  {
    StepReaches(s, e, SenderOut(s, e).value);
    StepSenders(s, e);
    assert Apart(s);
  }

  /** continue_send_cb looks at the closed flag of the channel, not at what became of the operation. It
      refuses a value that got through exactly when a fetch takes it from a closed channel. */
  lemma RefusedYetTakenIff(s: Chan, e: Event)
    requires Tidy(s) && SenderOut(s, e).Some?
    ensures Step(s, e).closed && Reached(Step(s, e), SenderOut(s, e).value) <==> s.closed && (e.Fetch? || e.Poll?)
  {
    TakenFate(s, e);
  }

  /** That happens: while a close resumes its waiters, one of them fetches, and the place that becomes
      free in the buffer is filled from the queue. */
  lemma RefusedYetTaken()
    ensures var s := Step(Step(Step(Step(Step(Step(Open(1), Event.Send(1)), Event.Send(2)), Offer(3)), Event.Close(None)), DrainSender), Fetch(0));
            s.closed && s.error.None? && s.offers[2].item == 3 && s.senders == [] && s.buffer == [Entry(2, 3)]
  {
    var a := Step(Open(1), Event.Send(1));
    assert a.buffer == [Entry(0, 1)] && a.senders == [];
    var b := Step(Step(a, Event.Send(2)), Offer(3));
    assert b.buffer == [Entry(0, 1)] && b.senders == [Entry(1, 2), Entry(2, 3)] && b.receivers == [];
    assert b.offers == [Entry(0, 1), Entry(1, 2), Entry(2, 3)];
    var c := Step(Step(b, Event.Close(None)), DrainSender);
    assert c.senders == [Entry(2, 3)] && c.receivers == [] && c.buffer == b.buffer;
    assert !Fetching(c, 0);
    assert Step(c, Fetch(0)).buffer == c.buffer[1..] + [Entry(2, 3)];
  }

  /** The number of registrations still linked. */
  function LinkedCount(chans: seq<Chan>, regs: seq<Registration>): nat
    requires Known(chans, regs)
  {
    if regs == [] then 0
    else LinkedCount(chans, regs[1..]) + if LinkedSelect(chans, regs[0]) then 1 else 0
  }

  /** A waiting registration that is not linked any more was drained by a close without error. */
  predicate Waits(chans: seq<Chan>, r: Registration)
    requires r.member < |chans|
  {
    LinkedSelect(chans, r) || (LeftSelect(chans, r) && ShutDown(chans, r) && !Late(chans, r))
  }

  /** A group select counts its linked registrations while it waits. It ends with none linked, all
      withdrawn but one that was handed the value it returns, if it returns one; and, unless it was
      stopped, without an entry only when every member has closed without error since it registered. */
  ghost predicate SelectOk(chans: seq<Chan>, s: GroupSelect) {
    && SelectRegs(chans, s.regs)
    && if s.settled then
         && (forall k :: 0 <= k < |s.regs| ==> !LinkedSelect(chans, s.regs[k]))
         && (s.value.Some? ==> s.entry.Some?)
         && (s.entry.Some? ==> s.entry.value < |s.regs|)
         && (forall k :: 0 <= k < |s.regs| ==>
               if s.value.Some? && s.entry == Some(k) then HandedTo(chans, s.regs[k], s.value.value) else LeftSelect(chans, s.regs[k]))
         && (s.entry.None? && !s.stopped ==> forall k :: 0 <= k < |s.regs| ==> ShutDown(chans, s.regs[k]) && !Late(chans, s.regs[k]))
       else
         && s.pending == LinkedCount(chans, s.regs) && s.pending > 0
         && forall k :: 0 <= k < |s.regs| ==> Waits(chans, s.regs[k])
  }

  /** A group select consumes a message exactly when it returns one, and then that one, as its entry:
      every other registration was served nothing. */
  lemma SelectTells(chans: seq<Chan>, s: GroupSelect, k: nat)
    requires SelectOk(chans, s) && AllTidy(chans) && k < |s.regs|
    ensures Has(chans[s.regs[k].member].served, s.regs[k].ticket) <==> s.settled && s.value.Some? && s.entry == Some(k)
    ensures s.settled && s.value.Some? && s.entry == Some(k) ==> HandedTo(chans, s.regs[k], s.value.value)
  {
    assert Tidy(chans[s.regs[k].member]);
    assert ServedApart(chans[s.regs[k].member]) && HandedServed(chans[s.regs[k].member]);
    assert !s.settled ==> Waits(chans, s.regs[k]);
  }

  /** The close of every member is over, as far as receivers are concerned. */
  predicate AllShut(chans: seq<Chan>, regs: seq<Registration>) {
    forall k :: 0 <= k < |regs| ==> regs[k].member < |chans| && chans[regs[k].member].shut.Some?
  }

  /** What keeps a select waiting: a member that is open or being closed, or one that it registered with
      although it was closed. */
  lemma WaitingFor(chans: seq<Chan>, s: GroupSelect)
    requires SelectOk(chans, s) && AllTidy(chans) && !s.settled
    ensures exists k :: 0 <= k < |s.regs| && LinkedSelect(chans, s.regs[k]) &&
              (chans[s.regs[k].member].shut.None? || Late(chans, s.regs[k]))
  {
    NoneLinked(chans, s.regs);
    var k :| 0 <= k < |s.regs| && LinkedSelect(chans, s.regs[k]);
    assert Tidy(chans[s.regs[k].member]);
  }

  /** Once all members are closed, a select that got neither a message nor an error nor a timeout has ended
      without an entry if and only if none of them was closed when it registered. With one that was, it
      waits for ever: nothing but a timeout or a cancellation takes it off that member. */
  lemma StrandedIff(chans: seq<Chan>, s: GroupSelect)
    requires SelectOk(chans, s) && AllTidy(chans) && AllShut(chans, s.regs)
    requires s.settled ==> s.entry.None? && !s.stopped
    ensures !s.settled <==> exists k :: 0 <= k < |s.regs| && Late(chans, s.regs[k])
    ensures !s.settled ==> forall k :: 0 <= k < |s.regs| ==> (LinkedSelect(chans, s.regs[k]) <==> Late(chans, s.regs[k]))
  {
    if !s.settled {
      WaitingFor(chans, s);
      forall k | 0 <= k < |s.regs|
        ensures LinkedSelect(chans, s.regs[k]) <==> Late(chans, s.regs[k])
      {
        assert Waits(chans, s.regs[k]) && Tidy(chans[s.regs[k].member]);
      }
    }
  }

  /** Such a registration is not taken out of its queue by any step but its own withdrawal. */
  lemma LateStays(s: Chan, e: Event, ticket: nat)
    requires Tidy(s) && LateTicket(s, ticket) && Has(s.receivers, ticket)
    ensures LateTicket(Step(s, e), ticket)
    ensures Has(Step(s, e).receivers, ticket) <==> e != Unqueue(ticket)
  {
    StepShut(s, e);
    StepReceivers(s, e);
  }

  /** How far one registration was just taken out of a waiting group send. */
  ghost predicate SendHit(chans: seq<Chan>, s: GroupSend, hit: nat, through: bool) {
    && SendRegs(chans, s.regs, s.value) && !s.Settled() && hit < |s.regs|
    && (forall k :: 0 <= k < |s.regs| ==> (LinkedSend(chans, s.regs[k]) <==> k != hit))
    && Fate(chans, s.regs, hit, through)
  }

  /** The same for a group select, whose counter has not been adjusted yet; v is what the registration
      was handed. */
  ghost predicate SelectHit(chans: seq<Chan>, s: GroupSelect, hit: nat, v: Option<Value>) {
    && SelectRegs(chans, s.regs) && !s.settled && hit < |s.regs|
    && s.pending == LinkedCount(chans, s.regs) + 1
    && !LinkedSelect(chans, s.regs[hit])
    && (forall k :: 0 <= k < |s.regs| && k != hit ==> Waits(chans, s.regs[k]))
    && Got(chans, s.regs[hit], v)
  }

  /** What a registration that was taken out of its queue got. */
  ghost predicate Got(chans: seq<Chan>, r: Registration, v: Option<Value>)
    requires r.member < |chans|
  {
    if v.Some? then HandedTo(chans, r, v.value) else LeftSelect(chans, r)
  }

  /** Every registration but hit is linked or withdrawn, and hit has its fate. */
  ghost predicate SendSpread(chans: seq<Chan>, regs: seq<Registration>, v: Value, hit: int, through: bool) {
    && SendRegs(chans, regs, v)
    && (forall k :: 0 <= k < |regs| && k != hit ==> LinkedSend(chans, regs[k]) || GoneSend(chans, regs[k]))
    && Fate(chans, regs, hit, through)
  }

  ghost predicate SelectSpread(chans: seq<Chan>, regs: seq<Registration>, hit: int, v: Option<Value>) {
    && SelectRegs(chans, regs) && hit < |regs|
    && (forall k :: 0 <= k < |regs| && k != hit ==> LinkedSelect(chans, regs[k]) || LeftSelect(chans, regs[k]))
    && (hit >= 0 ==> Got(chans, regs[hit], v))
  }

  function After(chans: seq<Chan>, c: nat, e: Event): seq<Chan>
    requires c < |chans|
  {
    chans[c := Step(chans[c], e)]
  }

  /** What one step cannot undo. */
  lemma StepLasts(chans: seq<Chan>, c: nat, e: Event, r: Registration)
    requires c < |chans| && Tidy(chans[c]) && r.member < |chans|
    ensures var after := After(chans, c, e);
            && (ReachedBy(chans, r) ==> ReachedBy(after, r))
            && (GoneSend(chans, r) ==> GoneSend(after, r))
            && (LeftSelect(chans, r) ==> LeftSelect(after, r))
            && (ShutDown(chans, r) ==> ShutDown(after, r))
            && (r.ticket < |chans[r.member].waits| ==> Late(after, r) == Late(chans, r))
            && chans[r.member].offers <= after[r.member].offers && chans[r.member].delivered <= after[r.member].delivered
  {
    StepReaches(chans[c], e, r.ticket);
    StepHistory(chans[c], e);
    StepShut(chans[c], e);
  }

  lemma HandedLasts(chans: seq<Chan>, c: nat, e: Event, r: Registration, v: Value)
    requires c < |chans| && Tidy(chans[c]) && r.member < |chans| && HandedTo(chans, r, v)
    ensures HandedTo(After(chans, c, e), r, v)
  {
    StepLasts(chans, c, e, r);
    var ds := chans[r.member].delivered;
    var i :| 0 <= i < |ds| && ds[i].waiter == Some(r.ticket) && ds[i].entry.item == v;
    assert After(chans, c, e)[r.member].delivered[i] == ds[i];
  }

  predicate Fetches(e: Event) {
    e.Fetch? || e.Poll?
  }

  /** What a step does to the registrations of a group send. */
  lemma SendLinksAfter(chans: seq<Chan>, c: nat, e: Event, regs: seq<Registration>, v: Value)
    requires c < |chans| && Tidy(chans[c]) && SendRegs(chans, regs, v)
    ensures SendRegs(After(chans, c, e), regs, v)
    ensures forall k :: 0 <= k < |regs| ==>
              && (LinkedSend(After(chans, c, e), regs[k]) <==>
                  LinkedSend(chans, regs[k]) && !(regs[k].member == c && SenderOut(chans[c], e) == Some(regs[k].ticket)))
              && (GoneSend(chans, regs[k]) ==> GoneSend(After(chans, c, e), regs[k]))
              && (ReachedBy(chans, regs[k]) ==> ReachedBy(After(chans, c, e), regs[k]))
  {
    StepSenders(chans[c], e);
    forall k | 0 <= k < |regs|
      ensures GoneSend(chans, regs[k]) ==> GoneSend(After(chans, c, e), regs[k])
      ensures ReachedBy(chans, regs[k]) ==> ReachedBy(After(chans, c, e), regs[k])
      ensures chans[regs[k].member].offers <= After(chans, c, e)[regs[k].member].offers
    {
      StepLasts(chans, c, e, regs[k]);
    }
  }

  /** A step on one channel leaves every group send alone whose registrations it does not take,
      and hits the one whose registration it takes. */
  lemma SendAfter(chans: seq<Chan>, c: nat, e: Event, s: GroupSend)
    requires c < |chans| && Tidy(chans[c]) && SendOk(chans, s)
    ensures forall hit :: 0 <= hit < |s.regs| && SenderOut(chans[c], e) == Some(s.regs[hit].ticket) && s.regs[hit].member == c ==>
              SendHit(After(chans, c, e), s, hit, Fetches(e))
    ensures (forall k :: 0 <= k < |s.regs| && s.regs[k].member == c ==> SenderOut(chans[c], e) != Some(s.regs[k].ticket)) ==>
              SendOk(After(chans, c, e), s)
  {
    SendLinksAfter(chans, c, e, s.regs, s.value);
    StepSenders(chans[c], e);
    if SenderOut(chans[c], e).Some? {
      TakenFate(chans[c], e);
      forall j, k | 0 <= j < k < |s.regs|
        ensures s.regs[j] != s.regs[k]
      {
      }
    }
  }

  lemma {:induction false} CountSame(chans: seq<Chan>, after: seq<Chan>, regs: seq<Registration>)
    requires Known(chans, regs) && |after| == |chans|
    requires forall k :: 0 <= k < |regs| ==> (LinkedSelect(chans, regs[k]) <==> LinkedSelect(after, regs[k]))
    ensures LinkedCount(after, regs) == LinkedCount(chans, regs)
  {
    if regs == [] {
    } else {
      CountSame(chans, after, regs[1..]);
    }
  }

  lemma {:induction false} CountHit(chans: seq<Chan>, after: seq<Chan>, regs: seq<Registration>, hit: nat)
    requires Known(chans, regs) && |after| == |chans| && hit < |regs|
    requires LinkedSelect(chans, regs[hit]) && !LinkedSelect(after, regs[hit])
    requires forall k :: 0 <= k < |regs| && k != hit ==> (LinkedSelect(chans, regs[k]) <==> LinkedSelect(after, regs[k]))
    ensures LinkedCount(chans, regs) == LinkedCount(after, regs) + 1
  {
    if hit == 0 {
      CountSame(chans, after, regs[1..]);
    } else {
      CountHit(chans, after, regs[1..], hit - 1);
    }
  }

  lemma SelectLinksAfter(chans: seq<Chan>, c: nat, e: Event, regs: seq<Registration>)
    requires c < |chans| && Tidy(chans[c]) && SelectRegs(chans, regs)
    ensures SelectRegs(After(chans, c, e), regs)
    ensures forall k :: 0 <= k < |regs| ==>
              && (LinkedSelect(After(chans, c, e), regs[k]) <==>
                  LinkedSelect(chans, regs[k]) && !(regs[k].member == c && ReceiverOut(chans[c], e) == Some(regs[k].ticket)))
              && (LeftSelect(chans, regs[k]) ==> LeftSelect(After(chans, c, e), regs[k]))
    ensures ReceiverOut(chans[c], e).Some? ==> Has(chans[c].receivers, ReceiverOut(chans[c], e).value)
  {
    StepReceivers(chans[c], e);
  }

  /** What the receiver that a step takes out of a queue got. */
  function HandedBy(e: Event): Option<Value> {
    if e.Send? then Some(e.value) else None
  }

  lemma TakenGot(chans: seq<Chan>, c: nat, e: Event, r: Registration)
    requires c < |chans| && Tidy(chans[c]) && r.member == c && ReceiverOut(chans[c], e) == Some(r.ticket)
    ensures Got(After(chans, c, e), r, HandedBy(e))
  {
    StepReceivers(chans[c], e);
    if e.Send? {
      var s, t := chans[c], Step(chans[c], e);
      assert t.delivered[|s.delivered|].waiter == Some(r.ticket) && t.delivered[|s.delivered|].entry.item == e.value;
    }
  }

  lemma SelectHitAfter(chans: seq<Chan>, c: nat, e: Event, s: GroupSelect, hit: nat)
    requires c < |chans| && Tidy(chans[c]) && SelectOk(chans, s)
    requires hit < |s.regs| && s.regs[hit].member == c && ReceiverOut(chans[c], e) == Some(s.regs[hit].ticket)
    ensures SelectHit(After(chans, c, e), s, hit, HandedBy(e))
  {
    var after := After(chans, c, e);
    SelectLinksAfter(chans, c, e, s.regs);
    TakenGot(chans, c, e, s.regs[hit]);
    assert LinkedSelect(chans, s.regs[hit]);
    forall k | 0 <= k < |s.regs| && k != hit
      ensures !(s.regs[k].member == c && ReceiverOut(chans[c], e) == Some(s.regs[k].ticket))
      ensures Waits(chans, s.regs[k]) ==> Waits(after, s.regs[k])
    {
      assert s.regs[k] != s.regs[hit];
      StepLasts(chans, c, e, s.regs[k]);
    }
    CountHit(chans, after, s.regs, hit);
  }

  lemma SelectMissAfter(chans: seq<Chan>, c: nat, e: Event, s: GroupSelect)
    requires c < |chans| && Tidy(chans[c]) && SelectOk(chans, s)
    requires forall k :: 0 <= k < |s.regs| && s.regs[k].member == c ==> ReceiverOut(chans[c], e) != Some(s.regs[k].ticket)
    ensures SelectOk(After(chans, c, e), s)
  {
    var after := After(chans, c, e);
    SelectLinksAfter(chans, c, e, s.regs);
    forall k | 0 <= k < |s.regs|
      ensures LeftSelect(chans, s.regs[k]) ==> LeftSelect(after, s.regs[k])
      ensures ShutDown(chans, s.regs[k]) ==> ShutDown(after, s.regs[k])
      ensures Late(after, s.regs[k]) == Late(chans, s.regs[k])
    {
      StepLasts(chans, c, e, s.regs[k]);
    }
    if !s.settled {
      CountSame(chans, after, s.regs);
    } else if s.value.Some? {
      HandedLasts(chans, c, e, s.regs[s.entry.value], s.value.value);
    }
  }

  lemma SelectAfter(chans: seq<Chan>, c: nat, e: Event, s: GroupSelect)
    requires c < |chans| && Tidy(chans[c]) && SelectOk(chans, s)
    ensures forall hit :: 0 <= hit < |s.regs| && ReceiverOut(chans[c], e) == Some(s.regs[hit].ticket) && s.regs[hit].member == c ==>
              SelectHit(After(chans, c, e), s, hit, HandedBy(e))
    ensures (forall k :: 0 <= k < |s.regs| && s.regs[k].member == c ==> ReceiverOut(chans[c], e) != Some(s.regs[k].ticket)) ==>
              SelectOk(After(chans, c, e), s)
  {
    forall hit | 0 <= hit < |s.regs| && ReceiverOut(chans[c], e) == Some(s.regs[hit].ticket) && s.regs[hit].member == c
      ensures SelectHit(After(chans, c, e), s, hit, HandedBy(e))
    {
      SelectHitAfter(chans, c, e, s, hit);
    }
    if forall k :: 0 <= k < |s.regs| && s.regs[k].member == c ==> ReceiverOut(chans[c], e) != Some(s.regs[k].ticket) {
      SelectMissAfter(chans, c, e, s);
    }
  }

  // ---- All groups at once ----

  ghost predicate AllTidy(chans: seq<Chan>) {
    forall c :: 0 <= c < |chans| ==> Tidy(chans[c])
  }

  /** Every group send is in order, except possibly number but. */
  ghost predicate SendsOk(chans: seq<Chan>, sends: seq<GroupSend>, but: int) {
    forall g :: 0 <= g < |sends| && g != but ==> SendOk(chans, sends[g])
  }

  ghost predicate SelectsOk(chans: seq<Chan>, selects: seq<GroupSelect>, but: int) {
    forall g :: 0 <= g < |selects| && g != but ==> SelectOk(chans, selects[g])
  }

  /** The group and position an operation points back to (op->arg and entry in the C structs). */
  type Owners = map<Registration, (nat, nat)>

  ghost predicate Owned(regs: seq<Registration>, owner: Owners, g: nat) {
    forall k :: 0 <= k < |regs| ==> regs[k] in owner && owner[regs[k]] == (g, k)
  }

  /** Every operation of a new group points back to it. */
  function Adopt(regs: seq<Registration>, owner: Owners, g: nat): Owners {
    if regs == [] then owner
    else Adopt(regs[..|regs| - 1], owner, g)[regs[|regs| - 1] := (g, |regs| - 1)]
  }

  lemma {:induction false} Adopted(regs: seq<Registration>, owner: Owners, g: nat)
    requires NoDup(regs)
    ensures Owned(regs, Adopt(regs, owner, g), g)
    ensures forall r :: r in Adopt(regs, owner, g) <==> r in owner || r in regs
    ensures forall r :: r in owner && r !in regs ==> Adopt(regs, owner, g)[r] == owner[r]
  {
    if regs == [] {
    } else {
      Adopted(regs[..|regs| - 1], owner, g);
    }
  }

  ghost predicate SendOwners(sends: seq<GroupSend>, owner: Owners) {
    && (forall g :: 0 <= g < |sends| ==> Owned(sends[g].regs, owner, g))
    && forall r :: r in owner ==> owner[r].0 < |sends| && owner[r].1 < |sends[owner[r].0].regs| && sends[owner[r].0].regs[owner[r].1] == r
  }

  ghost predicate SelectOwners(selects: seq<GroupSelect>, owner: Owners) {
    && (forall g :: 0 <= g < |selects| ==> Owned(selects[g].regs, owner, g))
    && forall r :: r in owner ==> owner[r].0 < |selects| && owner[r].1 < |selects[owner[r].0].regs| && selects[owner[r].0].regs[owner[r].1] == r
  }

  /** Operations that no group has taken yet. */
  predicate Unowned(regs: seq<Registration>, owner: Owners) {
    forall r :: r in regs ==> r !in owner
  }

  lemma AdoptSend(sends: seq<GroupSend>, owner: Owners, s: GroupSend)
    requires SendOwners(sends, owner) && NoDup(s.regs) && Unowned(s.regs, owner)
    ensures SendOwners(sends + [s], Adopt(s.regs, owner, |sends|))
  {
    var more, g := Adopt(s.regs, owner, |sends|), |sends|;
    Adopted(s.regs, owner, g);
    forall h | 0 <= h < g
      ensures Owned(sends[h].regs, more, h)
    {
      assert Owned(sends[h].regs, owner, h);
    }
    forall r | r in more && r !in owner
      ensures more[r].0 == g && more[r].1 < |s.regs| && s.regs[more[r].1] == r
    {
      var k :| 0 <= k < |s.regs| && s.regs[k] == r;
    }
  }

  lemma AdoptSelect(selects: seq<GroupSelect>, owner: Owners, s: GroupSelect)
    requires SelectOwners(selects, owner) && NoDup(s.regs) && Unowned(s.regs, owner)
    ensures SelectOwners(selects + [s], Adopt(s.regs, owner, |selects|))
  {
    var more, g := Adopt(s.regs, owner, |selects|), |selects|;
    Adopted(s.regs, owner, g);
    forall h | 0 <= h < g
      ensures Owned(selects[h].regs, more, h)
    {
      assert Owned(selects[h].regs, owner, h);
    }
    forall r | r in more && r !in owner
      ensures more[r].0 == g && more[r].1 < |s.regs| && s.regs[more[r].1] == r
    {
      var k :| 0 <= k < |s.regs| && s.regs[k] == r;
    }
  }

  /** Channels that no select ever listened on obey the laws of the single channel. */
  ghost predicate Lawful(chans: seq<Chan>, listened: set<nat>) {
    forall c :: 0 <= c < |chans| && c !in listened ==> Fifo(chans[c]) && NoNeedlessWait(chans[c])
  }

  /** Whose group send loses a registration in this step; -1 for nobody. */
  function SendHitBy(chans: seq<Chan>, c: nat, e: Event, owner: Owners): int
    requires c < |chans|
  {
    var out := SenderOut(chans[c], e);
    if out.Some? && Registration(c, out.value) in owner then owner[Registration(c, out.value)].0 else -1
  }

  function SelectHitBy(chans: seq<Chan>, c: nat, e: Event, owner: Owners): int
    requires c < |chans|
  {
    var out := ReceiverOut(chans[c], e);
    if out.Some? && Registration(c, out.value) in owner then owner[Registration(c, out.value)].0 else -1
  }

  /** Unlinking its own registration hits the group alone. */
  lemma OwnSendHit(chans: seq<Chan>, sends: seq<GroupSend>, owner: Owners, selectOwner: Owners, g: nat, i: nat)
    requires SendOwners(sends, owner) && g < |sends| && i < |sends[g].regs| && sends[g].regs[i].member < |chans|
    ensures var (c, e) := (sends[g].regs[i].member, Retract(sends[g].regs[i].ticket));
            (SendHitBy(chans, c, e, owner) == -1 || SendHitBy(chans, c, e, owner) == g) && SelectHitBy(chans, c, e, selectOwner) == -1
  {
    assert Owned(sends[g].regs, owner, g);
  }

  lemma OwnSelectHit(chans: seq<Chan>, selects: seq<GroupSelect>, owner: Owners, sendOwner: Owners, g: nat, i: nat)
    requires SelectOwners(selects, owner) && g < |selects| && i < |selects[g].regs| && selects[g].regs[i].member < |chans|
    ensures var (c, e) := (selects[g].regs[i].member, Unqueue(selects[g].regs[i].ticket));
            (SelectHitBy(chans, c, e, owner) == -1 || SelectHitBy(chans, c, e, owner) == g) && SendHitBy(chans, c, e, sendOwner) == -1
  {
    assert Owned(selects[g].regs, owner, g);
  }

  /** A step that takes nothing out of the queues, or only a ticket that belongs to no group. */
  predicate HitsNobody(chans: seq<Chan>, c: nat, e: Event, sendOwner: Owners, selectOwner: Owners)
    requires c < |chans|
  {
    && (SenderOut(chans[c], e).Some? ==> Registration(c, SenderOut(chans[c], e).value) !in sendOwner)
    && (ReceiverOut(chans[c], e).Some? ==> Registration(c, ReceiverOut(chans[c], e).value) !in selectOwner)
  }

  /** A step disturbs no group but the one it hits. */
  lemma SendsAfter(chans: seq<Chan>, c: nat, e: Event, sends: seq<GroupSend>, owner: Owners, but: int)
    requires c < |chans| && Tidy(chans[c]) && SendsOk(chans, sends, but) && SendOwners(sends, owner)
    requires but == -1 || SendHitBy(chans, c, e, owner) in {-1, but}
    ensures SendsOk(After(chans, c, e), sends, if but == -1 then SendHitBy(chans, c, e, owner) else but)
    ensures but == -1 && SendHitBy(chans, c, e, owner) >= 0 ==>
              var r := Registration(c, SenderOut(chans[c], e).value);
              SendHit(After(chans, c, e), sends[owner[r].0], owner[r].1, Fetches(e))
  {
    var hit := SendHitBy(chans, c, e, owner);
    forall g | 0 <= g < |sends| && g != but
      ensures g != hit ==> SendOk(After(chans, c, e), sends[g])
      ensures g == hit ==> SendHit(After(chans, c, e), sends[g], owner[Registration(c, SenderOut(chans[c], e).value)].1, Fetches(e))
    {
      SendAfter(chans, c, e, sends[g]);
      if g != hit {
        forall k | 0 <= k < |sends[g].regs| && sends[g].regs[k].member == c
          ensures SenderOut(chans[c], e) != Some(sends[g].regs[k].ticket)
        {
          assert Owned(sends[g].regs, owner, g);
          assert sends[g].regs[k] == Registration(c, sends[g].regs[k].ticket);
        }
      }
    }
  }

  lemma SelectsAfter(chans: seq<Chan>, c: nat, e: Event, selects: seq<GroupSelect>, owner: Owners, but: int)
    requires c < |chans| && Tidy(chans[c]) && SelectsOk(chans, selects, but) && SelectOwners(selects, owner)
    requires but == -1 || SelectHitBy(chans, c, e, owner) in {-1, but}
    ensures SelectsOk(After(chans, c, e), selects, if but == -1 then SelectHitBy(chans, c, e, owner) else but)
    ensures but == -1 && SelectHitBy(chans, c, e, owner) >= 0 ==>
              var r := Registration(c, ReceiverOut(chans[c], e).value);
              SelectHit(After(chans, c, e), selects[owner[r].0], owner[r].1, HandedBy(e))
  {
    var hit := SelectHitBy(chans, c, e, owner);
    forall g | 0 <= g < |selects| && g != but
      ensures g != hit ==> SelectOk(After(chans, c, e), selects[g])
      ensures g == hit ==> SelectHit(After(chans, c, e), selects[g], owner[Registration(c, ReceiverOut(chans[c], e).value)].1, HandedBy(e))
    {
      SelectAfter(chans, c, e, selects[g]);
      if g != hit {
        forall k | 0 <= k < |selects[g].regs| && selects[g].regs[k].member == c
          ensures ReceiverOut(chans[c], e) != Some(selects[g].regs[k].ticket)
        {
          assert Owned(selects[g].regs, owner, g);
          assert selects[g].regs[k] == Registration(c, selects[g].regs[k].ticket);
        }
      }
    }
  }

  lemma TidyAfter(chans: seq<Chan>, c: nat, e: Event, listened: set<nat>)
    requires c < |chans| && AllTidy(chans) && Lawful(chans, listened)
    requires c in listened || Courteous(chans[c], e)
    ensures AllTidy(After(chans, c, e)) && Lawful(After(chans, c, e), listened)
  {
    StepTidy(chans[c], e);
    if c !in listened {
      StepFifo(chans[c], e);
      StepWaits(chans[c], e);
    }
  }

  /** No queue is longer than before. */
  ghost predicate NoLonger(before: seq<Chan>, after: seq<Chan>) {
    && |after| == |before|
    && forall c :: 0 <= c < |before| ==>
         |after[c].senders| <= |before[c].senders| && |after[c].receivers| <= |before[c].receivers|
  }

  lemma NoLongerTrans(a: seq<Chan>, b: seq<Chan>, c: seq<Chan>)
    requires NoLonger(a, b) && NoLonger(b, c)
    ensures NoLonger(a, c)
  {
  }

  /** Unlinking one registration of a group: it is withdrawn if it was linked, and nothing else
      about the group changes. */
  lemma LoseSend(chans: seq<Chan>, regs: seq<Registration>, v: Value, i: nat, hit: int, through: bool)
    requires SendSpread(chans, regs, v, hit, through) && i < |regs| && Tidy(chans[regs[i].member])
    ensures var after := After(chans, regs[i].member, Retract(regs[i].ticket));
            && SendSpread(after, regs, v, hit, through)
            && forall k :: 0 <= k < |regs| ==> (LinkedSend(after, regs[k]) <==> LinkedSend(chans, regs[k]) && k != i)
    ensures NoLonger(chans, After(chans, regs[i].member, Retract(regs[i].ticket)))
  {
    var r := regs[i];
    StepSenders(chans[r.member], Retract(r.ticket));
    SendLinksAfter(chans, r.member, Retract(r.ticket), regs, v);
    LiveShrinks(chans[r.member].senders, {r.ticket});
    forall k | 0 <= k < |regs| && k != i
      ensures regs[k].member == r.member ==> regs[k].ticket != r.ticket
    {
      assert regs[k] != regs[i];
    }
  }

  lemma LoseSelect(chans: seq<Chan>, regs: seq<Registration>, i: nat, hit: int, v: Option<Value>)
    requires SelectSpread(chans, regs, hit, v) && i < |regs| && Tidy(chans[regs[i].member])
    ensures var after := After(chans, regs[i].member, Unqueue(regs[i].ticket));
            && SelectSpread(after, regs, hit, v)
            && forall k :: 0 <= k < |regs| ==> (LinkedSelect(after, regs[k]) <==> LinkedSelect(chans, regs[k]) && k != i)
    ensures NoLonger(chans, After(chans, regs[i].member, Unqueue(regs[i].ticket)))
  {
    var r := regs[i];
    StepReceivers(chans[r.member], Unqueue(r.ticket));
    SelectLinksAfter(chans, r.member, Unqueue(r.ticket), regs);
    LiveShrinks(chans[r.member].receivers, {r.ticket});
    forall k | 0 <= k < |regs| && k != i
      ensures regs[k].member == r.member ==> regs[k].ticket != r.ticket
    {
      assert regs[k] != regs[i];
    }
    if hit >= 0 && v.Some? {
      HandedLasts(chans, r.member, Unqueue(r.ticket), regs[hit], v.value);
    }
  }

  /** Whose registration a settled select was served with; -1 for none. */
  function Winner(s: GroupSelect): int {
    if s.value.Some? && s.entry.Some? then s.entry.value else -1
  }

  /** A select may end like this as soon as nothing of it is linked any more. */
  ghost predicate MayEnd(chans: seq<Chan>, s: GroupSelect) {
    && s.settled && SelectSpread(chans, s.regs, Winner(s), s.value)
    && (s.value.Some? ==> s.entry.Some?)
    && (s.entry.Some? ==> s.entry.value < |s.regs|)
    && (s.entry.None? && !s.stopped ==> forall k :: 0 <= k < |s.regs| ==> ShutDown(chans, s.regs[k]) && !Late(chans, s.regs[k]))
  }

  lemma SelectDone(chans: seq<Chan>, selects: seq<GroupSelect>, owner: Owners, g: nat, s: GroupSelect)
    requires SelectsOk(chans, selects, g) && SelectOwners(selects, owner) && g < |selects| && s.regs == selects[g].regs
    requires MayEnd(chans, s) && forall k :: 0 <= k < |s.regs| ==> !LinkedSelect(chans, s.regs[k])
    ensures SelectsOk(chans, selects[g := s], -1) && SelectOwners(selects[g := s], owner)
  {
    assert SelectOk(chans, s);
    SelectReplaced(selects, owner, g, s);
  }

  /** A select that loses a member that shut down goes on waiting for the others. */
  lemma SelectGoesOn(chans: seq<Chan>, selects: seq<GroupSelect>, owner: Owners, g: nat, hit: nat)
    requires SelectsOk(chans, selects, g) && SelectOwners(selects, owner) && g < |selects|
    requires SelectHit(chans, selects[g], hit, None) && selects[g].pending > 1
    requires ShutDown(chans, selects[g].regs[hit]) && !Late(chans, selects[g].regs[hit])
    ensures var on := selects[g := selects[g].(pending := selects[g].pending - 1)];
            SelectsOk(chans, on, -1) && SelectOwners(on, owner)
  {
    var s := selects[g].(pending := selects[g].pending - 1);
    assert SelectOk(chans, s);
    SelectReplaced(selects, owner, g, s);
  }

  /** A group send may end like this as soon as nothing of it is linked any more. */
  ghost predicate SendMayEnd(chans: seq<Chan>, s: GroupSend) {
    s.Settled() && SendSpread(chans, s.regs, s.value, Hit(s.report), GotThrough(s.report))
  }

  lemma SendDone(chans: seq<Chan>, sends: seq<GroupSend>, owner: Owners, g: nat, s: GroupSend)
    requires SendsOk(chans, sends, g) && SendOwners(sends, owner) && g < |sends| && s.regs == sends[g].regs
    requires SendMayEnd(chans, s) && forall k :: 0 <= k < |s.regs| ==> !LinkedSend(chans, s.regs[k])
    ensures SendsOk(chans, sends[g := s], -1) && SendOwners(sends[g := s], owner)
  {
    var done := sends[g := s];
    assert SendOk(chans, s);
    forall h | 0 <= h < |done|
      ensures Owned(done[h].regs, owner, h)
    {
      assert Owned(sends[h].regs, owner, h);
    }
  }

  lemma SelectReplaced(selects: seq<GroupSelect>, owner: Owners, g: nat, s: GroupSelect)
    requires SelectOwners(selects, owner) && g < |selects| && s.regs == selects[g].regs
    ensures SelectOwners(selects[g := s], owner)
  {
    var on := selects[g := s];
    forall h | 0 <= h < |on|
      ensures Owned(on[h].regs, owner, h)
    {
      assert Owned(selects[h].regs, owner, h);
    }
  }

  /** No member is left that could end the select: none is linked, all are shut down. */
  predicate NobodyLeft(chans: seq<Chan>, regs: seq<Registration>)
    requires Known(chans, regs)
  {
    forall k :: 0 <= k < |regs| ==> !LinkedSelect(chans, regs[k]) && ShutDown(chans, regs[k])
  }

  /** A message or the error of a closed member may end a select, and so may the departure of the last
      member. */
  lemma HitMayEnd(chans: seq<Chan>, s: GroupSelect, hit: nat, v: Option<Value>)
    requires SelectHit(chans, s, hit, v)
    ensures MayEnd(chans, s.(pending := s.pending - 1, settled := true, entry := Some(hit), value := v))
  {
  }

  lemma NobodyMayEnd(chans: seq<Chan>, s: GroupSelect, hit: nat)
    requires SelectHit(chans, s, hit, None) && NobodyLeft(chans, s.regs) && !Late(chans, s.regs[hit])
    ensures MayEnd(chans, s.(pending := s.pending - 1, settled := true, entry := None, value := None))
  {
  }

  /** The last member of a select is gone exactly when no member is left that could end it. */
  lemma LastOne(chans: seq<Chan>, s: GroupSelect, hit: nat)
    requires SelectHit(chans, s, hit, None) && ShutDown(chans, s.regs[hit])
    ensures s.pending == 1 <==> NobodyLeft(chans, s.regs)
  {
    NoneLinked(chans, s.regs);
  }

  lemma {:induction false} NoneLinked(chans: seq<Chan>, regs: seq<Registration>)
    requires Known(chans, regs)
    ensures LinkedCount(chans, regs) == 0 <==> forall k :: 0 <= k < |regs| ==> !LinkedSelect(chans, regs[k])
  {
    if regs == [] {
    } else {
      NoneLinked(chans, regs[1..]);
      assert forall k :: 1 <= k < |regs| ==> regs[k] == regs[1..][k - 1];
    }
  }

  /** The registrations of a select that is being set up. */
  ghost predicate AllLinked(chans: seq<Chan>, regs: seq<Registration>) {
    SelectRegs(chans, regs) && forall k :: 0 <= k < |regs| ==> LinkedSelect(chans, regs[k])
  }

  lemma {:induction false} LinkedAll(chans: seq<Chan>, regs: seq<Registration>)
    requires AllLinked(chans, regs)
    ensures LinkedCount(chans, regs) == |regs|
  {
    if regs == [] {
    } else {
      assert forall k :: 0 <= k < |regs[1..]| ==> regs[1..][k] == regs[k + 1];
      LinkedAll(chans, regs[1..]);
    }
  }

  /** Registering with one more member. */
  lemma JoinSend(chans: seq<Chan>, regs: seq<Registration>, c: nat, v: Value)
    requires SendOk(chans, GroupSend(v, regs, Pending)) && c < |chans| && Tidy(chans[c]) && !chans[c].closed
    ensures SendOk(After(chans, c, Offer(v)), GroupSend(v, regs + [Registration(c, |chans[c].offers|)], Pending))
  {
    var after := After(chans, c, Offer(v));
    SendAfter(chans, c, Offer(v), GroupSend(v, regs, Pending));
    var q := after[c].senders;
    assert q[|q| - 1].ticket == |chans[c].offers|;
    assert LinkedSend(after, Registration(c, |chans[c].offers|));
  }

  lemma JoinSelect(chans: seq<Chan>, regs: seq<Registration>, c: nat, it: nat)
    requires AllLinked(chans, regs) && c < |chans| && Tidy(chans[c])
    ensures AllLinked(After(chans, c, Listen(it)), regs + [Registration(c, |chans[c].waits|)])
  {
    var after := After(chans, c, Listen(it));
    SelectLinksAfter(chans, c, Listen(it), regs);
    var q := after[c].receivers;
    assert q[|q| - 1].ticket == |chans[c].waits|;
    assert LinkedSelect(after, Registration(c, |chans[c].waits|));
  }

  // ---- The state of a program that uses groups ----

  /** The fields of Groups (ChannelGroup.dfy). */
  datatype World = World(
    chans: seq<Chan>,
    sends: seq<GroupSend>,
    selects: seq<GroupSelect>,
    sendOwner: Owners,
    selectOwner: Owners,
    listened: set<nat>)

  /** Everything is in order except group send s and group select r (-1: no exception). */
  ghost predicate InOrder(w: World, s: int, r: int) {
    && AllTidy(w.chans) && Lawful(w.chans, w.listened)
    && SendsOk(w.chans, w.sends, s) && SelectsOk(w.chans, w.selects, r)
    && SendOwners(w.sends, w.sendOwner) && SelectOwners(w.selects, w.selectOwner)
  }

  /** One event of one channel disturbs no group but the ones whose registration it takes. */
  lemma EventInOrder(w: World, c: nat, e: Event, s: int, r: int)
    requires InOrder(w, s, r) && c < |w.chans| && (c in w.listened || Courteous(w.chans[c], e))
    requires s == -1 || SendHitBy(w.chans, c, e, w.sendOwner) in {-1, s}
    requires r == -1 || SelectHitBy(w.chans, c, e, w.selectOwner) in {-1, r}
    ensures InOrder(w.(chans := After(w.chans, c, e)),
                    if s == -1 then SendHitBy(w.chans, c, e, w.sendOwner) else s,
                    if r == -1 then SelectHitBy(w.chans, c, e, w.selectOwner) else r)
  {
    SendsAfter(w.chans, c, e, w.sends, w.sendOwner, s);
    SelectsAfter(w.chans, c, e, w.selects, w.selectOwner, r);
    TidyAfter(w.chans, c, e, w.listened);
  }

  lemma SendEndInOrder(w: World, g: nat, s: GroupSend)
    requires InOrder(w, g, -1) && g < |w.sends| && s.regs == w.sends[g].regs
    requires SendMayEnd(w.chans, s) && forall k :: 0 <= k < |s.regs| ==> !LinkedSend(w.chans, s.regs[k])
    ensures InOrder(w.(sends := w.sends[g := s]), -1, -1)
  {
    SendDone(w.chans, w.sends, w.sendOwner, g, s);
  }

  lemma SelectEndInOrder(w: World, g: nat, s: GroupSelect)
    requires InOrder(w, -1, g) && g < |w.selects| && s.regs == w.selects[g].regs
    requires MayEnd(w.chans, s) && forall k :: 0 <= k < |s.regs| ==> !LinkedSelect(w.chans, s.regs[k])
    ensures InOrder(w.(selects := w.selects[g := s]), -1, -1)
  {
    SelectDone(w.chans, w.selects, w.selectOwner, g, s);
  }

  lemma SelectOnInOrder(w: World, g: nat, hit: nat)
    requires InOrder(w, -1, g) && g < |w.selects| && SelectHit(w.chans, w.selects[g], hit, None)
    requires ShutDown(w.chans, w.selects[g].regs[hit]) && !Late(w.chans, w.selects[g].regs[hit]) && w.selects[g].pending > 1
    ensures InOrder(w.(selects := w.selects[g := w.selects[g].(pending := w.selects[g].pending - 1)]), -1, -1)
  {
    SelectGoesOn(w.chans, w.selects, w.selectOwner, g, hit);
  }

  lemma NewSendInOrder(w: World, s: GroupSend)
    requires InOrder(w, -1, -1) && SendOk(w.chans, s) && Unowned(s.regs, w.sendOwner)
    ensures InOrder(w.(sends := w.sends + [s], sendOwner := Adopt(s.regs, w.sendOwner, |w.sends|)), -1, -1)
  {
    AdoptSend(w.sends, w.sendOwner, s);
  }

  lemma NewSelectInOrder(w: World, s: GroupSelect)
    requires InOrder(w, -1, -1) && SelectOk(w.chans, s) && Unowned(s.regs, w.selectOwner)
    ensures InOrder(w.(selects := w.selects + [s], selectOwner := Adopt(s.regs, w.selectOwner, |w.selects|)), -1, -1)
  {
    AdoptSelect(w.selects, w.selectOwner, s);
  }
}
