/** The channel as the C code has it: a fixed array of values used as a ring, and the two queues of
    blocked operations (src/channel.c:46-70), updated in place.
    Finishing an operation resumes its task in the middle of the method that finishes it. What
    the resumed tasks then do to this channel is a script: any sequence of operations, each of
    which may itself resume further tasks, up to the marker at which control comes back. The
    methods are proved for every script, so for every nesting of resumed tasks. */
module ChannelObject {
  import opened Queues
  import opened Ring
  import opened ChannelSpec

  /** What another task does while it runs; Back returns to the interrupted operation. */
  datatype Act =
    | DoSend(value: Value)
    | DoFetch(it: nat)
    | DoClose(reason: Option<Error>)
    | DoRetract(ticket: nat)
    | DoUnqueue(waiter: nat)
    | Back

  /** What Channel::send does with its value before the caller continues or is suspended. */
  datatype SendResult = Refused | Passed | Suspended(ticket: nat)

  /** What advancing an iterator finds. */
  datatype FetchResult = Got(value: Value) | Waiting(waiter: nat) | Busy | Finished | Failed(error: Error)

  function Values(s: seq<Entry<Value>>): (vs: seq<Value>)
    ensures |vs| == |s|
  {
    seq(|s|, i requires 0 <= i < |s| => s[i].item)
  }

  lemma ValuesShift(b: seq<Entry<Value>>, e: Entry<Value>)
    ensures Values(b + [e]) == Values(b) + [e.item]
    ensures b != [] ==> Values(b[1..]) == Values(b)[1..]
  {
  }

  class Channel {
    const data: array<Value>
    var length: nat
    var rpos: nat
    var wpos: nat
    var senders: seq<Entry<Value>>
    var receivers: seq<Entry<nat>>
    var closed: bool
    var error: Option<Error>
    var sends: nat
    var waits: nat
    ghost var trace: seq<Event>
    ghost var m: Chan

    ghost predicate RingHolds(held: seq<Value>)
      reads this, data
    {
      && length <= data.Length
      && |held| == length
      && (data.Length > 0 ==>
          && rpos < data.Length
          && wpos == Wrap(rpos + length, data.Length)
          && held == Stored(data[..], rpos, length))
    }

    /** The fields are those of the machine state c. */
    ghost predicate Shows(c: Chan)
      reads this, data
    {
      && RingHolds(Values(c.buffer))
      && senders == c.senders
      && receivers == c.receivers
      && closed == c.closed
      && error == c.error
      && sends == |c.offers|
      && waits == |c.waits|
      && data.Length == c.capacity
    }

    /** The object shows the machine after the recorded events. */
    ghost predicate Valid()
      reads this, data
    {
      Run(Open(data.Length), trace) == Some(m) && Shows(m)
    }

    /** What was accepted and delivered stays so. A closed channel stays closed, with its error, and once
        nobody waits on it nobody ever does again. */
    twostate predicate Extends()
      reads this
    {
      && old(m.offers) <= m.offers
      && old(m.delivered) <= m.delivered
      && (old(closed) ==>
            && closed && error == old(error)
            && (old(receivers) == [] ==> receivers == [])
            && (old(senders) == [] ==> senders == [])
            && m.shut == old(m.shut))
    }

    constructor (capacity: nat)
      ensures Valid() && fresh(data) && data.Length == capacity && trace == []
    {
      data := new Value[capacity];
      length, rpos, wpos := 0, 0, 0;
      senders, receivers := [], [];
      closed, error := false, None;
      sends, waits := 0, 0;
      trace, m := [], Open(capacity);
    }

    /** The laws of the machine hold of the object whenever other tasks can look at it. */
    lemma Laws()
      requires Valid()
      ensures Fifo(m) && NoNeedlessWait(m) && m.capacity == data.Length
      ensures error.Some? || m.shut.Some? ==> closed
    {
      EveryRun(data.Length, trace, m);
    }

    ghost method Record(e: Event)
      requires Run(Open(data.Length), trace) == Some(m) && Courteous(m, e)
      modifies this`trace, this`m
      ensures trace == old(trace) + [e] && m == Step(old(m), e)
      ensures Run(Open(data.Length), trace) == Some(m)
      ensures old(m.offers) <= m.offers && old(m.delivered) <= m.delivered
    {
      RunMore(Open(data.Length), trace, m, e);
      StepHistory(m, e);
      trace, m := trace + [e], Step(m, e);
    }

    /** Puts a value into the first free slot. */
    method Store(v: Value, ghost held: seq<Value>)
      requires RingHolds(held) && length < data.Length
      modifies this`wpos, this`length, data
      ensures RingHolds(held + [v])
    {
      StorePush(data[..], rpos, length, v);
      ghost var was := data[..];
      data[wpos] := v;
      assert data[..] == was[wpos := v];
      wpos := Wrap(wpos + 1, data.Length);
      length := length + 1;
    }

    /** Takes the value at the read position. */
    method Unstore(ghost held: seq<Value>) returns (v: Value)
      requires RingHolds(held) && length > 0
      modifies this`rpos, this`length
      ensures v == held[0] && RingHolds(held[1..])
    {
      StoreDrop(data[..], rpos, length, 1);
      v := data[rpos];
      rpos := Wrap(rpos + 1, data.Length);
      length := length - 1;
    }

    /** What a send does to an open channel before anybody is resumed (src/channel.c:481-503). */
    method Place(v: Value, ghost c: Chan) returns (r: SendResult)
      requires Shows(c) && !closed && error.None?
      modifies this`wpos, this`length, this`senders, this`receivers, this`sends, data
      ensures Shows(Sent(c, v))
      ensures r == if old(receivers) != [] || old(length) < data.Length then Passed else Suspended(old(sends))
    {
      sends := sends + 1;
      if receivers != [] {
        receivers := receivers[1..];
        return Passed;
      }
      if length < data.Length {
        ValuesShift(c.buffer, Entry(|c.offers|, v));
        Store(v, Values(c.buffer));
        return Passed;
      }
      senders := senders + [Entry(sends - 1, v)];
      return Suspended(sends - 1);
    }

    /** Channel::send (src/channel.c:460-522) up to the point where a blocked caller is suspended. */
    method Send(v: Value, script: seq<Act>) returns (r: SendResult, rest: seq<Act>)
      requires Valid()
      modifies this, data
      decreases |script|, 2
      ensures Valid() && |rest| <= |script|
      ensures old(trace) + [ChannelSpec.Send(v)] <= trace
      ensures Extends()
      ensures r.Refused? <==> old(closed)
      ensures r.Suspended? <==> !old(closed) && old(receivers) == [] && old(length) == data.Length
      ensures r.Suspended? ==> r.ticket == old(sends) && senders == old(senders) + [Entry(r.ticket, v)]
      ensures r.Refused? ==> m == old(m) && trace == old(trace) + [ChannelSpec.Send(v)] && rest == script
      ensures r.Passed? && old(receivers) == [] ==> m.buffer == old(m.buffer) + [Entry(old(sends), v)] && rest == script
      ensures r.Passed? && old(receivers) != [] ==>
                old(m.delivered) + [Delivery(Entry(old(sends), v), old(receivers)[0].item, Some(old(receivers)[0].ticket))] <= m.delivered
      ensures !r.Refused? ==> old(m.offers) + [Entry(old(sends), v)] <= m.offers
    {
      Laws();
      rest := script;
      if error.Some? || closed {
        Record(ChannelSpec.Send(v));
        return Refused, rest;
      }
      var handed := receivers != [];
      r := Place(v, m);
      Record(ChannelSpec.Send(v));
      if handed {
        rest := Others(script);
      }
    }

    /** A buffered value goes out and the first blocked sender's value moves up behind the others
        (src/channel.c:210-229). */
    method TakeAndRefill(ghost it: nat, ghost c: Chan) returns (v: Value)
      requires Shows(c) && length > 0 && senders != []
      modifies this`rpos, this`wpos, this`length, this`senders, data
      ensures Shows(Taken(c, it)) && v == c.buffer[0].item
    {
      ghost var before, rest := Values(c.buffer), Values(c.buffer[1..]);
      assert rest == before[1..] by {
        ValuesShift(c.buffer, c.senders[0]);
      }
      assert Values(c.buffer[1..] + [c.senders[0]]) == rest + [senders[0].item] by {
        ValuesShift(c.buffer[1..], c.senders[0]);
      }
      v := Unstore(before);
      Store(senders[0].item, rest);
      senders := senders[1..];
    }

    /** fetch_noblock up to the point where it resumes a sender (src/channel.c:206-243). */
    method Take(ghost it: nat, ghost c: Chan) returns (v: Value, woken: bool)
      requires Shows(c) && (length > 0 || senders != [])
      modifies this`rpos, this`wpos, this`length, this`senders, data
      ensures Shows(Taken(c, it)) && v == (c.buffer + c.senders)[0].item
      ensures woken <==> old(senders) != []
    {
      woken := senders != [];
      if length > 0 && woken {
        v := TakeAndRefill(it, c);
      } else if length > 0 {
        ValuesShift(c.buffer, c.buffer[0]);
        v := Unstore(Values(c.buffer));
      } else {
        v := senders[0].item;
        senders := senders[1..];
      }
    }

    /** fetch_noblock: the sender whose value moved is resumed last, when the channel is in order again. */
    method FetchNoblock(ghost it: nat, script: seq<Act>) returns (r: Option<Value>, rest: seq<Act>)
      requires Valid() && Readable(m) && !Fetching(m, it)
      modifies this, data
      decreases |script|, 2
      ensures Valid() && |rest| <= |script|
      ensures r.Some? <==> old(m.buffer != [] || m.senders != [])
      ensures r.Some? ==> old(trace) + [Fetch(it)] <= trace && r.value == old((m.buffer + m.senders)[0].item)
      ensures r.Some? ==> old(m.delivered) + [Delivery(old(m.buffer + m.senders)[0], it, None)] <= m.delivered
      ensures Extends()
      ensures r.None? ==> unchanged(this) && unchanged(data) && rest == script
    {
      rest := script;
      if length > 0 || senders != [] {
        var v, woken := Take(it, m);
        Record(Fetch(it));
        if woken {
          rest := Others(script);
        }
        return Some(v), rest;
      }
      return None, rest;
    }

    /** ChannelIterator::next with fetch_next_entry (src/channel.c:1226-1267, 1398-1416) up to the point
        where a blocked caller is suspended. */
    method Next(it: nat, script: seq<Act>) returns (r: FetchResult, rest: seq<Act>)
      requires Valid()
      modifies this, data
      decreases |script|, 3
      ensures Valid() && |rest| <= |script|
      ensures old(trace) + [Fetch(it)] <= trace
      ensures Extends()
      ensures r.Failed? <==> old(closed) && old(receivers) == [] && old(length) == 0 && old(error).Some?
      ensures r.Finished? <==> old(closed) && old(receivers) == [] && old(length) == 0 && old(error).None?
      ensures r.Failed? ==> old(error) == Some(r.error)
      ensures r.Busy? <==> exists i :: 0 <= i < |old(receivers)| && old(receivers)[i].item == it
      ensures r.Got? ==> old(m.buffer + m.senders) != [] && r.value == old((m.buffer + m.senders)[0].item)
      ensures r.Got? ==> old(m.delivered) + [Delivery(old(m.buffer + m.senders)[0], it, None)] <= m.delivered
      ensures r.Waiting? <==> !r.Finished? && !r.Failed? && !r.Busy? && old(length) == 0 && old(senders) == []
      ensures r.Waiting? ==> r.waiter == old(waits) && receivers == old(receivers) + [Entry(r.waiter, it)]
      ensures r.Finished? || r.Failed? || r.Busy? ==> m == old(m) && trace == old(trace) + [Fetch(it)] && rest == script
    {
      Laws();
      rest := script;
      if !(!closed || receivers != [] || length > 0) {
        Record(Fetch(it));
        return if error.Some? then Failed(error.value) else Finished, rest;
      }
      if exists i :: 0 <= i < |receivers| && receivers[i].item == it {
        Record(Fetch(it));
        return Busy, rest;
      }
      var v: Option<Value>;
      v, rest := FetchNoblock(it, script);
      if v.Some? {
        return Got(v.value), rest;
      }
      var w := Join(it);
      return Waiting(w), rest;
    }

    /** The fetching task joins the queue of receivers. */
    method Join(it: nat) returns (w: nat)
      requires Valid() && (!closed || receivers != []) && m.buffer == [] && m.senders == [] && !Fetching(m, it)
      modifies this
      ensures Valid() && trace == old(trace) + [Fetch(it)] && closed == old(closed)
      ensures w == old(waits) && receivers == old(receivers) + [Entry(w, it)]
    {
      Record(Fetch(it));
      receivers := receivers + [Entry(waits, it)];
      waits := waits + 1;
      w := waits - 1;
    }

    /** One turn of the first loop of dispose_state: the receiver is out of the queue before it runs. */
    method EndReceiver(script: seq<Act>) returns (rest: seq<Act>)
      requires Valid() && closed && m.shut.None? && receivers != []
      modifies this, data
      decreases |script|, 2
      ensures Valid() && Extends() && old(trace) + [DrainReceiver] <= trace
      ensures if script == [] then rest == [] && receivers == old(receivers[1..]) && senders == old(senders) else |rest| < |script|
    {
      Record(DrainReceiver);
      receivers := receivers[1..];
      rest := Others(script);
    }

    /** One turn of the second loop. */
    method EndSender(script: seq<Act>) returns (rest: seq<Act>)
      requires Valid() && closed && senders != []
      modifies this, data
      decreases |script|, 2
      ensures Valid() && Extends() && old(trace) + [DrainSender] <= trace
      ensures if script == [] then rest == [] && senders == old(senders[1..]) && receivers == old(receivers) else |rest| < |script|
    {
      Record(DrainSender);
      senders := senders[1..];
      rest := Others(script);
    }

    /** Channel::close and dispose_state (src/channel.c:245-283, 412-437): the flag is up before the
        first waiter is resumed, and every waiter is resumed from a consistent channel. */
    method Close(reason: Option<Error>, script: seq<Act>) returns (rest: seq<Act>)
      requires Valid()
      modifies this, data
      decreases |script|, 4
      ensures Valid() && |rest| <= |script|
      ensures old(trace) + [ChannelSpec.Close(reason)] <= trace && closed
      ensures old(closed) ==> trace == old(trace) + [ChannelSpec.Close(reason)] && rest == script
      ensures !old(closed) ==> senders == [] && receivers == [] && error == reason
      ensures Extends()
    {
      rest := script;
      if closed {
        Record(ChannelSpec.Close(reason));
      } else {
        RaiseFlag(reason);
        rest := EndReceivers(rest);
        Record(EndDrain);
        rest := EndSenders(rest);
      }
    }

    method RaiseFlag(reason: Option<Error>)
      requires Valid() && !closed
      modifies this`closed, this`error, this`trace, this`m
      ensures Valid() && Extends() && trace == old(trace) + [ChannelSpec.Close(reason)]
      ensures closed && error == reason && m.shut.None?
    {
      Laws();
      Record(ChannelSpec.Close(reason));
      closed, error := true, reason;
    }

    /** The first loop of dispose_state. */
    method EndReceivers(script: seq<Act>) returns (rest: seq<Act>)
      requires Valid() && closed && m.shut.None?
      modifies this, data
      decreases |script|, 3
      ensures Valid() && Extends() && receivers == [] && old(trace) <= trace && |rest| <= |script|
    {
      rest := script;
      while receivers != []
        invariant Valid() && Extends() && old(trace) <= trace && |rest| <= |script|
        decreases |rest|, |receivers|
      {
        rest := EndReceiver(rest);
      }
    }

    /** The second one. */
    method EndSenders(script: seq<Act>) returns (rest: seq<Act>)
      requires Valid() && closed
      modifies this, data
      decreases |script|, 3
      ensures Valid() && Extends() && senders == [] && old(trace) <= trace && |rest| <= |script|
    {
      rest := script;
      while senders != []
        invariant Valid() && Extends() && old(trace) <= trace && |rest| <= |script|
        decreases |rest|, |senders|
      {
        rest := EndSender(rest);
      }
    }

    /** A blocked sender is resumed by cancellation and unlinks its operation
        (src/channel.c:511-521, php_async.h:754-762). */
    method Retract(ticket: nat, script: seq<Act>) returns (rest: seq<Act>)
      requires Valid()
      modifies this, data
      decreases |script|, 2
      ensures Valid() && |rest| <= |script|
      ensures old(trace) + [ChannelSpec.Retract(ticket)] <= trace
      ensures Extends()
    {
      if !Has(senders, ticket) {
        LiveNone(senders, {ticket});
      }
      Record(ChannelSpec.Retract(ticket));
      senders := Live(senders, {ticket});
      rest := Others(script);
    }

    /** A blocked iterator is resumed by cancellation and resets its operation
        (src/channel.c:1252-1266, php_async.h:741-752). */
    method Unqueue(waiter: nat, script: seq<Act>) returns (rest: seq<Act>)
      requires Valid()
      modifies this, data
      decreases |script|, 2
      ensures Valid() && |rest| <= |script|
      ensures old(trace) + [ChannelSpec.Unqueue(waiter)] <= trace
      ensures Extends()
    {
      if !Has(receivers, waiter) {
        LiveNone(receivers, {waiter});
      }
      Record(ChannelSpec.Unqueue(waiter));
      receivers := Live(receivers, {waiter});
      rest := Others(script);
    }

    method Do(act: Act, script: seq<Act>) returns (rest: seq<Act>)
      requires Valid()
      modifies this, data
      decreases |script|, 5
      ensures Valid() && old(trace) <= trace && |rest| <= |script|
      ensures Extends()
    {
      match act
      case DoSend(v) => var _, more := Send(v, script); rest := more;
      case DoFetch(it) => var _, more := Next(it, script); rest := more;
      case DoClose(reason) => rest := Close(reason, script);
      case DoRetract(t) => rest := Retract(t, script);
      case DoUnqueue(w) => rest := Unqueue(w, script);
      case Back => rest := script;
    }

    /** Tasks that run before control returns to the interrupted operation. */
    method Others(script: seq<Act>) returns (rest: seq<Act>)
      requires Valid()
      modifies this, data
      decreases |script|, 1
      ensures Valid() && old(trace) <= trace
      ensures Extends()
      ensures if script == [] then rest == [] && unchanged(this) && unchanged(data) else |rest| < |script|
    {
      rest := script;
      while rest != [] && !rest[0].Back?
        invariant Valid() && old(trace) <= trace && |rest| <= |script|
        invariant Extends()
        invariant script == [] ==> unchanged(this) && unchanged(data)
        decreases |rest|
      {
        rest := Do(rest[0], rest[1..]);
      }
      if rest != [] {
        rest := rest[1..];
      }
    }
  }
}
