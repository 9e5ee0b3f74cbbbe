/** The read side of a plaintext stream (src/stream.c:649-936), with libuv reduced to what it hands to
    read_cb. Completing a read resumes its task in the middle of the callback; what the resumed
    tasks then do to the stream is a script, up to the marker at which control comes back. */
module StreamRead {
  import opened Queues
  import opened RingBufferObject

  datatype Error = EndOfFile | Already | Canceled | TimedOut | Other(code: int)

  /** How one read ended. A read at the end of the stream succeeds with no bytes. */
  datatype Outcome = Data(bytes: seq<byte>) | AtEnd | Failure(error: Error)

  /** What read_cb is called with. */
  datatype Arrival = Nothing | Bytes(bytes: seq<byte>) | Eof | Reset | Fault(error: Error)

  /** What another task does while it runs; Back returns to the interrupted operation. */
  datatype Act = AskRead(want: nat) | AskShutdown | AskClose | AskCancel(error: Error) | SetOtherFlags(on: bool) | Back

  const CHUNK := 4096
  const LEAST_SIZE := 0x8000

  function Payload(o: Outcome): seq<byte> {
    if o.Data? then o.bytes else []
  }

  /** All bytes the reads returned, in the order in which the reads ended. */
  function Returned(results: seq<Outcome>): seq<byte> {
    if results == [] then [] else Returned(results[..|results| - 1]) + Payload(results[|results| - 1])
  }

  lemma ReturnedMore(results: seq<Outcome>, o: Outcome)
    ensures Returned(results + [o]) == Returned(results) + Payload(o)
  {
    assert (results + [o])[..|results|] == results;
  }

  lemma EmptyFront(s: seq<byte>, b: seq<byte>)
    ensures |s| == 0 ==> s + b == b
  {
  }

  lemma SplitAt(s: seq<byte>, k: nat)
    requires k <= |s|
    ensures s == s[..k] + s[k..] && s[..0] == []
  {
  }

  class Reader {
    const buffer: RingBuffer
    var eof: bool
    var reading: bool
    var shut: bool
    var closed: bool
    var otherFlags: bool          // any of the flags that belong to the write side
    var waiting: bool             // stream->read.base.status == ASYNC_STATUS_RUNNING
    var want: nat                 // ... and the length that read asks for
    ghost var received: seq<byte>
    ghost var results: seq<Outcome>
    ghost var returned: seq<byte>

    /** What holds whenever another task can run: the bytes returned so far, followed by those in the
        buffer, are the bytes received; a read is blocked only on an empty buffer that is being
        filled; nothing is read any more after the end. */
    ghost predicate Sound()
      reads this, buffer, buffer.data
    {
      Conserved() && Blocked()
    }

    ghost predicate Conserved()
      reads this, buffer, buffer.data
    {
      && buffer.Valid() && buffer.data.Length >= LEAST_SIZE
      && returned == Returned(results)
      && received == returned + buffer.Contents()
      && (eof ==> !reading) && (shut ==> eof)
    }

    ghost predicate Blocked()
      reads this, buffer
    {
      waiting ==> buffer.len == 0 && reading && !eof
    }

    /** What holds between callbacks in addition. */
    ghost predicate Room()
      reads this, buffer
    {
      reading ==> buffer.len + CHUNK <= buffer.data.Length
    }

    /** async_stream_init with init_buffer. */
    constructor (size: nat)
      ensures Sound() && Room() && received == [] && results == [] && !reading && !waiting
      ensures fresh(buffer) && fresh(buffer.data) && buffer.data.Length >= size
    {
      buffer := new RingBuffer(if size < LEAST_SIZE then LEAST_SIZE else size);
      eof, reading, shut, closed, otherFlags, waiting, want := false, false, false, false, false, false, 0;
      received, results, returned := [], [], [];
    }

    /** should_start_read and should_continue_read. */
    predicate ShouldRead()
      requires buffer.Valid()
      reads this, buffer
    {
      buffer.data.Length - buffer.len >= CHUNK
    }

    /** read_alloc_cb: the window libuv may write to is never empty. */
    method AllocWindow() returns (at: nat, n: nat)
      requires Sound() && Room() && reading
      ensures 0 < n && at + n <= buffer.data.Length && n == buffer.Window() && at == buffer.wpos
      ensures forall i :: at <= i < at + n ==> !buffer.Holds(i)
    {
      n := buffer.WriteLen();
      at := buffer.wpos;
    }

    /** A read ends with outcome o. */
    ghost method Log(o: Outcome)
      requires returned == Returned(results)
      modifies this`results, this`returned
      ensures results == old(results) + [o] && returned == old(returned) + Payload(o)
      ensures returned == Returned(results)
    {
      ReturnedMore(results, o);
      results := results + [o];
      returned := returned + Payload(o);
    }

    /** The oldest bytes are taken out of the buffer for a read that ends with them. */
    method Fetch(n: nat) returns (o: Outcome)
      requires Conserved()
      modifies this`results, this`returned, buffer
      ensures Conserved() && results == old(results) + [o]
      ensures o == Data(old(buffer.Contents())[..Min(n, old(buffer.len))])
      ensures buffer.len <= old(buffer.len)
    {
      var bytes := TakeOut(n);
      o := Data(bytes);
      Regroup(returned, bytes, buffer.Contents());
      Log(o);
    }

    method TakeOut(n: nat) returns (bytes: seq<byte>)
      requires buffer.Valid()
      modifies buffer
      ensures buffer.Valid() && bytes == old(buffer.Contents())[..Min(n, old(buffer.len))]
      ensures old(buffer.Contents()) == bytes + buffer.Contents()
      ensures buffer.len <= old(buffer.len)
    {
      ghost var before := buffer.Contents();
      var str, k := buffer.ReadString(n);
      SplitAt(before, k);
      bytes := [];
      if str != null {
        bytes := str[..];
      }
    }

    /** A read that finds bytes. Reading is started again behind it only when no flag at all is set:
        the code tests "flags && EOF". */
    method DirectRead(n: nat) returns (o: Outcome)
      requires Sound() && buffer.len > 0
      modifies this`reading, this`results, this`returned, buffer
      ensures Sound() && (old(Room()) ==> Room())
      ensures o == Data(old(buffer.Contents())[..Min(n, old(buffer.len))]) && results == old(results) + [o]
      ensures reading == (old(reading) || (!(eof || shut || closed || otherFlags) && buffer.len + CHUNK <= buffer.data.Length))
    {
      o := Fetch(n);
      Restart();
    }

    method Restart()
      requires Sound()
      modifies this`reading
      ensures Sound() && (old(Room()) ==> Room())
      ensures reading == (old(reading) || (!(eof || shut || closed || otherFlags) && buffer.len + CHUNK <= buffer.data.Length))
    {
      if !(eof || reading || shut || closed || otherFlags) && ShouldRead() {
        reading := true;
      }
    }

    /** A read that ends without bytes. */
    method EndRead(o: Outcome)
      requires Sound() && !o.Data?
      modifies this`results, this`returned
      ensures Sound() && results == old(results) + [o]
    {
      Log(o);
      assert returned == old(returned);
    }

    /** async_stream_read up to the point where a blocked caller is suspended (None). */
    method Read(n: nat) returns (r: Option<Outcome>)
      requires Sound()
      modifies this, buffer
      ensures Sound() && (old(Room()) ==> Room()) && received == old(received) && eof == old(eof) && shut == old(shut) && closed == old(closed)
      ensures r.None? ==> waiting && reading && want == n && !old(waiting) && results == old(results)
      ensures Steady() && buffer.len <= old(buffer.len)
      ensures r.Some? && !r.value.Data? ==> reading == old(reading) && buffer.len == old(buffer.len)
      ensures r.Some? ==> waiting == old(waiting) && results == old(results) + [r.value]
      ensures old(shut) ==> r == Some(Failure(EndOfFile))
      ensures !old(shut) && old(waiting) ==> r == Some(Failure(Already))
      ensures !old(shut || waiting) && old(buffer.len) > 0 ==>
                && r == Some(Data(old(buffer.Contents())[..Min(n, old(buffer.len))]))
                && reading == (old(reading) || (!old(eof || closed || otherFlags) && buffer.len + CHUNK <= buffer.data.Length))
      ensures !old(shut || waiting) && old(buffer.len) == 0 ==> if old(eof) then r == Some(AtEnd) else r.None?
    {
      if shut {
        r := Some(Failure(EndOfFile));
        EndRead(r.value);
      } else if waiting {
        r := Some(Failure(Already));
        EndRead(r.value);
      } else if buffer.len > 0 {
        var o := DirectRead(n);
        r := Some(o);
      } else if eof {
        r := Some(AtEnd);
        EndRead(r.value);
      } else {
        reading, waiting, want := true, true, n;
        r := None;
      }
    }

    method Dismiss(o: Outcome)
      requires Conserved() && waiting && !o.Data?
      modifies this`results, this`returned, this`waiting
      ensures Sound() && !waiting && results == old(results) + [o]
    {
      Release();
      EndRead(o);
    }

    /** ASYNC_FINISH_OP on the blocked read: its task gets the outcome and runs. */
    method Complete(o: Outcome, script: seq<Act>) returns (rest: seq<Act>)
      requires Conserved() && waiting
      requires !o.Data?
      modifies this, buffer
      decreases |script|, 3
      ensures Sound() && Extends(old(results) + [o], old(received)) && Lasts()
      ensures old(Room()) ==> Room()
      ensures if script == [] then rest == [] && !waiting && Steady() && reading == old(reading) && results == old(results) + [o]
              else |rest| < |script|
    {
      Dismiss(o);
      rest := Others(script);
    }

    /** The read operation is reset. */
    method Release()
      requires Conserved()
      modifies this`waiting
      ensures Sound() && !waiting
    {
      waiting := false;
    }

    ghost predicate Extends(before: seq<Outcome>, got: seq<byte>)
      reads this
    {
      before <= results && received == got
    }

    /** The flags of the stream are as they were. */
    twostate predicate Steady()
      reads this
    {
      eof == old(eof) && shut == old(shut) && closed == old(closed) && otherFlags == old(otherFlags)
    }

    /** The end of the stream, a shutdown and a close are final, and tasks stop the reading in no other way. */
    twostate predicate Lasts()
      reads this
    {
      (old(reading) ==> reading || eof) && (old(eof) ==> eof) && (old(shut) ==> shut) && (old(closed) ==> closed)
    }

    /** Tasks that run before control returns to the interrupted operation. */
    method Others(script: seq<Act>) returns (rest: seq<Act>)
      requires Sound()
      modifies this, buffer
      decreases |script|, 1
      ensures Sound() && Extends(old(results), old(received)) && Lasts()
      ensures old(Room()) ==> Room()
      ensures if script == [] then rest == [] && unchanged(this) && unchanged(buffer) else |rest| < |script|
    {
      rest := script;
      while rest != [] && !rest[0].Back?
        invariant Sound() && Extends(old(results), old(received)) && Lasts()
        invariant old(Room()) ==> Room()
        invariant |rest| <= |script|
        invariant script == [] ==> unchanged(this) && unchanged(buffer)
        decreases |rest|
      {
        rest := Do(rest[0], rest[1..]);
      }
      if rest != [] {
        rest := rest[1..];
      }
    }

    method Do(act: Act, script: seq<Act>) returns (rest: seq<Act>)
      requires Sound()
      modifies this, buffer
      decreases |script|, 6
      ensures Sound() && Extends(old(results), old(received)) && Lasts()
      ensures old(Room()) ==> Room()
      ensures |rest| <= |script|
    {
      rest := script;
      match act
      case AskRead(n) =>
        var _ := Read(n);
      case AskShutdown =>
        rest := ShutdownRead(script);
      case AskClose =>
        rest := Close(script);
      case AskCancel(error) =>
        if waiting { rest := Complete(Failure(error), script); }
      case SetOtherFlags(on) =>
        otherFlags := on;
      case Back =>
    }

    /** The read part of async_stream_shutdown. */
    method ShutdownRead(script: seq<Act>) returns (rest: seq<Act>)
      requires Sound()
      modifies this, buffer
      decreases |script|, 4
      ensures Sound() && Extends(old(results), old(received)) && Lasts() && eof && shut && !reading
      ensures old(Room()) ==> Room()
      ensures old(!shut && waiting) ==> old(results) + [Failure(Canceled)] <= results
      ensures old(shut || !waiting) ==> results == old(results) && rest == script
      ensures script == [] ==> !waiting || old(shut)
      ensures |rest| <= |script|
    {
      rest := script;
      var before := shut;
      eof := true;
      if !before {
        shut := true;
        if reading {
          reading := false;
        }
        if waiting {
          rest := Complete(Failure(Canceled), script);
        }
      }
    }

    /** async_stream_close_cb. */
    method Close(script: seq<Act>) returns (rest: seq<Act>)
      requires Sound()
      modifies this, buffer
      decreases |script|, 4
      ensures Sound() && Extends(old(results), old(received)) && Lasts()
      ensures old(Room()) ==> Room()
      ensures closed && (!old(closed) ==> eof && shut && !reading)
      ensures old(!closed && waiting) ==> old(results) + [Failure(Canceled)] <= results
      ensures old(closed || !waiting) ==> results == old(results) && rest == script
      ensures old(closed) ==> unchanged(this)
      ensures |rest| <= |script|
    {
      rest := script;
      if closed {
        return;
      }
      closed, eof, shut := true, true, true;
      if reading {
        reading := false;
      }
      if waiting {
        rest := Complete(Failure(Canceled), script);
      }
    }

    // ---- Callbacks of the event loop ----

    /** The bytes libuv has put into the window join the buffer (process_input_bytes). */
    method Receive(bytes: seq<byte>)
      requires Conserved() && |bytes| <= buffer.Window()
      modifies this`received, buffer, buffer.data
      ensures Conserved() && received == old(received) + bytes
      ensures buffer.Contents() == old(buffer.Contents()) + bytes
    {
      Store(bytes);
      Regroup(returned, old(buffer.Contents()), bytes);
      received := received + bytes;
    }

    method Store(bytes: seq<byte>)
      requires buffer.Valid() && |bytes| <= buffer.Window()
      modifies buffer, buffer.data
      ensures buffer.Valid() && buffer.Contents() == old(buffer.Contents()) + bytes
    {
      ghost var at := buffer.wpos;
      buffer.Fill(bytes);
      assert buffer.data[at..at + |bytes|] == bytes;
      buffer.WriteMove(|bytes|);
    }

    method HandOver() returns (o: Outcome)
      requires Conserved() && waiting && buffer.len > 0
      modifies this`results, this`returned, this`waiting, buffer
      ensures Sound() && !waiting && results == old(results) + [o]
      ensures o == Data(old(buffer.Contents())[..Min(old(want), old(buffer.len))])
    {
      o := Fetch(want);
      Release();
    }

    /** The blocked read is finished with the oldest bytes. */
    method Deliver(script: seq<Act>) returns (rest: seq<Act>, ghost o: Outcome)
      requires Conserved() && waiting && buffer.len > 0
      modifies this, buffer
      decreases |script|, 3
      ensures o == Data(old(buffer.Contents())[..Min(old(want), old(buffer.len))])
      ensures Sound() && Extends(old(results) + [o], old(received)) && Lasts()
      ensures |rest| <= |script|
      ensures script == [] ==> rest == [] && !waiting && Steady() && reading == old(reading) && results == old(results) + [o]
    {
      o := HandOver();
      rest := Others(script);
    }

    /** The loop of read_cb that serves the blocked read. A task it resumes can block again only when
        the buffer is empty, so the loop turns at most once. */
    method Serve(script: seq<Act>) returns (rest: seq<Act>, ghost os: seq<Outcome>)
      requires Conserved() && (waiting ==> reading && !eof)
      modifies this, buffer
      decreases |script|, 4
      ensures os == if old(waiting && buffer.len > 0) then [Data(old(buffer.Contents())[..Min(old(want), old(buffer.len))])] else []
      ensures Sound() && Extends(old(results) + os, old(received)) && Lasts()
      ensures |rest| <= |script|
      ensures script == [] ==> rest == [] && Steady() && reading == old(reading) && results == old(results) + os
      ensures script == [] ==> waiting == (old(waiting) && os == [])
    {
      rest, os := script, [];
      while waiting && buffer.len > 0
        invariant os == [] ==> unchanged(this) && unchanged(buffer) && rest == script
        invariant os != [] ==> Sound() && old(waiting && buffer.len > 0)
        invariant os != [] ==> os == [Data(old(buffer.Contents())[..Min(old(want), old(buffer.len))])]
        invariant Extends(old(results) + os, old(received)) && Lasts() && |rest| <= |script|
        invariant script == [] ==> rest == [] && Steady() && reading == old(reading) && results == old(results) + os
        invariant script == [] && os != [] ==> !waiting
        decreases 1 - |os|
      {
        ghost var o;
        rest, o := Deliver(rest);
        os := [o];
      }
    }

    /** The loops of read_cb that finish the blocked read for good. */
    method FinishAll(o: Outcome, script: seq<Act>) returns (rest: seq<Act>)
      requires Conserved() && Room() && !o.Data?
      requires waiting ==> buffer.len == 0
      modifies this, buffer
      decreases |script|, 4
      ensures Sound() && Room() && !waiting && Lasts()
      ensures Extends(old(results) + (if old(waiting) then [o] else []), old(received))
      ensures |rest| <= |script| && (old(!waiting) ==> unchanged(this) && unchanged(buffer))
      ensures script == [] ==> Steady() && reading == old(reading) && results == old(results) + (if old(waiting) then [o] else [])
    {
      rest := script;
      ghost var turns := 0;
      while waiting
        invariant Conserved() && Room() && Lasts() && |rest| <= |script|
        invariant turns == 0 ==> unchanged(this) && unchanged(buffer)
        invariant turns > 0 ==> old(waiting) && Sound() && Extends(old(results) + [o], old(received))
        invariant script == [] ==> rest == [] && Steady() && reading == old(reading)
        invariant script == [] && turns > 0 ==> results == old(results) + [o] && !waiting
        decreases |rest|, waiting
      {
        rest := Complete(o, rest);
        turns := 1;
      }
    }

    /** read_cb. */
    method ReadCallback(a: Arrival, script: seq<Act>) returns (rest: seq<Act>)
      requires Sound() && Room() && reading
      requires a.Bytes? ==> 0 < |a.bytes| <= buffer.Window()
      modifies this, buffer, buffer.data
      ensures Sound() && Room()
      ensures Extends(old(results) + Answer(a, old(waiting), old(want)), old(received) + (if a.Bytes? then a.bytes else []))
      ensures a.Eof? || a.Reset? ==> eof && !reading && !waiting
      ensures a.Fault? ==> !waiting
      ensures a.Nothing? ==> unchanged(this) && unchanged(buffer) && rest == script
      ensures script == [] ==> results == old(results) + Answer(a, old(waiting), old(want))
      ensures script == [] ==> eof == (old(eof) || a.Eof? || a.Reset?) && (a.Fault? ==> !reading)
      ensures script == [] ==> waiting == (old(waiting) && a.Nothing?)
      ensures script == [] && a.Bytes? ==> reading == (buffer.len + CHUNK <= buffer.data.Length)
      ensures a.Bytes? ==> eof || reading == (buffer.len + CHUNK <= buffer.data.Length)
    {
      rest := script;
      match a
      case Nothing =>
      case Fault(error) =>
        reading := false;
        rest := FinishAll(Failure(error), script);
      case Eof =>
        rest := EndArrives(script);
      case Reset =>
        rest := EndArrives(script);
      case Bytes(bytes) =>
        rest := BytesArrive(bytes, script);
    }

    method EndArrives(script: seq<Act>) returns (rest: seq<Act>)
      requires Sound()
      modifies this, buffer
      ensures Sound() && Room() && eof && !reading && !waiting
      ensures Extends(old(results) + (if old(waiting) then [AtEnd] else []), old(received))
      ensures script == [] ==> results == old(results) + (if old(waiting) then [AtEnd] else [])
    {
      eof := true;
      // The serving loop does not turn here: a read is blocked on an empty buffer only.
      assert !(waiting && buffer.len > 0);
      reading := false;
      rest := FinishAll(AtEnd, script);
    }

    method Answered(bytes: seq<byte>, script: seq<Act>) returns (rest: seq<Act>)
      requires Sound() && reading && 0 < |bytes| <= buffer.Window()
      modifies this, buffer, buffer.data
      ensures Sound() && Extends(old(results) + Answer(Bytes(bytes), old(waiting), old(want)), old(received) + bytes)
      ensures reading || eof
      ensures script == [] ==> rest == [] && Steady() && results == old(results) + Answer(Bytes(bytes), old(waiting), old(want)) && !waiting
    {
      Receive(bytes);
      EmptyFront(old(buffer.Contents()), bytes);
      ghost var os;
      rest, os := Serve(script);
    }

    method BytesArrive(bytes: seq<byte>, script: seq<Act>) returns (rest: seq<Act>)
      requires Sound() && Room() && reading && 0 < |bytes| <= buffer.Window()
      modifies this, buffer, buffer.data
      ensures Sound() && Room()
      ensures Extends(old(results) + Answer(Bytes(bytes), old(waiting), old(want)), old(received) + bytes)
      ensures eof || reading == (buffer.len + CHUNK <= buffer.data.Length)
      ensures script == [] ==> Steady() && results == old(results) + Answer(Bytes(bytes), old(waiting), old(want)) && !waiting
    {
      rest := Answered(bytes, script);
      if eof {
        reading := false;
        rest := FinishAll(AtEnd, rest);
        return;
      }
      if !ShouldRead() {
        reading := false;
      }
    }

    /** What a blocked read is told by an arrival. */
    ghost function Answer(a: Arrival, blocked: bool, n: nat): seq<Outcome> {
      if !blocked then []
      else
        match a
        case Nothing => []
        case Bytes(bytes) => [Data(bytes[..Min(n, |bytes|)])]
        case Eof => [AtEnd]
        case Reset => [AtEnd]
        case Fault(error) => [Failure(error)]
    }

    /** timeout_read. */
    method Timeout(script: seq<Act>) returns (rest: seq<Act>)
      requires Sound() && Room()
      modifies this, buffer
      ensures Sound() && Room() && Extends(old(results) + (if old(waiting) then [Failure(TimedOut)] else []), old(received))
      ensures script == [] ==> !waiting && Steady() && results == old(results) + (if old(waiting) then [Failure(TimedOut)] else [])
    {
      rest := script;
      if waiting {
        rest := Complete(Failure(TimedOut), script);
      }
    }
  }
}
