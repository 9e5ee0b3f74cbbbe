/** The write side of a plaintext stream (src/stream.c:89-101, 938-1206). libuv is reduced to what it
    does with bytes: uv_try_write takes some of them at once, a started uv_write holds the rest and
    emits it bit by bit until write_cb is called. Finishing a write resumes its task in the middle
    of write_cb; what the resumed tasks do to the stream is a script. */
module StreamWrite {
  import opened Queues
  import opened RingBufferObject

  /** What uv_try_write answers. */
  datatype Try = Again | Wrote(n: nat) | Broke(code: int)

  /** waiting: a task awaits the operation; otherwise it was written asynchronously, or cancelled
      after it had been started. */
  datatype WriteOp = WriteOp(id: nat, data: seq<byte>, offset: nat, started: bool, waiting: bool)

  datatype Result = Refused | Sent | Failed(code: int) | Queued(id: nat)

  /** What another task does while it runs; Back returns to the interrupted operation. */
  datatype Act =
    | AskWrite(data: seq<byte>, patient: bool, kernel: seq<Try>)
    | AskCancel(id: nat)
    | AskFlush
    | AskShutdown
    | Back

  type Item = Entry<seq<byte>>

  /** The bytes of the entries, one after the other. */
  function Concat(es: seq<Item>): seq<byte> {
    if es == [] then [] else Concat(es[..|es| - 1]) + es[|es| - 1].item
  }

  lemma ConcatPush(es: seq<Item>, e: Item)
    ensures Concat(es + [e]) == Concat(es) + e.item
  {
    assert (es + [e])[..|es|] == es;
  }

  lemma {:induction false} ConcatAppend(a: seq<Item>, b: seq<Item>)
    ensures Concat(a + b) == Concat(a) + Concat(b)
  {
    if b == [] {
      assert a + b == a;
    } else {
      var n := |b| - 1;
      assert (a + b)[..|a| + n] == a + b[..n];
      ConcatAppend(a, b[..n]);
    }
  }

  function Entries(ws: seq<WriteOp>): (es: seq<Item>)
    ensures |es| == |ws|
    ensures forall i :: 0 <= i < |ws| ==> es[i] == Entry(ws[i].id, ws[i].data)
  {
    seq(|ws|, i requires 0 <= i < |ws| => Entry(ws[i].id, ws[i].data))
  }

  /** The writes that were handed to libuv. */
  function Begun(ws: seq<WriteOp>): seq<WriteOp> {
    if ws != [] && ws[0].started then ws[..1] else []
  }

  lemma BegunEntries(ws: seq<WriteOp>)
    ensures |Begun(ws)| <= |ws| && Entries(Begun(ws)) == Entries(ws)[..|Begun(ws)|]
  {
  }

  lemma ConcatSplit(a: seq<Item>, b: seq<Item>, k: nat)
    requires k <= |b|
    ensures Concat(a + b) == Concat(a + b[..k]) + Concat(b[k..])
  {
    assert a + b == (a + b[..k]) + b[k..];
    ConcatAppend(a + b[..k], b[k..]);
  }

  lemma Prefix(w: seq<byte>, p: seq<byte>, l: seq<byte>)
    ensures w <= (w + p) + l
  {
  }

  ghost predicate HeadStarted(writes: seq<WriteOp>, pending: seq<byte>) {
    && (forall i :: 0 < i < |writes| ==> !writes[i].started)
    && (pending != [] ==> Begun(writes) != [])
  }

  /** Writes leave in call order, and each emitted byte belongs to the writes that were begun. */
  ghost predicate Order(accepted: seq<Item>, withdrawn: set<nat>, done: seq<Item>, writes: seq<WriteOp>, wire: seq<byte>, pending: seq<byte>) {
    && Ledger(accepted, withdrawn, done + Entries(writes))
    && wire + pending == Concat(done + Entries(Begun(writes)))
  }

  lemma EntriesPush(ws: seq<WriteOp>, op: WriteOp)
    ensures Entries(ws + [op]) == Entries(ws) + [Entry(op.id, op.data)]
  {
  }

  /** A write joins the queue. */
  lemma OrderQueue(accepted: seq<Item>, withdrawn: set<nat>, done: seq<Item>, writes: seq<WriteOp>, wire: seq<byte>, pending: seq<byte>, op: WriteOp)
    requires Order(accepted, withdrawn, done, writes, wire, pending) && op.id == |accepted| && !op.started
    ensures Order(accepted + [Entry(op.id, op.data)], withdrawn, done, writes + [op], wire, pending)
  {
    LedgerAccept(accepted, withdrawn, done + Entries(writes), op.data);
    EntriesPush(writes, op);
    assert done + Entries(writes + [op]) == done + Entries(writes) + [Entry(op.id, op.data)];
    assert Begun(writes + [op]) == Begun(writes);
  }

  /** A write is begun on an empty queue, its first k bytes having been taken at once. */
  lemma OrderBegin(accepted: seq<Item>, withdrawn: set<nat>, done: seq<Item>, wire: seq<byte>, op: WriteOp, k: nat)
    requires Order(accepted, withdrawn, done, [], wire, []) && op.id == |accepted| && op.started && k <= |op.data|
    ensures Order(accepted + [Entry(op.id, op.data)], withdrawn, done, [op], wire + op.data[..k], op.data[k..])
  {
    var e := Entry(op.id, op.data);
    LedgerAccept(accepted, withdrawn, done + Entries([]), op.data);
    assert done + Entries([op]) == done + Entries([]) + [e];
    assert Begun([op]) == [op] && done + Entries([]) == done && wire + [] == wire;
    ConcatPush(done, e);
    assert wire + op.data[..k] + op.data[k..] == wire + op.data;
  }

  /** A write is taken completely at once. */
  lemma OrderSent(accepted: seq<Item>, withdrawn: set<nat>, done: seq<Item>, wire: seq<byte>, data: seq<byte>)
    requires Order(accepted, withdrawn, done, [], wire, [])
    ensures Order(accepted + [Entry(|accepted|, data)], withdrawn, done + [Entry(|accepted|, data)], [], wire + data, [])
  {
    var e := Entry(|accepted|, data);
    LedgerAccept(accepted, withdrawn, done + Entries([]), data);
    assert done + Entries([]) == done && (done + [e]) + Entries([]) == done + [e];
    assert wire + [] == wire && (wire + data) + [] == wire + data;
    ConcatPush(done, e);
  }

  /** The next write in the queue is begun. */
  lemma OrderStart(accepted: seq<Item>, withdrawn: set<nat>, done: seq<Item>, writes: seq<WriteOp>, wire: seq<byte>)
    requires Order(accepted, withdrawn, done, writes, wire, []) && writes != [] && !writes[0].started
    ensures Order(accepted, withdrawn, done, writes[0 := writes[0].(started := true)], wire, writes[0].data)
  {
    var op := writes[0].(started := true);
    var e, ws := Entry(op.id, op.data), writes[0 := op];
    assert Entries(ws) == Entries(writes) && Entries(Begun(ws)) == [e];
    assert done + Entries(Begun(writes)) == done && wire + [] == wire;
    ConcatPush(done, e);
  }

  /** The first write has been emitted completely and is finished. */
  lemma OrderFinish(accepted: seq<Item>, withdrawn: set<nat>, done: seq<Item>, writes: seq<WriteOp>, wire: seq<byte>)
    requires Order(accepted, withdrawn, done, writes, wire, []) && HeadStarted(writes, []) && Begun(writes) != []
    ensures Order(accepted, withdrawn, done + [Entry(writes[0].id, writes[0].data)], writes[1..], wire, [])
  {
    var e := Entry(writes[0].id, writes[0].data);
    assert Entries(writes) == [e] + Entries(writes[1..]);
    assert done + Entries(writes) == (done + [e]) + Entries(writes[1..]);
    assert Begun(writes[1..]) == [] && Entries(Begun(writes)) == [e] && (done + [e]) + Entries([]) == done + [e];
  }

  /** libuv emits the next n bytes. */
  lemma OrderEmit(accepted: seq<Item>, withdrawn: set<nat>, done: seq<Item>, writes: seq<WriteOp>, wire: seq<byte>, pending: seq<byte>, n: nat)
    requires Order(accepted, withdrawn, done, writes, wire, pending) && n <= |pending|
    ensures Order(accepted, withdrawn, done, writes, wire + pending[..n], pending[n..])
  {
    assert (wire + pending[..n]) + pending[n..] == wire + pending;
  }

  /** A write that was not begun is taken out of the queue. */
  lemma OrderWithdraw(accepted: seq<Item>, withdrawn: set<nat>, done: seq<Item>, writes: seq<WriteOp>, wire: seq<byte>, pending: seq<byte>, i: nat)
    requires Order(accepted, withdrawn, done, writes, wire, pending) && HeadStarted(writes, pending)
    requires i < |writes| && !writes[i].started
    ensures Order(accepted, withdrawn + {writes[i].id}, done, writes[..i] + writes[i + 1..], wire, pending)
    ensures HeadStarted(writes[..i] + writes[i + 1..], pending)
  {
    WithdrawLedger(accepted, withdrawn, done, writes, i);
    WithdrawHead(writes, i, pending);
  }

  lemma WithdrawLedger(accepted: seq<Item>, withdrawn: set<nat>, done: seq<Item>, writes: seq<WriteOp>, i: nat)
    requires i < |writes| && Ledger(accepted, withdrawn, done + Entries(writes))
    ensures Ledger(accepted, withdrawn + {writes[i].id}, done + Entries(writes[..i] + writes[i + 1..]))
  {
    WithdrawEntries(writes, i);
    var mid, back := Entries(writes[..i]), Entries(writes[i..]);
    Regroup(done, mid, back);
    LedgerDropHead(accepted, withdrawn, done + mid, back);
    Regroup(done, mid, back[1..]);
  }

  lemma WithdrawEntries(writes: seq<WriteOp>, i: nat)
    requires i < |writes|
    ensures Entries(writes) == Entries(writes[..i]) + Entries(writes[i..])
    ensures Entries(writes[..i] + writes[i + 1..]) == Entries(writes[..i]) + Entries(writes[i..])[1..]
  {
  }

  lemma WithdrawHead(writes: seq<WriteOp>, i: nat, pending: seq<byte>)
    requires i < |writes| && !writes[i].started && HeadStarted(writes, pending)
    ensures Begun(writes[..i] + writes[i + 1..]) == Begun(writes) && HeadStarted(writes[..i] + writes[i + 1..], pending)
  {
    var ws := writes[..i] + writes[i + 1..];
    assert forall k :: 0 <= k < |ws| ==> ws[k] == writes[if k < i then k else k + 1];
  }

  lemma Extended(w: seq<byte>, data: seq<byte>, k: nat, n: nat)
    requires k + n <= |data|
    ensures (w + data[..k]) + data[k..k + n] == w + data[..k + n]
  {
  }

  // ---- What libuv takes at once ----

  /** How many answers come before the first that takes no bytes. */
  function Wrotes(kernel: seq<Try>): (k: nat)
    ensures k <= |kernel|
    ensures forall i :: 0 <= i < k ==> kernel[i].Wrote?
    ensures k < |kernel| ==> !kernel[k].Wrote?
  {
    if kernel == [] || !kernel[0].Wrote? then 0 else 1 + Wrotes(kernel[1..])
  }

  /** The bytes that the first k answers offer to take. */
  function Total(kernel: seq<Try>, k: nat): nat
    requires k <= Wrotes(kernel)
  {
    if k == 0 then 0 else Total(kernel, k - 1) + kernel[k - 1].n
  }

  lemma {:induction false} TotalGrows(kernel: seq<Try>, i: nat, k: nat)
    requires i <= k <= Wrotes(kernel)
    ensures Total(kernel, i) <= Total(kernel, k)
  {
    if i < k {
      TotalGrows(kernel, i, k - 1);
    }
  }

  /** What is taken of size bytes, all answers up to the first refusal counted. */
  function TakenOf(kernel: seq<Try>, size: nat): (n: nat)
    ensures n <= size
  {
    Min(Total(kernel, Wrotes(kernel)), size)
  }

  /** The error that comes before all size bytes are taken. */
  function BreaksWith(kernel: seq<Try>, size: nat): Option<int> {
    var k := Wrotes(kernel);
    if k < |kernel| && kernel[k].Broke? && Total(kernel, k) < size then Some(kernel[k].code) else None
  }

  class Writer {
    var writes: seq<WriteOp>
    var writing: bool
    var shut: bool
    var flushes: nat              // operations in stream->flush
    var count: nat                // operations allocated so far
    var pending: seq<byte>        // what a started uv_write has yet to emit
    ghost var wire: seq<byte>     // what was emitted
    ghost var broken: bool        // a transport error was reported
    ghost var accepted: seq<Item> // every write taken on, in call order
    ghost var withdrawn: set<nat>
    ghost var done: seq<Item>     // writes emitted completely and finished

    /** Only the first write can have been started, and only its bytes can be with libuv. */
    ghost predicate HeadOnly()
      reads this
    {
      HeadStarted(writes, pending)
    }

    ghost predicate Ordered()
      reads this
    {
      Order(accepted, withdrawn, done, writes, wire, pending)
    }

    ghost predicate Valid()
      reads this
    {
      count == |accepted| && HeadOnly() && (!broken ==> Ordered())
    }

    twostate predicate Grows()
      reads this
    {
      && old(wire) <= wire && old(accepted) <= accepted && old(done) <= done && old(withdrawn) <= withdrawn
      && (old(broken) ==> broken) && (old(writing) ==> writing)
    }

    /** No write was withdrawn but by the script. */
    twostate predicate WithdrawnBy(script: seq<Act>)
      reads this
    {
      forall id :: id in withdrawn && id !in old(withdrawn) ==> AskCancel(id) in script
    }

    constructor ()
      ensures Valid() && writes == [] && wire == [] && accepted == [] && !broken
    {
      writes, writing, shut, flushes, pending, count := [], false, false, 0, [], 0;
      wire, broken, accepted, withdrawn, done := [], false, [], {}, [];
    }

    /** Until a transport error, what was emitted is a prefix of the accepted writes in call order, less
        those cancelled before they were started; all of it once no write is queued. */
    lemma EmittedIsPrefix()
      requires Valid() && !broken
      ensures wire <= Concat(Live(accepted, withdrawn))
      ensures writes == [] ==> wire == Concat(Live(accepted, withdrawn))
    {
      if writes == [] {
        assert wire + pending == wire;
      }
      BegunEntries(writes);
      ConcatSplit(done, Entries(writes), |Begun(writes)|);
      Prefix(wire, pending, Concat(Entries(writes)[|Begun(writes)|..]));
    }

    /** A write that was begun or finished is never withdrawn, and a withdrawn one emitted nothing:
        it is neither finished nor queued. */
    lemma CancelledEmitsNothing(id: nat)
      requires Valid() && !broken && id in withdrawn
      ensures !Has(done, id) && !Has(Entries(writes), id)
    {
      LedgerFacts(accepted, withdrawn, done + Entries(writes));
      HasConcat(done, Entries(writes), id);
    }

    // ---- Calls of tasks ----

    /** The loop around uv_try_write: bytes are taken until libuv would block, fails or has them all. */
    method TryWrite(data: seq<byte>, kernel: seq<Try>) returns (sent: nat, code: Option<int>)
      modifies this`wire, this`broken
      ensures sent <= |data| && wire == old(wire) + data[..sent]
      ensures broken == (old(broken) || code.Some?)
      ensures sent == TakenOf(kernel, |data|)
      ensures code == BreaksWith(kernel, |data|)
    {
      sent, code := 0, None;
      var i := 0;
      while i < |kernel| && !kernel[i].Again? && sent < |data|
        invariant i <= Wrotes(kernel) && sent <= |data| && wire == old(wire) + data[..sent]
        invariant sent == Min(Total(kernel, i), |data|)
        invariant broken == old(broken)
      {
        if kernel[i].Broke? {
          broken := true;
          return sent, Some(kernel[i].code);
        }
        var n := Min(kernel[i].n, |data| - sent);
        Extended(old(wire), data, sent, n);
        wire := wire + data[sent..sent + n];
        sent := sent + n;
        i := i + 1;
      }
      TotalGrows(kernel, i, Wrotes(kernel));
    }

    /** async_stream_write with encode_buffer, up to the point where a waiting caller is suspended. */
    method Write(data: seq<byte>, patient: bool, kernel: seq<Try>) returns (r: Result)
      requires Valid() && data != []
      modifies this
      ensures Valid() && Grows() && writing == old(writing) && flushes == old(flushes) && withdrawn == old(withdrawn)
      ensures r.Refused? <==> old(shut)
      ensures r.Refused? ==> unchanged(this)
      ensures !r.Refused? && old(writes == [] && !writing) ==> Attempted(r, data, patient, kernel)
      ensures !r.Refused? && !old(writes == [] && !writing) ==>
                && r == Queued(|old(accepted)|) && writes == old(writes) + [WriteOp(r.id, data, 0, false, patient)]
                && accepted == old(accepted) + [Entry(r.id, data)]
                && wire == old(wire) && pending == old(pending) && done == old(done) && broken == old(broken)
    {
      if shut {
        return Refused;
      }
      if writes == [] && !writing {
        r := WriteNow(data, patient, kernel);
      } else {
        r := Enqueue(data, patient);
      }
    }

    /** A write found the stream idle. An error that libuv reports before it has all bytes fails it; if libuv
        takes them all it is done; otherwise it is begun, and libuv holds what it did not take at once. */
    twostate predicate Attempted(r: Result, data: seq<byte>, patient: bool, kernel: seq<Try>)
      reads this
    {
      var (n, code, id) := (TakenOf(kernel, |data|), BreaksWith(kernel, |data|), |old(accepted)|);
      && wire == old(wire) + data[..n] && broken == (old(broken) || code.Some?)
      && if code.Some? then
           r == Failed(code.value) && accepted == old(accepted) && done == old(done) && writes == [] && pending == old(pending)
         else
           && accepted == old(accepted) + [Entry(id, data)]
           && if n == |data| then r == Sent && done == old(done) + [Entry(id, data)] && writes == [] && pending == old(pending)
              else r == Queued(id) && done == old(done) && writes == [WriteOp(id, data, n, true, patient)] && pending == data[n..]
    }

    /** Nothing is queued: libuv is asked to take the bytes at once, and gets the rest to keep. */
    method WriteNow(data: seq<byte>, patient: bool, kernel: seq<Try>) returns (r: Result)
      requires Valid() && data != [] && writes == []
      modifies this`wire, this`broken, this`accepted, this`done, this`writes, this`pending, this`count
      ensures Valid() && Grows()
      ensures Attempted(r, data, patient, kernel)
    {
      ghost var before := wire;
      var sent, code := TryWrite(data, kernel);
      if code.Some? {
        return Failed(code.value);
      }
      var id := count;
      count := count + 1;
      if sent == |data| {
        if !broken {
          OrderSent(accepted, withdrawn, done, before, data);
        }
        accepted, done := accepted + [Entry(|accepted|, data)], done + [Entry(|accepted|, data)];
        return Sent;
      }
      var op := WriteOp(id, data, sent, true, patient);
      if !broken {
        OrderBegin(accepted, withdrawn, done, before, op, sent);
      }
      accepted := accepted + [Entry(id, data)];
      writes, pending := [op], data[sent..];
      return Queued(id);
    }

    /** The operation joins the queue. */
    method Enqueue(data: seq<byte>, patient: bool) returns (r: Result)
      requires Valid() && (writes != [] || writing)
      modifies this`accepted, this`writes, this`count
      ensures Valid() && r == Queued(|old(accepted)|) && accepted == old(accepted) + [Entry(r.id, data)]
      ensures writes == old(writes) + [WriteOp(r.id, data, 0, false, patient)]
    {
      var id := count;
      count := count + 1;
      var op := WriteOp(id, data, 0, false, patient);
      if !broken {
        OrderQueue(accepted, withdrawn, done, writes, wire, pending, op);
      }
      accepted := accepted + [Entry(id, data)];
      writes := writes + [op];
      return Queued(id);
    }

    /** Where operation id stands in the queue, |writes| if it does not. */
    function Find(id: nat): (i: nat)
      reads this
      ensures i <= |writes| && (i < |writes| ==> writes[i].id == id)
    {
      FindFrom(id, 0)
    }

    function FindFrom(id: nat, i: nat): (k: nat)
      requires i <= |writes|
      reads this
      ensures i <= k <= |writes| && (k < |writes| ==> writes[k].id == id)
      decreases |writes| - i
    {
      if i == |writes| || writes[i].id == id then i else FindFrom(id, i + 1)
    }

    /** What async_stream_write does when its wait was cancelled. A write that was started stays what it
        was, the first in the queue, but nobody waits for it any more: it is taken out and put back in
        front. One that was not started is gone. */
    method Cancel(id: nat)
      requires Valid() && Find(id) < |writes| && writes[Find(id)].waiting
      modifies this`writes, this`withdrawn
      ensures Valid() && Grows()
      ensures var i := old(Find(id));
              if old(writes)[i].started
              then i == 0 && writes == old(writes)[0 := old(writes)[0].(waiting := false)] && withdrawn == old(withdrawn)
              else writes == old(writes)[..i] + old(writes)[i + 1..] && withdrawn == old(withdrawn) + {id}
    {
      var i := Find(id);
      if writes[i].started {
        var op := writes[i].(waiting := false);
        var rest := writes[..i] + writes[i + 1..];
        assert rest == writes[1..] && Entries([op] + rest) == Entries(writes) && Entries(Begun([op] + rest)) == Entries(Begun(writes));
        writes := [op] + rest;
      } else {
        if !broken {
          OrderWithdraw(accepted, withdrawn, done, writes, wire, pending, i);
        } else {
          WithdrawHead(writes, i, pending);
        }
        withdrawn := withdrawn + {id};
        writes := writes[..i] + writes[i + 1..];
      }
    }

    /** async_stream_flush: the caller waits only while writes are queued. */
    method Flush() returns (waits: bool)
      modifies this`flushes
      ensures waits == (writes != []) && flushes == old(flushes) + (if waits then 1 else 0)
    {
      waits := writes != [];
      if waits {
        flushes := flushes + 1;
      }
    }

    // ---- Re-entrancy ----

    method Do(act: Act)
      requires Valid()
      modifies this
      ensures Valid() && Grows() && WithdrawnBy([act])
    {
      match act
      case AskWrite(data, patient, kernel) =>
        if data != [] { var _ := Write(data, patient, kernel); }
      case AskCancel(id) =>
        if Find(id) < |writes| && writes[Find(id)].waiting { Cancel(id); }
      case AskFlush =>
        var _ := Flush();
      case AskShutdown =>
        shut := true;
      case Back =>
    }

    /** Tasks that run before control returns to write_cb. */
    method Others(script: seq<Act>) returns (rest: seq<Act>)
      requires Valid()
      modifies this
      ensures Valid() && Grows() && WithdrawnBy(script) && Within(rest, script)
      ensures if script == [] then rest == [] && unchanged(this) else |rest| < |script|
    {
      rest := script;
      while rest != [] && !rest[0].Back?
        invariant Valid() && Grows() && WithdrawnBy(script) && Within(rest, script)
        invariant script == [] ==> unchanged(this)
        decreases |rest|
      {
        Do(rest[0]);
        rest := rest[1..];
      }
      if rest != [] {
        rest := rest[1..];
      }
    }

    // ---- libuv ----

    /** libuv emits some of the bytes it holds. */
    method Emit(n: nat)
      requires Valid() && n <= |pending|
      modifies this`wire, this`pending
      ensures Valid() && Grows() && pending == old(pending)[n..] && wire == old(wire) + old(pending)[..n]
    {
      if !broken {
        OrderEmit(accepted, withdrawn, done, writes, wire, pending, n);
      }
      wire := wire + pending[..n];
      pending := pending[n..];
    }

    /** ASYNC_FINISH_OP on the first write, in write_cb. */
    method FinishFirst(status: int)
      requires Valid() && Begun(writes) != [] && (status >= 0 ==> pending == [])
      modifies this`writes, this`pending, this`done, this`broken
      ensures Valid() && Grows() && writes == old(writes)[1..] && pending == []
      ensures broken == (old(broken) || status < 0)
      ensures done == if status >= 0 then old(done) + [Entry(old(writes)[0].id, old(writes)[0].data)] else old(done)
    {
      if status < 0 {
        broken := true;
      } else {
        if !broken {
          OrderFinish(accepted, withdrawn, done, writes, wire);
        }
        done := done + [Entry(writes[0].id, writes[0].data)];
      }
      writes, pending := writes[1..], [];
    }

    /** process_write on the first write of the queue: all its bytes go to libuv. */
    method StartFirst()
      requires Valid() && writes != [] && !writes[0].started
      modifies this`writes, this`pending
      ensures Valid() && writes == old(writes)[0 := old(writes)[0].(started := true)] && pending == writes[0].data
    {
      if !broken {
        OrderStart(accepted, withdrawn, done, writes, wire);
      }
      pending := writes[0].data;
      writes := writes[0 := writes[0].(started := true)];
    }

    /** write_cb: the first write is finished, the next one is begun, and with nothing left to write the
        waiting flushes are finished. */
    method WriteCallback(status: int, script: seq<Act>) returns (rest: seq<Act>)
      requires Valid() && Begun(writes) != [] && (status >= 0 ==> pending == [])
      modifies this
      ensures Valid() && !writing
      ensures old(wire) <= wire && old(accepted) <= accepted && old(withdrawn) <= withdrawn
      ensures WithdrawnBy(script) && Within(rest, script)
      ensures status >= 0 ==> old(done) + [Entry(old(writes)[0].id, old(writes)[0].data)] <= done
      ensures status < 0 ==> broken
      ensures Begun(writes) != [] || flushes == 0
      ensures script == [] ==> broken == (old(broken) || status < 0) && wire == old(wire)
      ensures script == [] ==> done == if status >= 0 then old(done) + [Entry(old(writes)[0].id, old(writes)[0].data)] else old(done)
      ensures script == [] && |old(writes)| > 1 ==>
                && writes == [old(writes)[1].(started := true)] + old(writes)[2..]
                && pending == writes[0].data && flushes == old(flushes)
      ensures script == [] && |old(writes)| == 1 ==> writes == [] && pending == [] && flushes == 0
    {
      writing := true;
      FinishFirst(status);
      rest := Others(script);
      if writes != [] && !writes[0].started {
        StartFirst();
      }
      if writes == [] {
        rest := FinishFlushes(rest);
      }
      writing := false;
    }

    method FinishFlushes(script: seq<Act>) returns (rest: seq<Act>)
      requires Valid()
      modifies this
      ensures Valid() && Grows() && flushes == 0 && WithdrawnBy(script) && Within(rest, script)
      ensures script == [] ==> unchanged(`writes, `broken, `done, `wire, `pending)
    {
      rest := script;
      while flushes > 0
        invariant Valid() && Grows() && WithdrawnBy(script) && Within(rest, script)
        invariant script == [] ==> unchanged(`writes, `broken, `done, `wire, `pending)
        decreases |rest|, flushes
      {
        flushes := flushes - 1;
        rest := Others(rest);
      }
    }
  }
}
