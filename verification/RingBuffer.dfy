/** The byte buffer behind a stream's reads (include/async/buffer.h): a fixed block of memory, a
    read and a write position and a count, all going around the end. */
module RingBufferObject {
  import opened Queues
  import opened Ring

  newtype byte = b: int | 0 <= b < 256

  function Min(a: nat, b: nat): nat {
    if a < b then a else b
  }

  /** s with the bytes b from index at on. */
  ghost function Overwrite(s: seq<byte>, at: nat, b: seq<byte>): (r: seq<byte>)
    requires at + |b| <= |s|
    ensures |r| == |s|
  {
    s[..at] + b + s[at + |b|..]
  }

  lemma OverwriteMore(s: seq<byte>, at: nat, b: seq<byte>, c: seq<byte>)
    requires at + |b| + |c| <= |s|
    ensures Overwrite(Overwrite(s, at, b), at + |b|, c) == Overwrite(s, at, b + c)
  {
  }

  lemma Split(whole: seq<byte>, a: seq<byte>, b: seq<byte>)
    requires whole == a + b
    ensures a == whole[..|a|] && b == whole[|a|..]
  {
  }

  /** Bytes written behind the stored ones, up to the end of the block, leave those alone. */
  lemma StoreElsewhere(d: seq<byte>, start: nat, length: nat, bytes: seq<byte>)
    requires start < |d| && length + |bytes| <= |d| && Wrap(start + length, |d|) + |bytes| <= |d|
    ensures Stored(Overwrite(d, Wrap(start + length, |d|), bytes), start, length) == Stored(d, start, length)
  {
  }

  class RingBuffer {
    const data: array<byte>
    var rpos: nat
    var wpos: nat
    var len: nat

    ghost predicate Valid()
      reads this
    {
      len <= data.Length && rpos < data.Length && wpos == Wrap(rpos + len, data.Length)
    }

    /** The buffered bytes, oldest first. */
    ghost function Contents(): (s: seq<byte>)
      requires Valid()
      reads this, data
      ensures |s| == len
    {
      Stored(data[..], rpos, len)
    }

    /** Slot i holds a buffered byte. */
    ghost predicate Holds(i: nat)
      reads this
    {
      rpos <= i < rpos + len || rpos <= i + data.Length < rpos + len
    }

    constructor (size: nat)
      requires size > 0
      ensures Valid() && fresh(data) && data.Length == size && Contents() == []
    {
      data := new byte[size];
      rpos, wpos, len := 0, 0, 0;
    }

    /** async_ring_buffer_write_len: the slots from wpos on that are free, as far as they are next to
        each other in memory. */
    method WriteLen() returns (n: nat)
      requires Valid()
      ensures wpos + n <= data.Length && len + n <= data.Length
      ensures forall i :: wpos <= i < wpos + n ==> !Holds(i)
      ensures wpos + n < data.Length ==> len == data.Length || Holds(wpos + n)
      ensures n == Window()
      ensures n == 0 <==> len == data.Length
    {
      if len == data.Length {
        return 0;
      }
      if wpos >= rpos {
        return data.Length - wpos;
      }
      return rpos - wpos;
    }

    /** The same, as a function of the positions. */
    ghost function Window(): nat
      requires Valid()
      reads this
    {
      Min(data.Length - wpos, data.Length - len)
    }

    /** The kernel puts bytes into the window; what is buffered stays as it is. */
    method Fill(bytes: seq<byte>)
      requires Valid() && |bytes| <= Window()
      modifies data
      ensures Contents() == old(Contents())
      ensures data[..] == Overwrite(old(data[..]), wpos, bytes)
    {
      ghost var was := data[..];
      forall i | 0 <= i < |bytes| {
        data[wpos + i] := bytes[i];
      }
      assert data[..] == Overwrite(was, wpos, bytes);
      StoreElsewhere(was, rpos, len, bytes);
    }

    /** async_ring_buffer_write_move. The C code asserts no more than that offset fits the block; the
        positions stay in order exactly when it also fits the free part, and then the bytes found
        behind the old contents have joined them. */
    method WriteMove(offset: nat)
      requires Valid() && offset <= data.Length
      modifies this`wpos, this`len
      ensures len == old(len) + offset && wpos == (old(wpos) + offset) % data.Length
      ensures Valid() <==> old(len) + offset <= data.Length
      ensures Valid() ==> Contents()[..old(len)] == old(Contents())
      ensures Valid() && old(wpos) + offset <= data.Length ==> Contents() == old(Contents()) + data[old(wpos)..old(wpos) + offset]
    {
      WrapIsRemainder(wpos + offset, data.Length);
      wpos := (wpos + offset) % data.Length;
      len := len + offset;
    }

    /** async_ring_buffer_consume: exactly what reading n bytes and throwing them away does. */
    method Consume(n: nat)
      requires Valid() && 0 < n <= len
      modifies this`rpos, this`len
      ensures Valid() && Contents() == old(Contents())[n..]
      ensures rpos == Wrap(old(rpos) + n, data.Length) && len == old(len) - n
    {
      WrapIsRemainder(rpos + n, data.Length);
      StoreDrop(data[..], rpos, len, n);
      rpos := (rpos + n) % data.Length;
      len := len - n;
    }

    /** async_ring_buffer_read: the oldest bytes, as many as wanted and present, in two copies at most. */
    method Read(dst: array<byte>, at: nat, want: nat) returns (consumed: nat, ghost copies: nat)
      requires Valid() && dst != data && at + want <= dst.Length
      modifies this`rpos, this`len, dst
      ensures Valid() && consumed == Min(want, old(len)) && copies <= 2
      ensures dst[..] == Overwrite(old(dst[..]), at, old(Contents())[..consumed])
      ensures Contents() == old(Contents())[consumed..]
      ensures rpos == Wrap(old(rpos) + consumed, data.Length) && len == old(len) - consumed
    {
      consumed, copies := 0, 0;
      var left: nat, base: nat := want, at;
      ghost var was, all, got := dst[..], Contents(), [];
      while left > 0 && len > 0
        invariant Valid() && left + consumed == want && base == at + consumed && len + consumed == old(len)
        invariant all == got + Contents() && |got| == consumed
        invariant rpos == Wrap(old(rpos) + consumed, data.Length)
        invariant dst[..] == Overwrite(was, at, got)
        invariant copies == 0 || left == 0 || len == 0 || (copies == 1 && rpos == 0)
        invariant copies <= 2
        decreases left
      {
        var count, chunk := Chunk(dst, base, left);
        OverwriteMore(was, at, got, chunk);
        Regroup(got, chunk, Contents());
        got := got + chunk;
        left := left - count;
        base := base + count;
        consumed := consumed + count;
        copies := copies + 1;
      }
      Split(all, got, Contents());
    }

    /** One turn of that loop: the bytes up to the end of the block, or fewer. */
    method Chunk(dst: array<byte>, base: nat, left: nat) returns (count: nat, ghost bytes: seq<byte>)
      requires Valid() && dst != data && base + left <= dst.Length && left > 0 && len > 0
      modifies this`rpos, this`len, dst
      ensures Valid() && 0 < count <= Min(left, old(len)) && len == old(len) - count
      ensures count == left || count == old(len) || rpos == 0
      ensures old(rpos) == 0 ==> count == Min(left, old(len))
      ensures rpos == Wrap(old(rpos) + count, data.Length)
      ensures |bytes| == count && old(Contents()) == bytes + Contents()
      ensures dst[..] == Overwrite(old(dst[..]), base, bytes)
    {
      count := data.Length - rpos;
      if count > len {
        count := Min(left, len);
      } else {
        count := Min(left, count);
      }
      bytes := Contents()[..count];
      Copy(dst, base, count);
      Skip(count);
    }

    /** The read position moves forward, to the start of the block behind its end. */
    method Skip(count: nat)
      requires Valid() && count <= len && rpos + count <= data.Length
      modifies this`rpos, this`len
      ensures Valid() && len == old(len) - count && rpos == Wrap(old(rpos) + count, data.Length)
      ensures old(Contents()) == old(Contents())[..count] + Contents()
    {
      StoreDrop(data[..], rpos, len, count);
      rpos := rpos + count;
      len := len - count;
      if rpos == data.Length {
        rpos := 0;
      }
    }

    /** memcpy from the read position. */
    method Copy(dst: array<byte>, base: nat, count: nat)
      requires Valid() && dst != data && base + count <= dst.Length && count <= len && rpos + count <= data.Length
      modifies dst
      ensures dst[..] == Overwrite(old(dst[..]), base, Contents()[..count])
    {
      forall i | 0 <= i < count {
        dst[base + i] := data[rpos + i];
      }
    }

    /** async_ring_buffer_read_string: a new string of exactly the bytes read, or none. */
    method ReadString(want: nat) returns (str: array?<byte>, n: nat)
      requires Valid()
      modifies this`rpos, this`len
      ensures Valid() && n == Min(want, old(len))
      ensures str == null <==> n == 0
      ensures str != null ==> fresh(str) && str[..] == old(Contents())[..n]
      ensures Contents() == old(Contents())[n..]
      ensures rpos == Wrap(old(rpos) + n, data.Length) && len == old(len) - n
    {
      n := Min(len, want);
      if n == 0 {
        return null, 0;
      }
      var buf := new byte[n];
      var _, _ := Read(buf, 0, n);
      str := buf;
    }
  }
}
