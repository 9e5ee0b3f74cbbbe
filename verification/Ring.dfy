/** What a wrapping buffer holds: length items starting at slot start, going around the end.
    Shared by the byte buffer of the streams (include/async/buffer.h) and the value buffer of
    the channels (src/channel.c:60-66). */
module Ring {
  /** A position in front of or one lap past the end, brought back into the buffer. */
  function Wrap(k: nat, size: nat): (r: nat)
    requires 0 < size && k < 2 * size
    ensures r < size
  {
    if k < size then k else k - size
  }

  /** The C code writes the same thing with the remainder operator. */
  lemma WrapIsRemainder(k: nat, size: nat)
    requires 0 < size && k < 2 * size
    ensures Wrap(k, size) == k % size
  {
    if k >= size {
      assert k == 1 * size + (k - size);
    }
  }

  function Stored<T>(d: seq<T>, start: nat, length: nat): (s: seq<T>)
    requires start < |d| && length <= |d|
    ensures |s| == length
    ensures forall i :: 0 <= i < length ==> s[i] == d[if start + i < |d| then start + i else start + i - |d|]
  {
    if start + length <= |d| then d[start..start + length] else d[start..] + d[..start + length - |d|]
  }

  /** Writing one item into the first free slot appends it. */
  lemma StorePush<T>(d: seq<T>, start: nat, length: nat, x: T)
    requires start < |d| && length < |d|
    ensures Stored(d[Wrap(start + length, |d|) := x], start, length + 1) == Stored(d, start, length) + [x]
  {
  }

  /** Moving the start forward drops items from the front. */
  lemma StoreDrop<T>(d: seq<T>, start: nat, length: nat, n: nat)
    requires start < |d| && n <= length <= |d|
    ensures Stored(d, Wrap(start + n, |d|), length - n) == Stored(d, start, length)[n..]
  {
    var a, b := Stored(d, Wrap(start + n, |d|), length - n), Stored(d, start, length);
    forall i | 0 <= i < length - n
      ensures a[i] == b[n..][i]
    {
      assert b[n..][i] == b[n + i];
    }
  }
}
