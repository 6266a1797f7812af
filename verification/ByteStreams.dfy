/** Bytes, 16-bit samples, and streams cut into chunks. */
module ByteStreams {
  type Byte = b: int | 0 <= b < 0x100

  type Int16 = x: int | -0x8000 <= x < 0x8000

  /** One little-endian 16-bit sample. */
  function Sample(lo: Byte, hi: Byte): Int16 {
    var u := lo + 0x100 * hi;
    if u < 0x8000 then u else u - 0x1_0000
  }

  function Concat(chunks: seq<seq<Byte>>): seq<Byte> {
    if chunks == [] then [] else chunks[0] + Concat(chunks[1..])
  }

  lemma ConcatSnoc(chunks: seq<seq<Byte>>, chunk: seq<Byte>)
    ensures Concat(chunks + [chunk]) == Concat(chunks) + chunk
  {
    if chunks != [] {
      assert (chunks + [chunk])[1..] == chunks[1..] + [chunk];
    }
  }

  lemma ConcatAppend(a: seq<seq<Byte>>, b: seq<seq<Byte>>)
    ensures Concat(a + b) == Concat(a) + Concat(b)
  {
    if a == [] {
      assert a + b == b;
    } else {
      assert (a + b)[1..] == a[1..] + b;
    }
  }

  /** A growing buffer that is consumed from the front. */
  class Accumulator {
    var buf: array<Byte>
    var len: nat

    ghost predicate Valid()
      reads this
    {
      len <= buf.Length
    }

    ghost function Contents(): (s: seq<Byte>)
      requires Valid()
      reads this, buf
    {
      buf[..len]
    }

    constructor ()
      ensures Valid() && Contents() == [] && fresh(buf)
    {
      buf, len := new Byte[0], 0;
    }

    /** Appends in place, or in a larger array when the room is used up. */
    method Append(bytes: seq<Byte>)
      requires Valid()
      modifies this, buf
      ensures Valid() && Contents() == old(Contents()) + bytes
      ensures buf == old(buf) || fresh(buf)
    {
      var total := len + |bytes|;
      if buf.Length < total {
        Grow(2 * total);
      }
      for i := 0 to |bytes|
        modifies buf
        invariant buf[..len] == old(Contents())
        invariant forall k | 0 <= k < i :: buf[len + k] == bytes[k]
      {
        buf[len + i] := bytes[i];
      }
      len := total;
    }

    method Grow(capacity: nat)
      requires Valid() && len <= capacity
      modifies this
      ensures Valid() && len == old(len) && Contents() == old(Contents()) && fresh(buf) && buf.Length == capacity
    {
      var larger := new Byte[capacity];
      for i := 0 to len
        modifies larger
        invariant forall k | 0 <= k < i :: larger[k] == buf[k]
      {
        larger[i] := buf[i];
      }
      buf := larger;
    }

    /** Shifts the unconsumed tail to the front and keeps the array. */
    method Compact(off: nat)
      requires Valid() && off <= len
      modifies this, buf
      ensures Valid() && buf == old(buf) && Contents() == old(Contents()[off..])
    {
      if off == 0 {
        return;
      }
      for i := 0 to len - off
        modifies buf
        invariant forall k | 0 <= k < i :: buf[k] == old(buf[off + k])
        invariant forall k | i <= k < len :: buf[k] == old(buf[k])
      {
        buf[i] := buf[off + i];
      }
      len := len - off;
    }
  }
}
