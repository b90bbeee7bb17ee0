/** Buffer.copy, with the size_t arithmetic of its native half, and Buffer.concat. */
module Buffers {
  import opened Outcomes
  import opened Flat

  const INT_LIMIT := 0x8000_0000

  /** Arithmetic of size_t, a type of `size` values (2^32 or 2^64, by platform): what a result within
      one `size` of the range becomes. */
  function Wrap(x: int, size: nat): (r: nat)
    requires 0 <= x + size && x < 2 * size
    ensures r < size && (r == x || r == x + size || r == x - size)
  {
    if x < 0 then x + size else if x >= size then x - size else x
  }

  function Max0(x: int): nat {
    if x < 0 then 0 else x
  }

  function Min(x: int, y: int): int {
    if x < y then x else y
  }

  /** `dst` with n bytes from position `to` on replaced by those of `src` from position `from` on. */
  function Blit(dst: Bytes, src: Bytes, from: nat, to: nat, n: nat): Bytes
    requires from + n <= |src| && to + n <= |dst|
  {
    dst[..to] + src[from..from + n] + dst[to + n..]
  }

  /** k modulo d. */
  function Back(k: nat, d: nat): (r: nat)
    requires d > 0
    ensures r < d && r <= k
  {
    if k < d then k else Back(k - d, d)
  }

  /** Where the byte that ends up at position k comes from.  A copy within one buffer to a later position
      reads what it has written: it repeats the bytes between the two starts. */
  function Origin(k: nat, from: nat, to: nat, smears: bool): nat
    requires to <= k && (smears ==> from < to)
  {
    if smears then from + Back(k - to, to - from) else from + (k - to)
  }

  /** `dst` after n bytes of `src` have been copied, front to back. */
  function Moved(dst: Bytes, src: Bytes, from: nat, to: nat, n: nat, smears: bool): Bytes
    requires from + n <= |src| && to + n <= |dst| && (smears ==> from < to)
  {
    seq(|dst|, k requires 0 <= k < |dst| => if to <= k < to + n then src[Origin(k, from, to, smears)] else dst[k])
  }

  lemma MovedIsBlit(dst: Bytes, src: Bytes, from: nat, to: nat, n: nat)
    requires from + n <= |src| && to + n <= |dst|
    ensures Moved(dst, src, from, to, n, false) == Blit(dst, src, from, to, n)
  {
  }

  /** The number of bytes that copy() moves; a start outside its buffer moves none. */
  function Copied(srcEnd: int, srcStart: int, dstLength: nat, dstStart: int): nat {
    if srcStart < 0 || dstStart < 0 then 0 else Max0(Min(srcEnd - srcStart, dstLength - dstStart))
  }

  lemma {:induction false} FlattenLength(parts: seq<Bytes>, n: nat)
    requires n <= |parts|
    ensures |Flatten(parts[..n])| <= |Flatten(parts)|
    ensures n < |parts| ==> Flatten(parts[..n + 1]) == Flatten(parts[..n]) + parts[n]
    decreases |parts| - n
  {
    if n < |parts| {
      assert parts[..n + 1] == parts[..n] + [parts[n]];
      FlattenAppend(parts[..n], parts[n]);
      FlattenLength(parts, n + 1);
    } else {
      assert parts[..n] == parts;
    }
  }

  /** Whatever the start, even one beyond the end, start plus length is the end again. */
  lemma EndIsKept(end: int, start: int, size: nat)
    requires 0 <= end < INT_LIMIT && -INT_LIMIT <= start < INT_LIMIT && size >= 2 * INT_LIMIT
    requires end - start < INT_LIMIT
    ensures Wrap(Wrap(start, size) + Wrap(end - start, size), size) == end
    ensures start >= 0 ==> Wrap(start, size) == start
    ensures start < 0 ==> Wrap(start, size) >= INT_LIMIT
  {
  }

  class Buffer {
    const data: array<byte>

    constructor (length: nat)
      ensures fresh(data) && data.Length == length
    {
      data := new byte[length];
    }

    /** Buffer::Copy.  All quantities are size_t, and the end of the source may wrap round. */
    method CopyBytes(src: array<byte>, len: nat, srcFrom: nat, dstFrom: nat, size: nat) returns (copied: nat)
      requires len < size && srcFrom < size && Wrap(srcFrom + len, size) <= src.Length
      modifies data
      ensures copied == Max0(Min(Wrap(srcFrom + len, size) - srcFrom, data.Length - dstFrom))
      ensures copied > 0 ==>
                data[..]
                == Moved(old(data[..]), old(src[..]), srcFrom, dstFrom, copied, src == data && srcFrom < dstFrom)
      ensures copied == 0 ==> data[..] == old(data[..])
    {
      copied := 0;
      var srcEnd := Wrap(srcFrom + len, size);
      var i, j := srcFrom, dstFrom;
      ghost var smears := src == data && srcFrom < dstFrom;
      while i < srcEnd && j < data.Length
        invariant i == srcFrom + copied && j == dstFrom + copied
        invariant copied > 0 ==> i <= srcEnd && j <= data.Length
        invariant forall k :: 0 <= k < data.Length && (k < dstFrom || j <= k) ==> data[k] == old(data[k])
        invariant forall k :: dstFrom <= k < j ==> data[k] == old(src[..])[Origin(k, srcFrom, dstFrom, smears)]
      {
        data[j] := src[i];
        i, j, copied := i + 1, j + 1, copied + 1;
      }
    }

    /** The native copy handler.  An end beyond the source is moved back to it, and the length passed
        on is a difference of ints, which must not overflow. */
    method Copy(target: Buffer, dstStart: int, srcStart: int, end: Option<int>, size: nat) returns (copied: nat)
      requires size >= 2 * INT_LIMIT && data.Length < INT_LIMIT && target.data.Length < INT_LIMIT
      requires -INT_LIMIT <= dstStart < INT_LIMIT && -INT_LIMIT <= srcStart < INT_LIMIT
      requires end.Some? ==> 0 <= end.value < INT_LIMIT
      requires SourceEnd(end) - srcStart < INT_LIMIT
      modifies target.data
      ensures copied == Copied(SourceEnd(end), srcStart, target.data.Length, dstStart)
      ensures copied > 0 && (data != target.data || dstStart <= srcStart) ==>
                target.data[..] == Blit(old(target.data[..]), old(data[..]), srcStart, dstStart, copied)
      ensures copied > 0 && data == target.data && srcStart < dstStart ==>
                target.data[..] == Moved(old(data[..]), old(data[..]), srcStart, dstStart, copied, true)
      ensures copied == 0 ==> target.data[..] == old(target.data[..])
    {
      var srcEnd := data.Length;
      if end.Some? {
        srcEnd := end.value;
        if srcEnd > data.Length {
          srcEnd := data.Length;
        }
      }
      EndIsKept(srcEnd, srcStart, size);
      copied := target.CopyBytes(data, Wrap(srcEnd - srcStart, size), Wrap(srcStart, size), Wrap(dstStart, size), size);
      if copied > 0 {
        MovedIsBlit(old(target.data[..]), old(data[..]), srcStart, dstStart, copied);
      }
    }

    /** copy(target, dstStart), into another buffer with room for everything: nothing is clipped. */
    method CopyWhole(target: Buffer, dstStart: nat, size: nat) returns (copied: nat)
      requires size >= 2 * INT_LIMIT && target.data.Length < INT_LIMIT
      requires data != target.data && dstStart + data.Length <= target.data.Length
      modifies target.data
      ensures copied == data.Length
      ensures target.data[..dstStart + copied] == old(target.data[..dstStart]) + data[..]
    {
      copied := Copy(target, dstStart, 0, None, size);
    }

    function SourceEnd(end: Option<int>): int {
      if end.Some? && end.value <= data.Length then end.value else data.Length
    }
  }

  /** Buffer.concat of a list whose elements may be anything: `None` is one that is not a buffer, and
      `parts` are the bytes of the others.  (No buffer can be larger than an int.) */
  method ConcatBuffers(list: seq<Option<Buffer>>, ghost parts: seq<Bytes>, size: nat)
    returns (c: Completion, buffer: Option<Buffer>)
    requires size >= 2 * INT_LIMIT
    requires |parts| == |list| && forall k :: 0 <= k < |list| && list[k].Some? ==> list[k].value.data[..] == parts[k]
    requires |Flatten(parts)| < INT_LIMIT
    ensures c == Normal <==> None !in list
    ensures c == Normal <==> buffer.Some?
    ensures buffer.Some? ==> fresh(buffer.value) && fresh(buffer.value.data) && buffer.value.data[..] == Flatten(parts)
  {
    c, buffer := Normal, None;
    var length := 0;
    var i := 0;
    while i < |list|
      invariant 0 <= i <= |list| && None !in list[..i]
      invariant length == |Flatten(parts[..i])|
    {
      if list[i] == None {
        return Throw, None;
      }
      FlattenLength(parts, i);
      length := length + list[i].value.data.Length;
      i := i + 1;
    }
    assert parts[..i] == parts;
    assert list[..i] == list;
    var result := new Buffer(length);
    var pos := 0;
    i := 0;
    while i < |list|
      invariant 0 <= i <= |list| && pos == |Flatten(parts[..i])| <= length
      invariant result.data.Length == length
      invariant result.data[..pos] == Flatten(parts[..i])
      invariant forall k :: 0 <= k < |list| && list[k].Some? ==> list[k].value.data[..] == parts[k]
    {
      FlattenLength(parts, i);
      FlattenLength(parts, i + 1);
      assert list[i] in list;
      var part := list[i].value;
      assert part.data != result.data;
      var _ := part.CopyWhole(result, pos, size);
      pos := pos + part.data.Length;
      i := i + 1;
    }
    assert parts[..i] == parts;
    buffer := Some(result);
  }
}
