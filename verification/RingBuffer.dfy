/** A channel's ring buffer and its partial, nonblocking transfers. */
module RingBuffer {
  import opened ProxyBytes

  /** A pipe, or the standard output, which takes everything. How many bytes a transfer moves
      is up to the system, which is the argument limit; it moves at least one when it can. */
  class Pipe {
    const capacity: nat
    const endless: bool
    var data: seq<Byte>
    var open: bool

    constructor (capacity: nat, endless: bool)
      ensures this.capacity == capacity && this.endless == endless && data == [] && open
    {
      this.capacity, this.endless, data, open := capacity, endless, [], true;
    }

    predicate Takes(n: nat)
      reads this
    {
      endless || |data| + n <= capacity
    }

    /** The count a nonblocking read of at most n bytes returns; -1 stands for EAGAIN. */
    function ReadCount(n: nat, limit: nat): int
      reads this
    {
      ReadOf(n, limit, |data|, open)
    }

    function WriteCount(n: nat, limit: nat): int
      reads this
    {
      WriteOf(n, limit, endless, capacity - |data|)
    }
  }

  function Least(a: nat, b: nat): nat {
    if a < b then a else b
  }

  /** What a read of at most n bytes returns with left bytes in the pipe. */
  function ReadOf(n: nat, limit: nat, left: nat, open: bool): int {
    if n == 0 then 0
    else if left == 0 then (if open then -1 else 0)
    else Least(if limit == 0 then 1 else limit, Least(n, left))
  }

  /** What a write of at most n bytes returns with room for that many in the pipe. */
  function WriteOf(n: nat, limit: nat, endless: bool, room: int): int {
    if n == 0 then 0
    else if !endless && room < 1 then -1
    else Least(if limit == 0 then 1 else limit, if endless then n else Least(n, room))
  }

  /** The position k bytes on; the end of the buffer is its beginning. */
  function Onward(position: nat, k: nat, size: nat): nat {
    if position + k == size then 0 else position + k
  }

  /** How many of the free bytes follow each other from position write on. */
  function FreeFrom(write: nat, empty: nat, size: nat): nat
    requires write <= size
  {
    if write <= size - empty then empty else size - write
  }

  /** How many of the filled bytes follow each other from position read on. */
  function FilledFrom(read: nat, full: nat, size: nat): nat
    requires read <= size
  {
    if read <= size - full then full else size - read
  }

  /** The len bytes from position start on, going on at the beginning after the end. */
  ghost function Ring(b: seq<Byte>, start: nat, len: nat): seq<Byte>
    requires start < |b| && len <= |b|
  {
    if start + len <= |b| then b[start..start + len] else b[start..] + b[..start + len - |b|]
  }

  /** The position n bytes on from the beginning, for n below twice the size. */
  function Wrap(n: nat, size: nat): nat
    requires n < 2 * size
  {
    if n < size then n else n - size
  }

  /** Bytes stored in the free part after the filled one are appended; no unread byte is lost. */
  lemma RingPut(b: seq<Byte>, c: seq<Byte>, start: nat, len: nat, bytes: seq<Byte>)
    requires start < |b| == |c| && len + |bytes| <= |b|
    requires var w := Wrap(start + len, |b|); w + |bytes| <= |b| && c == b[..w] + bytes + b[w + |bytes|..]
    ensures Ring(c, start, len + |bytes|) == Ring(b, start, len) + bytes
  {
    hide Ring;
    var w := Wrap(start + len, |b|);
    Stored(b, c, w, bytes);
    if start + len < |b| {
      PutBehind(b, c, start, len, bytes);
    } else {
      PutInFront(b, c, start, len, bytes);
    }
  }

  lemma PutBehind(b: seq<Byte>, c: seq<Byte>, start: nat, len: nat, bytes: seq<Byte>)
    requires |b| == |c| && start + len < |b| && start + len + |bytes| <= |b|
    requires c[..start + len] == b[..start + len] && c[start + len..start + len + |bytes|] == bytes
    ensures Ring(c, start, len + |bytes|) == Ring(b, start, len) + bytes
  {
    Adjoining(b, c, start, start + len, bytes);
  }

  lemma PutInFront(b: seq<Byte>, c: seq<Byte>, start: nat, len: nat, bytes: seq<Byte>)
    requires start < |b| == |c| && len + |bytes| <= |b| <= start + len
    requires var w := start + len - |b|;
      c[..w] == b[..w] && c[w..w + |bytes|] == bytes && c[w + |bytes|..] == b[w + |bytes|..]
    ensures Ring(c, start, len + |bytes|) == Ring(b, start, len) + bytes
  {
    var w := start + len - |b|;
    Adjoining(b, c, 0, w, bytes);
    SameEnd(b, c, w + |bytes|, start);
    assert c[..w + |bytes|] == b[..w] + bytes;
    RingIs(b, start, len);
    RingIs(c, start, len + |bytes|);
    hide Ring;
    assert b[start..] + (b[..w] + bytes) == b[start..] + b[..w] + bytes;
  }

  lemma RingIs(b: seq<Byte>, start: nat, len: nat)
    requires start < |b| && len <= |b| <= start + len
    ensures Ring(b, start, len) == b[start..] + b[..start + len - |b|]
  {
  }

  lemma SameEnd(b: seq<Byte>, c: seq<Byte>, k: nat, start: nat)
    requires |b| == |c| && k <= start <= |b| && c[k..] == b[k..]
    ensures c[start..] == b[start..]
  {
    assert c[start..] == c[k..][start - k..] == b[k..][start - k..] == b[start..];
  }

  lemma Stored(b: seq<Byte>, c: seq<Byte>, w: nat, bytes: seq<Byte>)
    requires |b| == |c| && w + |bytes| <= |b| && c == b[..w] + bytes + b[w + |bytes|..]
    ensures c[..w] == b[..w] && c[w..w + |bytes|] == bytes && c[w + |bytes|..] == b[w + |bytes|..]
  {
  }

  lemma Adjoining(b: seq<Byte>, c: seq<Byte>, start: nat, w: nat, bytes: seq<Byte>)
    requires |b| == |c| && start <= w && w + |bytes| <= |b| && c[..w] == b[..w] && c[w..w + |bytes|] == bytes
    ensures c[start..w + |bytes|] == b[start..w] + bytes
  {
    assert c[start..w] == c[..w][start..] == b[..w][start..] == b[start..w];
    assert c[start..w + |bytes|] == c[start..w] + c[w..w + |bytes|];
  }

  /** Bytes from the start of the filled part are its first ones, and the rest stays. */
  lemma RingGet(b: seq<Byte>, start: nat, len: nat, k: nat)
    requires start < |b| && k <= len <= |b| && start + k <= |b|
    ensures b[start..start + k] == Ring(b, start, len)[..k]
    ensures Ring(b, Wrap(start + k, |b|), len - k) == Ring(b, start, len)[k..]
  {
    if start + len <= |b| {
      assert b[start..start + k] == b[start..start + len][..k];
      assert b[start + k..start + len] == b[start..start + len][k..];
    } else {
      var rest := b[..start + len - |b|];
      assert b[start..start + k] == b[start..][..k] == (b[start..] + rest)[..k];
      assert b[start + k..] + rest == (b[start..] + rest)[k..];
    }
  }

  class Channel {
    var buffer: array<Byte>
    var offsetForWrite: nat
    var offsetForRead: nat
    var size: nat
    var empty: nat
    var full: nat
    var isCanRead: bool

    ghost predicate Valid()
      reads this, buffer
    {
      && 0 < size == buffer.Length && empty + full == size
      && offsetForRead < size && offsetForWrite == Wrap(offsetForRead + full, size)
    }

    /** The bytes put and not yet taken, oldest first. */
    ghost function Contents(): seq<Byte>
      requires Valid()
      reads this, buffer
    {
      Ring(buffer[..], offsetForRead, full)
    }

    constructor (size: nat)
      requires size > 0
      ensures Valid() && fresh(buffer) && Contents() == [] && empty == size && this.size == size && isCanRead
      ensures offsetForRead == 0
    {
      buffer := new Byte[size];
      this.size, empty, full := size, size, 0;
      offsetForRead, offsetForWrite, isCanRead := 0, 0, true;
    }

    /** How many bytes one read may ask for: the free bytes that follow each other. */
    function FreeRun(): (n: nat)
      requires Valid()
      reads this, buffer
      ensures offsetForWrite + n <= size && n <= empty && (n == 0 <==> empty == 0)
      ensures n == empty || offsetForWrite + n == size
    {
      FreeFrom(offsetForWrite, empty, size)
    }

    function FilledRun(): (n: nat)
      requires Valid()
      reads this, buffer
      ensures offsetForRead + n <= size && n <= full && (n == 0 <==> full == 0)
      ensures n == full || offsetForRead + n == size
    {
      FilledFrom(offsetForRead, full, size)
    }

    /** What the system's read does to the buffer. */
    method Store(bytes: seq<Byte>)
      requires Valid() && |bytes| <= FreeRun()
      modifies buffer
      ensures buffer[..] == old(buffer[..])[..offsetForWrite] + bytes + old(buffer[..])[offsetForWrite + |bytes|..]
      ensures Valid()
    {
      forall k | 0 <= k < |bytes| {
        buffer[offsetForWrite + k] := bytes[k];
      }
    }

    /** Counting k stored bytes as filled. */
    method Advance(k: nat, ghost before: seq<Byte>, ghost bytes: seq<Byte>)
      requires Valid() && k <= FreeRun() && |before| == size && |bytes| == k
      requires buffer[..] == before[..offsetForWrite] + bytes + before[offsetForWrite + k..]
      modifies `empty, `offsetForWrite, `full
      ensures Valid() && Contents() == Ring(before, offsetForRead, old(full)) + bytes
    {
      hide Ring;
      RingPut(before, buffer[..], offsetForRead, full, bytes);
      empty := empty - k;
      offsetForWrite := offsetForWrite + k;
      full := full + k;
      if offsetForWrite == size {
        offsetForWrite := 0;
      }
    }

    /** Counting k written bytes as free. */
    method Release(k: nat)
      requires Valid() && k <= FilledRun()
      modifies `empty, `offsetForRead, `full
      ensures offsetForRead == Onward(old(offsetForRead), k, size)
      ensures Valid() && Contents() == old(Contents())[k..]
    {
      hide Ring;
      RingGet(buffer[..], offsetForRead, full, k);
      full := full - k;
      offsetForRead := offsetForRead + k;
      empty := empty + k;
      if offsetForRead == size {
        offsetForRead := 0;
      }
    }

    /** Reads from the pipe into the free part of the buffer, up to its end at most. */
    method PutInBuffer(from: Pipe, limit: nat) returns (got: int)
      requires Valid()
      modifies this, buffer, from
      ensures Valid() && unchanged(`buffer, `size, `isCanRead, `offsetForRead) && from.open == old(from.open)
      ensures got == old(from.ReadCount(FreeRun(), limit))
      ensures got > 0 ==>
        && got <= old(FreeRun()) && (limit > 0 ==> got <= limit)
        && (got == limit || (got == 1 && limit == 0) || got == |old(from.data)| || got == old(FreeRun()))
      ensures got >= -1 && (got == -1 <==> old(empty) > 0 && old(from.data) == [] && from.open)
      ensures got == -1 ==> Contents() == old(Contents()) && from.data == old(from.data)
      ensures got >= 0 ==>
        && got <= old(empty) && got <= |old(from.data)|
        && Contents() == old(Contents()) + old(from.data)[..got] && from.data == old(from.data)[got..]
      ensures got == 0 <==> old(empty) == 0 || (old(from.data) == [] && !from.open)
    {
      got := from.ReadCount(FreeRun(), limit);
      if got < 0 {
        return -1;
      }
      ghost var before := buffer[..];
      Store(from.data[..got]);
      Advance(got, before, from.data[..got]);
      from.data := from.data[got..];
    }

    /** Writes to the pipe from the filled part of the buffer, up to its end at most. */
    method GetFromBuffer(to: Pipe, limit: nat) returns (put: int)
      requires Valid()
      modifies this, to
      ensures Valid() && unchanged(`buffer, `size, `isCanRead) && to.open == old(to.open)
      ensures put == old(to.WriteCount(FilledRun(), limit))
      ensures put > 0 ==>
        && put <= old(FilledRun()) && (limit > 0 ==> put <= limit)
        && (put == limit || (put == 1 && limit == 0) || put == old(FilledRun())
            || (!to.endless && |to.data| == to.capacity))
      ensures offsetForRead == if put < 0 then old(offsetForRead) else Onward(old(offsetForRead), put, size)
      ensures put >= -1 && (put == -1 <==> old(full) > 0 && !old(to.Takes(1)))
      ensures put == -1 ==> Contents() == old(Contents()) && to.data == old(to.data)
      ensures put >= 0 ==>
        && put <= old(full) && to.data == old(to.data) + old(Contents())[..put]
        && Contents() == old(Contents())[put..]
        && (put > 0 ==> old(to.Takes(put)))
      ensures put == 0 <==> old(full) == 0
    {
      put := to.WriteCount(FilledRun(), limit);
      if put < 0 {
        return -1;
      }
      Deliver(to, put);
      Release(put);
    }

    /** What the system's write does to the pipe. */
    method Deliver(to: Pipe, k: nat)
      requires Valid() && k <= FilledRun()
      modifies to
      ensures to.data == old(to.data) + Contents()[..k] && to.open == old(to.open)
    {
      RingGet(buffer[..], offsetForRead, full, k);
      to.data := to.data + buffer[..][offsetForRead..offsetForRead + k];
    }
  }
}
