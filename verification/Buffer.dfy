/** include/Buffer.h and src/Buffer.cpp: a byte queue over one array and two indices. */
module Buffers {
  import opened Kernel
  import opened BufferLayouts

  const INITIAL_SIZE: nat := 1024
  const EXTRA_SIZE: nat := 65536

  /** The room the two-vector read offers when `writable` bytes are free behind the writer index. */
  function ReadCapacity(writable: nat): nat {
    writable + if writable < EXTRA_SIZE then EXTRA_SIZE else 0
  }

  /** Every read has room for at least one byte, so reading nothing means the stream has ended. */
  lemma ReadingNothingIsEndOfStream(writable: nat, k: ReadChoice)
    ensures ReadStream(k, ReadCapacity(writable)) == Got([]) <==> k == Arrived([])
  {
    if k.Arrived? && k.bytes != [] {
      assert |k.bytes[..Min(|k.bytes|, ReadCapacity(writable))]| > 0;
    }
  }

  /** std::copy within one array, element by element from the front.  The destination must not lie
      inside the source range. */
  method CopyDown(a: array<byte>, first: nat, last: nat, dest: nat)
    requires dest <= first <= last <= a.Length
    requires dest < first || first == last
    modifies a
    ensures a[dest..dest + (last - first)] == old(a[first..last])
    ensures a[..dest] == old(a[..dest])
    ensures a[dest + (last - first)..] == old(a[dest + (last - first)..])
  {
    var i := first;
    ghost var was := a[..];
    while i < last
      invariant first <= i <= last
      invariant forall k :: dest <= k < dest + (i - first) ==> a[k] == was[k + (first - dest)]
      invariant forall k :: 0 <= k < a.Length && !(dest <= k < dest + (i - first)) ==> a[k] == was[k]
    {
      a[dest + (i - first)] := a[i];
      i := i + 1;
    }
  }

  /** std::copy of outside memory into an array. */
  method CopyIn(a: array<byte>, at: nat, src: seq<byte>)
    requires at + |src| <= a.Length
    modifies a
    ensures a[..] == old(a[..at]) + src + old(a[at + |src|..])
  {
    var i := 0;
    while i < |src|
      invariant 0 <= i <= |src|
      invariant forall k :: 0 <= k < i ==> a[at + k] == src[k]
      invariant forall k :: 0 <= k < a.Length && !(at <= k < at + i) ==> a[k] == old(a[k])
    {
      a[at + i] := src[i];
      i := i + 1;
    }
  }

  /** readv(2) with vector 0 at `a[at..]` and, when `two` is set, vector 1 over all of `extra`:
      vector 0 is filled before vector 1 receives anything. */
  method ReadvInto(a: array<byte>, at: nat, extra: array<byte>, two: bool, k: ReadChoice) returns (r: ReadResult)
    requires at <= a.Length && a != extra
    modifies a, extra
    ensures r == ReadStream(k, a.Length - at + if two then extra.Length else 0)
    ensures a[..at] == old(a[..at])
    ensures r.Got? ==>
      var n0 := Min(|r.bytes|, a.Length - at);
      && a[at..at + n0] == r.bytes[..n0]
      && |r.bytes| - n0 <= extra.Length
      && extra[..|r.bytes| - n0] == r.bytes[n0..]
  {
    r := ReadStream(k, a.Length - at + if two then extra.Length else 0);
    if r.Got? {
      var n0 := Min(|r.bytes|, a.Length - at);
      CopyIn(a, at, r.bytes[..n0]);
      CopyIn(extra, 0, r.bytes[n0..]);
    }
  }

  lemma Rejoin(s: seq<byte>, t: seq<byte>, n: nat)
    requires n <= |t|
    ensures s + t[..n] + t[n..] == s + t
  {
  }

  class Buffer {
    var buffer: array<byte>
    var readerIndex: nat
    var writerIndex: nat
    ghost var contents: seq<byte>  // the byte queue this buffer stands for

    ghost predicate Valid()
      reads this, buffer
    {
      Ok(At()) && contents == buffer[readerIndex..writerIndex]
    }

    ghost function At(): Layout
      reads this
    {
      Layout(buffer.Length, readerIndex, writerIndex)
    }

    constructor (initialSize: nat)
      ensures Valid() && contents == [] && At() == Created(initialSize)
      ensures fresh(buffer) && buffer.Length == 8 + initialSize && readerIndex == 8
    {
      buffer := new byte[CHEAP_PREPEND + initialSize];
      readerIndex, writerIndex, contents := CHEAP_PREPEND, CHEAP_PREPEND, [];
    }

    function ReadableBytes(): (n: nat)
      requires Valid()
      reads this, buffer
      ensures n == |contents|
    {
      writerIndex - readerIndex
    }

    function WritableBytes(): (n: nat)
      requires Valid()
      reads this, buffer
    {
      buffer.Length - writerIndex
    }

    method Retrieve(len: nat)
      requires Valid()
      modifies this`readerIndex, this`writerIndex, this`contents
      ensures Valid() && At() == Retrieved(old(At()), len)
      ensures contents == old(contents)[Min(len, |old(contents)|)..]
    {
      if len < ReadableBytes() {
        readerIndex := readerIndex + len;
        contents := contents[len..];
      } else {
        RetrieveAll();
      }
    }

    method RetrieveAll()
      requires Valid()
      modifies this`readerIndex, this`writerIndex, this`contents
      ensures Valid() && contents == [] && At() == old(At()).(reader := CHEAP_PREPEND, writer := CHEAP_PREPEND)
    {
      readerIndex, writerIndex, contents := CHEAP_PREPEND, CHEAP_PREPEND, [];
    }

    /** The source reads `len` bytes from the reader index unchecked, so its callers must stay within
        the readable bytes. */
    method RetrieveAsString(len: nat) returns (result: seq<byte>)
      requires Valid() && len <= |contents|
      modifies this`readerIndex, this`writerIndex, this`contents
      ensures Valid() && At() == Retrieved(old(At()), len)
      ensures result + contents == old(contents) && |result| == len
    {
      result := buffer[readerIndex..readerIndex + len];
      Retrieve(len);
    }

    method RetrieveAllAsString() returns (result: seq<byte>)
      requires Valid()
      modifies this`readerIndex, this`writerIndex, this`contents
      ensures Valid() && At() == Retrieved(old(At()), |old(contents)|)
      ensures contents == [] && result == old(contents)
    {
      result := RetrieveAsString(ReadableBytes());
    }

    /** vector::resize to a larger size. */
    method Resize(n: nat)
      requires Valid() && buffer.Length <= n
      modifies this`buffer
      ensures fresh(buffer) && At() == old(At()).(size := n)
      ensures Valid() && contents == old(contents)
    {
      var grown := new byte[n];
      CopyIn(grown, 0, buffer[..]);
      assert grown[..buffer.Length] == buffer[..];
      assert grown[readerIndex..writerIndex] == grown[..buffer.Length][readerIndex..writerIndex];
      buffer := grown;
    }

    /** Called only when the free tail is too short; the forward copy is sound because then the reader
        index has moved past the cheap prepend area. */
    method MakeSpace(len: nat)
      requires Valid() && WritableBytes() < len
      modifies this`buffer, this`readerIndex, this`writerIndex, buffer
      ensures Valid() && contents == old(contents) && At() == WithSpace(old(At()), len)
      ensures buffer == old(buffer) || fresh(buffer)
      ensures WritableBytes() >= len
    {
      if WritableBytes() + readerIndex < len + CHEAP_PREPEND {
        Resize(writerIndex + len);
      } else {
        var readable := ReadableBytes();
        assert readerIndex > CHEAP_PREPEND;
        CopyDown(buffer, readerIndex, writerIndex, CHEAP_PREPEND);
        readerIndex := CHEAP_PREPEND;
        writerIndex := readerIndex + readable;
      }
    }

    method EnsureWritableBytes(len: nat)
      requires Valid()
      modifies this`buffer, this`readerIndex, this`writerIndex, buffer
      ensures Valid() && contents == old(contents)
      ensures At() == if Writable(old(At())) < len then WithSpace(old(At()), len) else old(At())
      ensures buffer == old(buffer) || fresh(buffer)
      ensures WritableBytes() >= len
    {
      if WritableBytes() < len {
        MakeSpace(len);
      }
    }

    method Append(data: seq<byte>)
      requires Valid()
      modifies this, buffer
      ensures Valid() && (buffer == old(buffer) || fresh(buffer))
      ensures contents == old(contents) + data && At() == Appended(old(At()), |data|)
    {
      EnsureWritableBytes(|data|);
      ghost var was := buffer[..];
      CopyIn(buffer, writerIndex, data);
      assert buffer[..writerIndex] == was[..writerIndex];
      assert buffer[readerIndex..writerIndex] == buffer[..writerIndex][readerIndex..];
      assert was[readerIndex..writerIndex] == was[..writerIndex][readerIndex..];
      HasWritten(|data|);
    }

    /** `n` bytes have been put behind the writer index; make them readable. */
    method HasWritten(n: nat)
      requires Valid() && n <= WritableBytes()
      modifies this`writerIndex, this`contents
      ensures Valid() && At() == old(At()).(writer := old(writerIndex) + n)
      ensures contents == old(contents) + buffer[writerIndex - n..writerIndex]
    {
      contents := contents + buffer[writerIndex..writerIndex + n];
      writerIndex := writerIndex + n;
    }

    /** Reads from the descriptor straight into the free tail, spilling into a stack buffer. */
    method ReadFd(k: ReadChoice) returns (r: ReadResult)
      requires Valid()
      modifies this, buffer
      ensures Valid() && (buffer == old(buffer) || fresh(buffer))
      ensures r == ReadStream(k, ReadCapacity(old(WritableBytes())))
      ensures contents == old(contents) + if r.Got? then r.bytes else []
      ensures At() == if r.Got? then Filled(old(At()), |r.bytes|) else old(At())
      ensures k.Arrived? ==>
        var room := old(buffer.Length) - old(writerIndex);
        && r.Got? && r.bytes <= k.bytes
        && (|k.bytes| <= 65536 ==> r.bytes == k.bytes)
        && (room < 65536 ==> r.bytes == k.bytes || |r.bytes| == room + 65536)
        && (room >= 65536 ==> r.bytes == k.bytes || |r.bytes| == room)
        && (room >= 65536 ==> |r.bytes| <= room && buffer == old(buffer))
      ensures k == ReadError ==> r == ReadFailed
    {
      var extra := new byte[EXTRA_SIZE];
      var writable := WritableBytes();
      r := Scatter(extra, k);
      if r.Got? {
        var n := |r.bytes|;
        if n <= writable {
          assert r.bytes[..n] == r.bytes;
          HasWritten(n);
          assert contents == old(contents) + r.bytes;
        } else {
          TakeSpill(extra, n - writable, r.bytes);
        }
      }
    }

    /** The free tail is full and `spilled` more bytes wait in the stack buffer. */
    method TakeSpill(extra: array<byte>, spilled: nat, ghost bytes: seq<byte>)
      requires Valid() && extra != buffer
      requires WritableBytes() < |bytes| && spilled == |bytes| - WritableBytes() <= extra.Length
      requires buffer[writerIndex..] == bytes[..WritableBytes()]
      requires extra[..spilled] == bytes[WritableBytes()..]
      modifies this, buffer
      ensures Valid() && (buffer == old(buffer) || fresh(buffer))
      ensures contents == old(contents) + bytes && At() == Filled(old(At()), |bytes|)
    {
      var writable := WritableBytes();
      HasWritten(writable);
      Append(extra[..spilled]);
      Rejoin(old(contents), bytes, writable);
    }

    /** The readv call: the free tail first, then the stack buffer, which is offered only while the tail
        is shorter than it.  With one vector nothing spills. */
    method Scatter(extra: array<byte>, k: ReadChoice) returns (r: ReadResult)
      requires Valid() && extra != buffer && extra.Length == EXTRA_SIZE
      modifies buffer, extra
      ensures Valid() && r == ReadStream(k, ReadCapacity(WritableBytes()))
      ensures r.Got? ==>
        var n0 := Min(|r.bytes|, WritableBytes());
        && buffer[writerIndex..writerIndex + n0] == r.bytes[..n0]
        && |r.bytes| - n0 <= extra.Length && extra[..|r.bytes| - n0] == r.bytes[n0..]
        && (n0 < |r.bytes| ==> n0 == WritableBytes() < EXTRA_SIZE)
    {
      r := ReadvInto(buffer, writerIndex, extra, WritableBytes() < EXTRA_SIZE, k);
      assert buffer[readerIndex..writerIndex] == buffer[..writerIndex][readerIndex..];
    }

    /** Offers every readable byte to the socket; what was taken stays queued until retrieved. */
    method WriteFd(socket: Socket, k: WriteChoice) returns (r: WriteResult)
      requires Valid()
      modifies socket
      ensures (socket.stream, r) == WriteStream(old(socket.stream), contents, k)
    {
      r := socket.Write(buffer[readerIndex..writerIndex], k);
    }
  }
}
