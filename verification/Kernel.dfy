/** The part of the operating system the reactor talks to.

    Every system call whose outcome the program does not control takes a *choice*, and a total
    function turns the choice into one of the results the kernel may produce.  A statement that holds
    for every choice therefore holds for every behaviour of the kernel. */
module Kernel {
  newtype byte = x: int | 0 <= x < 256

  /** The bits of an epoll event mask; a mask is the set of bits that are on. */
  datatype EpollFlag = In | Pri | Out | Err | Hup

  type Mask = set<EpollFlag>

  const NONE_EVENT: Mask := {}
  const READ_EVENT: Mask := {In, Pri}
  const WRITE_EVENT: Mask := {Out}

  function Min(a: nat, b: nat): nat {
    if a < b then a else b
  }

  /** One end of a TCP stream: the bytes the kernel has taken from the program, whether the stream is
      broken for good (EPIPE and ECONNRESET are sticky) and how often SHUT_WR was issued. */
  datatype Stream = Stream(wire: seq<byte>, broken: bool, shutWr: nat)

  datatype WriteChoice = Accept(n: nat) | WouldBlock | OtherError | PeerReset

  datatype WriteResult = Wrote(n: nat) | Failed(fault: bool)

  /** write(2).  `fault` marks EPIPE and ECONNRESET; writing after SHUT_WR yields EPIPE. */
  function WriteStream(s: Stream, data: seq<byte>, k: WriteChoice): (r: (Stream, WriteResult))
    ensures r.1.Wrote? ==> r.1.n <= |data| && r.0 == s.(wire := s.wire + data[..r.1.n])
    ensures r.1.Failed? ==> r.0.wire == s.wire && r.0.shutWr == s.shutWr
    ensures r.1 == Failed(true) ==> r.0.broken || r.0.shutWr > 0
    ensures s.broken || s.shutWr > 0 ==> r == (s, Failed(true))
  {
    if s.broken || s.shutWr > 0 then
      (s, Failed(true))
    else
      match k
      case Accept(n) =>
        var m := Min(n, |data|);
        (s.(wire := s.wire + data[..m]), Wrote(m))
      case WouldBlock => (s, Failed(false))
      case OtherError => (s, Failed(false))
      case PeerReset => (s.(broken := true), Failed(true))
  }

  /** What the peer offers to a readv(2); no bytes at all is the end of the stream. */
  datatype ReadChoice = Arrived(bytes: seq<byte>) | ReadError

  datatype ReadResult = Got(bytes: seq<byte>) | ReadFailed

  /** readv(2) into vectors with `capacity` bytes in all. */
  function ReadStream(k: ReadChoice, capacity: nat): (r: ReadResult)
    ensures r.Got? ==> |r.bytes| <= capacity
  {
    match k
    case Arrived(bytes) => Got(bytes[..Min(|bytes|, capacity)])
    case ReadError => ReadFailed
  }

  /** The socket of a connection. */
  class Socket {
    var stream: Stream

    constructor ()
      ensures stream == Stream([], false, 0)
    {
      stream := Stream([], false, 0);
    }

    method Write(data: seq<byte>, k: WriteChoice) returns (r: WriteResult)
      modifies this
      ensures (stream, r) == WriteStream(old(stream), data, k)
    {
      var (s, res) := WriteStream(stream, data, k);
      stream, r := s, res;
    }

    method ShutdownWrite()
      modifies this
      ensures stream == old(stream).(shutWr := old(stream).shutWr + 1)
    {
      stream := stream.(shutWr := stream.shutWr + 1);
    }
  }
}
