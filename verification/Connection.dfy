/** src/TcpConnection.cpp as functions on values, and what they keep over whole runs.

    Everything here happens on the connection's own loop thread.  `accepted`, `received`, `consumed` and
    `lost` are history: the bytes send() took on, the bytes readv() returned, the bytes the application
    took out of the input buffer, and whether bytes that send() took on were given up after a fault. */
module Connections {
  import opened Kernel

  datatype State = Connecting | Connected | Disconnecting | Disconnected

  datatype Callback = WriteComplete | HighWater(len: nat)

  datatype Edge = Up | Down

  /** The callbacks the user installed; the other callbacks are always present. */
  datatype Config = Config(highWaterMark: nat, hasWriteComplete: bool, hasHighWater: bool)

  datatype Conn = Conn(
    state: State,
    events: Mask,             // the channel's interest
    input: seq<byte>,
    output: seq<byte>,
    stream: Stream,
    queued: seq<Callback>,    // callbacks queued to the loop for this connection
    edges: seq<Edge>,         // calls of the connection callback
    closes: nat,              // calls of the close callback
    received: seq<byte>,
    consumed: seq<byte>,
    accepted: seq<byte>,
    lost: bool)

  const FRESH: Conn := Conn(Connecting, NONE_EVENT, [], [], Stream([], false, 0), [], [], 0, [], [], [], false)

  predicate IsWriting(c: Conn) {
    Out in c.events
  }

  // ----- the operations ---------------------------------------------------------------------------

  function ConnectEstablished(c: Conn): Conn {
    c.(state := Connected, events := c.events + READ_EVENT, edges := c.edges + [Up])
  }

  /** The part of sendInLoop that writes at once, when nothing is queued; gives what remains. */
  function DirectWrite(cfg: Config, c: Conn, data: seq<byte>, k: WriteChoice): (Conn, seq<byte>, bool) {
    var (s, r) := WriteStream(c.stream, data, k);
    match r
    case Wrote(n) =>
      var done := n == |data| && cfg.hasWriteComplete;
      (c.(stream := s, queued := c.queued + if done then [WriteComplete] else []), data[n..], false)
    case Failed(fault) => (c.(stream := s), data, fault)
  }

  /** The part of sendInLoop that queues what remains. */
  function BufferRest(cfg: Config, c: Conn, rest: seq<byte>): Conn {
    var oldLen := |c.output|;
    var newLen := oldLen + |rest|;
    var high := newLen >= cfg.highWaterMark && oldLen < cfg.highWaterMark && cfg.hasHighWater;
    c.(queued := c.queued + if high then [HighWater(newLen)] else [],
       output := c.output + rest,
       events := c.events + WRITE_EVENT)
  }

  function SendInLoop(cfg: Config, c: Conn, data: seq<byte>, k: WriteChoice): Conn {
    if c.state == Disconnected then c
    else
      var (c1, rest, fault) :=
        if !IsWriting(c) && c.output == [] then DirectWrite(cfg, c, data, k) else (c, data, false);
      if rest == [] then c1
      else if fault then c1.(lost := true)
      else BufferRest(cfg, c1, rest)
  }

  function Send(cfg: Config, c: Conn, data: seq<byte>, k: WriteChoice): Conn {
    if c.state == Connected then SendInLoop(cfg, c.(accepted := c.accepted + data), data, k) else c
  }

  function ShutdownInLoop(c: Conn): Conn {
    if IsWriting(c) then c else c.(stream := c.stream.(shutWr := c.stream.shutWr + 1))
  }

  function Shutdown(c: Conn): Conn {
    if c.state == Connected then ShutdownInLoop(c.(state := Disconnecting)) else c
  }

  /** What handleWrite does when the output buffer has just become empty. */
  function OutputDrained(cfg: Config, c: Conn): Conn {
    var c1 := c.(events := c.events - WRITE_EVENT,
                 queued := c.queued + if cfg.hasWriteComplete then [WriteComplete] else []);
    if c1.state == Disconnecting then ShutdownInLoop(c1) else c1
  }

  function HandleWrite(cfg: Config, c: Conn, k: WriteChoice): Conn {
    if !IsWriting(c) then c
    else
      var (s, r) := WriteStream(c.stream, c.output, k);
      if r.Wrote? && r.n > 0 then
        var c1 := c.(stream := s, output := c.output[r.n..]);
        if c1.output == [] then OutputDrained(cfg, c1) else c1
      else c.(stream := s)
  }

  function HandleClose(c: Conn): Conn {
    c.(state := Disconnected, events := NONE_EVENT, edges := c.edges + [Down], closes := c.closes + 1)
  }

  /** Reading `r` from the socket; no bytes at all means the peer has closed.  When bytes arrived the
      message callback runs next. */
  function HandleRead(c: Conn, r: ReadResult): Conn {
    match r
    case Got(bytes) =>
      if bytes == [] then HandleClose(c)
      else c.(input := c.input + bytes, received := c.received + bytes)
    case ReadFailed => c
  }

  /** The application takes the first `n` bytes out of the input buffer. */
  function Consume(c: Conn, n: nat): Conn {
    var m := Min(n, |c.input|);
    c.(input := c.input[m..], consumed := c.consumed + c.input[..m])
  }

  /** connectDestroyed up to the removal of the channel from the poller. */
  function ConnectDestroyed(c: Conn): Conn {
    if c.state == Connected then
      c.(state := Disconnected, events := NONE_EVENT, edges := c.edges + [Down])
    else c
  }

  // ----- runs -------------------------------------------------------------------------------------

  datatype Event =
    | Establish
    | SendCall(data: seq<byte>, k: WriteChoice)
    | ShutdownCall
    | Readable(r: ReadResult)
    | Writable(k: WriteChoice)
    | HangUp
    | ConsumeInput(n: nat)
    | Destroy

  /** When an event can occur on the connection's loop: I/O events need interest in some event, and
      connectEstablished runs first and once. */
  predicate Enabled(c: Conn, e: Event) {
    match e
    case Establish => c.state == Connecting
    case SendCall(_, _) => true
    case ShutdownCall => true
    case Readable(_) => c.events != NONE_EVENT
    case Writable(_) => c.events != NONE_EVENT
    case HangUp => c.events != NONE_EVENT
    case ConsumeInput(_) => true
    case Destroy => c.state != Connecting
  }

  function Step(cfg: Config, c: Conn, e: Event): Conn {
    match e
    case Establish => ConnectEstablished(c)
    case SendCall(data, k) => Send(cfg, c, data, k)
    case ShutdownCall => Shutdown(c)
    case Readable(r) => HandleRead(c, r)
    case Writable(k) => HandleWrite(cfg, c, k)
    case HangUp => HandleClose(c)
    case ConsumeInput(n) => Consume(c, n)
    case Destroy => ConnectDestroyed(c)
  }

  function Run(cfg: Config, c: Conn, es: seq<Event>): Conn
    decreases |es|
  {
    if es == [] then c else Run(cfg, Step(cfg, c, es[0]), es[1..])
  }

  ghost predicate Legal(cfg: Config, c: Conn, es: seq<Event>)
    decreases |es|
  {
    es != [] ==> Enabled(c, es[0]) && Legal(cfg, Step(cfg, c, es[0]), es[1..])
  }

  // ----- the invariant ----------------------------------------------------------------------------

  predicate Active(c: Conn) {
    c.state == Connected || c.state == Disconnecting
  }

  /** The interest mask follows the state and the output buffer. */
  ghost predicate MaskInv(c: Conn) {
    if Active(c) then c.events == READ_EVENT + (if c.output != [] then WRITE_EVENT else NONE_EVENT)
    else c.events == NONE_EVENT
  }

  /** Nothing that send() took on is lost, doubled or reordered; bytes are only given up after the
      stream broke, and then nothing follows them on the wire. */
  ghost predicate StreamInv(c: Conn) {
    if c.lost then c.stream.broken && c.output == [] && c.stream.wire <= c.accepted
    else c.stream.wire + c.output == c.accepted
  }

  /** SHUT_WR is issued once, as soon as a shutdown was asked for and nothing is queued. */
  ghost predicate HalfCloseInv(c: Conn) {
    && c.stream.shutWr <= 1
    && (c.state == Disconnecting ==> (c.stream.shutWr == 1 <==> c.output == []))
    && (c.state == Connecting || c.state == Connected ==> c.stream.shutWr == 0)
    && (c.stream.shutWr == 1 ==> c.output == [])
  }

  ghost predicate EdgeInv(c: Conn) {
    && c.edges == (match c.state case Connecting => [] case Disconnected => [Up, Down] case _ => [Up])
    && c.closes <= (if c.state == Disconnected then 1 else 0)
    && (c.state == Connecting ==> c.output == [] && c.accepted == [])
  }

  ghost predicate Inv(c: Conn) {
    && MaskInv(c)
    && StreamInv(c)
    && HalfCloseInv(c)
    && EdgeInv(c)
    && c.consumed + c.input == c.received
  }

  lemma DirectWriteKeepsStream(cfg: Config, c: Conn, data: seq<byte>, k: WriteChoice)
    requires StreamInv(c) && c.output == []
    ensures var (c1, rest, fault) := DirectWrite(cfg, c.(accepted := c.accepted + data), data, k);
            if c.lost then fault && rest == data && c1.stream == c.stream
            else c1.stream.wire + rest == c1.accepted && (fault ==> c1.stream.broken || c1.stream.shutWr > 0)
  {
    var (s, r) := WriteStream(c.stream, data, k);
    if r.Wrote? {
      assert data[..r.n] + data[r.n..] == data;
      assert (c.stream.wire + data[..r.n]) + data[r.n..] == c.stream.wire + data;
    }
    assert !c.lost ==> c.stream.wire == c.accepted;
  }

  lemma BufferRestInv(cfg: Config, c: Conn, rest: seq<byte>)
    requires Inv(c.(accepted := c.stream.wire + c.output)) && c.state == Connected && rest != []
    requires c.accepted == c.stream.wire + c.output + rest && !c.lost
    ensures Inv(BufferRest(cfg, c, rest))
  {
    assert c.stream.wire + (c.output + rest) == c.stream.wire + c.output + rest;
  }

  lemma SendInv(cfg: Config, c: Conn, data: seq<byte>, k: WriteChoice)
    requires Inv(c)
    ensures Inv(Send(cfg, c, data, k))
  {
    if c.state == Connected && c.output == [] {
      SendAtOnceInv(cfg, c, data, k);
    } else if c.state == Connected && data != [] {
      BufferRestInv(cfg, c.(accepted := c.accepted + data), data);
    }
  }

  /** With nothing queued the socket is tried first. */
  lemma SendAtOnceInv(cfg: Config, c: Conn, data: seq<byte>, k: WriteChoice)
    requires Inv(c) && c.state == Connected && c.output == []
    ensures Inv(Send(cfg, c, data, k))
  {
    hide BufferRest;
    var (c1, rest, fault) := DirectWrite(cfg, c.(accepted := c.accepted + data), data, k);
    DirectWriteKeepsStream(cfg, c, data, k);
    if rest != [] && !fault {
      assert c1.stream.wire + c1.output == c1.stream.wire;
      BufferRestInv(cfg, c1, rest);
    }
  }

  lemma HandleWriteInv(cfg: Config, c: Conn, k: WriteChoice)
    requires Inv(c)
    ensures Inv(HandleWrite(cfg, c, k))
  {
    var (s, r) := WriteStream(c.stream, c.output, k);
    if IsWriting(c) && r.Wrote? {
      assert c.output[..r.n] + c.output[r.n..] == c.output;
      assert (c.stream.wire + c.output[..r.n]) + c.output[r.n..] == c.stream.wire + c.output;
    }
  }

  lemma ReadAndConsumeInv(c: Conn, r: ReadResult, n: nat)
    requires Inv(c)
    ensures c.events != NONE_EVENT ==> Inv(HandleRead(c, r))
    ensures Inv(Consume(c, n))
  {
    if r.Got? {
      assert c.consumed + (c.input + r.bytes) == (c.consumed + c.input) + r.bytes;
    }
    var m := Min(n, |c.input|);
    assert c.input[..m] + c.input[m..] == c.input;
    assert (c.consumed + c.input[..m]) + c.input[m..] == c.consumed + c.input;
  }

  lemma StepInv(cfg: Config, c: Conn, e: Event)
    requires Inv(c) && Enabled(c, e)
    ensures Inv(Step(cfg, c, e))
  {
    match e
    case SendCall(data, k) => SendInv(cfg, c, data, k);
    case Writable(k) => HandleWriteInv(cfg, c, k);
    case Readable(r) => ReadAndConsumeInv(c, r, 0);
    case ConsumeInput(n) => ReadAndConsumeInv(c, ReadFailed, n);
    case _ =>
  }

  /** Every run keeps the invariant, from a fresh connection in particular. */
  lemma {:induction false} RunInv(cfg: Config, c: Conn, es: seq<Event>)
    requires Inv(c) && Legal(cfg, c, es)
    ensures Inv(Run(cfg, c, es))
    decreases |es|
  {
    if es != [] {
      StepInv(cfg, c, es[0]);
      RunInv(cfg, Step(cfg, c, es[0]), es[1..]);
    }
  }
}
