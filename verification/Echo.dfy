/** example/testserver.cpp: the echo server over one connection. */
module Echo {
  import opened Kernel
  import opened Connections

  datatype EchoEvent =
    | Up
    | Data(r: ReadResult, k: WriteChoice)  // a read event, and the outcome of the write it may cause
    | Room(k: WriteChoice)
    | Closed
    | Gone

  /** EchoServer::onMessage: everything readable is taken and sent back. */
  function OnMessage(cfg: Config, c: Conn, k: WriteChoice): Conn {
    Send(cfg, Consume(c, |c.input|), c.input, k)
  }

  function EchoStep(cfg: Config, c: Conn, e: EchoEvent): Conn {
    match e
    case Up => ConnectEstablished(c)
    case Data(r, k) =>
      var read := HandleRead(c, r);
      if r.Got? && r.bytes != [] then OnMessage(cfg, read, k) else read
    case Room(k) => HandleWrite(cfg, c, k)
    case Closed => HandleClose(c)
    case Gone => ConnectDestroyed(c)
  }

  predicate EchoEnabled(c: Conn, e: EchoEvent) {
    match e
    case Up => c.state == Connecting
    case Gone => c.state != Connecting
    case _ => c.events != NONE_EVENT
  }

  function EchoRun(cfg: Config, c: Conn, es: seq<EchoEvent>): Conn
    decreases |es|
  {
    if es == [] then c else EchoRun(cfg, EchoStep(cfg, c, es[0]), es[1..])
  }

  ghost predicate EchoLegal(cfg: Config, c: Conn, es: seq<EchoEvent>)
    decreases |es|
  {
    es != [] ==> EchoEnabled(c, es[0]) && EchoLegal(cfg, EchoStep(cfg, c, es[0]), es[1..])
  }

  /** Every byte readv() returned, in order. */
  function Heard(es: seq<EchoEvent>): seq<byte> {
    if es == [] then []
    else (if es[0].Data? && es[0].r.Got? then es[0].r.bytes else []) + Heard(es[1..])
  }

  ghost predicate EchoInv(c: Conn) {
    && Inv(c)
    && c.state != Disconnecting && c.stream.shutWr == 0
    && c.input == [] && c.accepted == c.received
  }

  lemma EchoStepInv(cfg: Config, c: Conn, e: EchoEvent)
    requires EchoInv(c) && EchoEnabled(c, e)
    ensures EchoInv(EchoStep(cfg, c, e))
    ensures EchoStep(cfg, c, e).received == c.received + if e.Data? && e.r.Got? then e.r.bytes else []
  {
    match e
    case Up =>
    case Data(r, k) =>
      var read := HandleRead(c, r);
      ReadAndConsumeInv(c, r, 0);
      if r.Got? && r.bytes != [] {
        ReadAndConsumeInv(read, r, |read.input|);
        SendInv(cfg, Consume(read, |read.input|), read.input, k);
        assert read.input == r.bytes;
      }
    case Room(k) => HandleWriteInv(cfg, c, k);
    case Closed =>
    case Gone =>
  }

  lemma {:induction false} EchoRunInv(cfg: Config, c: Conn, es: seq<EchoEvent>)
    requires EchoInv(c) && EchoLegal(cfg, c, es)
    ensures var d := EchoRun(cfg, c, es);
            EchoInv(d) && d.received == c.received + Heard(es)
    decreases |es|
  {
    if es != [] {
      EchoStepInv(cfg, c, es[0]);
      EchoRunInv(cfg, EchoStep(cfg, c, es[0]), es[1..]);
    }
  }

  /** End to end, in every run: the wire followed by the output buffer is exactly what was heard, unless
      a reset made the connection give bytes up; the wire is a prefix of what was heard in any case;
      nothing lingers in the input buffer, and the server never half-closes. */
  lemma EchoEndToEnd(cfg: Config, es: seq<EchoEvent>)
    requires EchoLegal(cfg, FRESH, es)
    ensures var c := EchoRun(cfg, FRESH, es);
            && (!c.lost ==> c.stream.wire + c.output == Heard(es))
            && c.stream.wire <= Heard(es)
            && (c.lost ==> c.stream.broken)
            && c.input == [] && c.stream.shutWr == 0
  {
    EchoRunInv(cfg, FRESH, es);
  }
}
