/** What each event does to a connection in order, told from what the kernel did, and what that comes to
    over runs: a backlog reaches the wire as fast as the socket takes it, and a shutdown() is remembered
    until everything is out. */
module ConnectionEffects {
  import opened Kernel
  import opened Connections
  import opened ConnectionRuns

  /** The socket takes bytes: no reset has come and SHUT_WR has not been issued. */
  predicate Open(c: Conn) {
    !c.stream.broken && c.stream.shutWr == 0
  }

  /** The interest of a connection that is up. */
  function Interest(output: seq<byte>): Mask {
    if output == [] then {In, Pri} else {In, Pri, Out}
  }

  /** State, reports, input and history of sends are as they were. */
  predicate SameApartFromOutput(c: Conn, d: Conn) {
    && d.state == c.state && d.edges == c.edges && d.closes == c.closes
    && d.input == c.input && d.received == c.received && d.consumed == c.consumed
  }

  /** A writable event: with bytes queued and the socket open the kernel takes as many of them as it will,
      and the event that takes the last one turns writing off and issues a pending SHUT_WR. */
  lemma WritableWrites(cfg: Config, c: Conn, n: nat)
    requires Inv(c) && Active(c) && c.output != [] && Open(c)
    ensures var d, m := Step(cfg, c, Writable(Accept(n))), if n < |c.output| then n else |c.output|;
            && d.stream.wire == c.stream.wire + c.output[..m] && d.output == c.output[m..]
            && d.stream.shutWr == (if d.output == [] && c.state == Disconnecting then 1 else 0)
            && d.events == Interest(d.output) && !d.stream.broken
            && d.accepted == c.accepted && d.lost == c.lost && SameApartFromOutput(c, d)
  {
    StepInv(cfg, c, Writable(Accept(n)));
    assert {In, Pri} + WRITE_EVENT == {In, Pri, Out} && {In, Pri, Out} - WRITE_EVENT == {In, Pri};
  }

  /** Nothing else changes: not when the kernel refuses, and not when nothing is queued. */
  lemma WritableWaits(cfg: Config, c: Conn, k: WriteChoice)
    requires Inv(c) && (k == WouldBlock || k == OtherError || c.output == [] || !Open(c) || !Active(c))
    ensures Step(cfg, c, Writable(k)) == c
  {
  }

  lemma WritableBreaks(cfg: Config, c: Conn)
    requires Inv(c) && Active(c) && c.output != [] && Open(c)
    ensures Step(cfg, c, Writable(PeerReset)) == c.(stream := c.stream.(broken := true))
  {
  }

  /** send() on the loop thread: behind what is queued, or to the open socket at once and the rest queued. */
  lemma SendWrites(cfg: Config, c: Conn, data: seq<byte>, k: WriteChoice)
    requires Inv(c) && c.state == Connected && (k.Accept? || k == WouldBlock || k == OtherError)
    requires c.output != [] || Open(c)
    ensures var d := Step(cfg, c, SendCall(data, k));
            var m := if c.output != [] || !k.Accept? then 0 else if k.n < |data| then k.n else |data|;
            && d.stream.wire == c.stream.wire + data[..m] && d.output == c.output + data[m..]
            && d.events == Interest(d.output) && d.stream.shutWr == 0 && d.stream.broken == c.stream.broken
            && d.accepted == c.accepted + data && d.lost == c.lost && SameApartFromOutput(c, d)
  {
    StepInv(cfg, c, SendCall(data, k));
    assert {In, Pri} + WRITE_EVENT == {In, Pri, Out};
  }

  /** ... and on a broken socket with nothing queued it gives the bytes up. */
  lemma SendFails(cfg: Config, c: Conn, data: seq<byte>, k: WriteChoice)
    requires Inv(c) && c.state == Connected && c.output == [] && (k == PeerReset || c.stream.broken)
    ensures Step(cfg, c, SendCall(data, k)) ==
      c.(accepted := c.accepted + data, lost := c.lost || data != [], stream := c.stream.(broken := true))
  {
  }

  lemma SendIsRefused(cfg: Config, c: Conn, data: seq<byte>, k: WriteChoice)
    requires c.state != Connected
    ensures Step(cfg, c, SendCall(data, k)) == c
  {
  }

  /** shutdown() on the loop thread closes the connection for sends in every case, and half-closes at once
      if nothing is queued. */
  lemma ShutdownCloses(cfg: Config, c: Conn)
    requires Inv(c)
    ensures Step(cfg, c, ShutdownCall) ==
      if c.state != Connected then c
      else c.(state := Disconnecting, stream := c.stream.(shutWr := if c.output == [] then 1 else 0))
  {
  }

  /** Taking input takes the bytes asked for, or all there are. */
  lemma ConsumeTakes(cfg: Config, c: Conn, n: nat)
    ensures var d, m := Step(cfg, c, ConsumeInput(n)), if n < |c.input| then n else |c.input|;
            d == c.(input := c.input[m..], consumed := c.consumed + c.input[..m])
  {
  }

  /** Reading bytes adds them to the input, reading none closes, and an error does nothing. */
  lemma ReadingAdds(cfg: Config, c: Conn, r: ReadResult)
    ensures var d := Step(cfg, c, Readable(r));
            match r
            case ReadFailed => d == c
            case Got(bytes) =>
              if bytes != [] then d == c.(input := c.input + bytes, received := c.received + bytes)
              else d == c.(state := Disconnected, events := {}, edges := c.edges + [Down], closes := c.closes + 1)
  {
  }

  /** The two ends of the life: UP and reading; and DOWN if that has not been reported, without a close. */
  lemma EstablishOpens(cfg: Config, c: Conn)
    requires Inv(c) && c.state == Connecting
    ensures Step(cfg, c, Establish) == c.(state := Connected, events := {In, Pri}, edges := [Up])
  {
  }

  lemma DestroyShuts(cfg: Config, c: Conn)
    requires Inv(c) && c.state != Connecting
    ensures Step(cfg, c, Destroy) ==
      if c.state == Connected then c.(state := Disconnected, events := {}, edges := [Up, Down]) else c
  {
    assert c.state == Connected ==> c.edges + [Down] == [Up, Down];
  }

  // ----- a backlog reaches the wire -----------------------------------------------------------------------

  /** The room the writable events of a run offer, in bytes. */
  function Room(es: seq<Event>): nat {
    if es == [] then 0
    else (if es[0].Writable? && es[0].k.Accept? then es[0].k.n else 0) + Room(es[1..])
  }

  /** No reset, and nothing that closes or destroys the connection. */
  predicate StaysUp(e: Event) {
    !IsReset(e) && !e.HangUp? && !e.Destroy? && !e.Establish? && e != Readable(Got([]))
  }

  predicate AllStayUp(es: seq<Event>) {
    forall i :: 0 <= i < |es| ==> StaysUp(es[i])
  }

  /** The first `n` bytes of `s`, or all of them. */
  function First(s: seq<byte>, n: nat): seq<byte> {
    if n < |s| then s[..n] else s
  }

  /** One event: what the room it offers takes from the front, and what is queued behind. */
  lemma StepMovesBacklog(cfg: Config, c: Conn, e: Event)
    requires Inv(c) && Active(c) && !c.stream.broken && StaysUp(e)
    ensures var d, m := Step(cfg, c, e), |First(c.output, Room([e]))|;
            && Inv(d) && Active(d) && !d.stream.broken
            && (!e.SendCall? ==> d.stream.wire == c.stream.wire + c.output[..m] && d.output == c.output[m..])
            && (e.SendCall? && c.output != [] ==> d.stream.wire == c.stream.wire && c.output <= d.output)
            && c.stream.wire <= d.stream.wire
  {
    hide SendInLoop, HandleWrite;
    assert Room([e]) == if e.Writable? && e.k.Accept? then e.k.n else 0 by {
      assert [e][1..] == [];
    }
    StillRegistered(c);
    StepInv(cfg, c, e);
    match e {
      case SendCall(data, k) => SendMoves(cfg, c, data, k);
      case Writable(k) => WritableMoves(cfg, c, k);
      case _ =>
    }
  }

  lemma SendMoves(cfg: Config, c: Conn, data: seq<byte>, k: WriteChoice)
    requires Inv(c) && Active(c) && !c.stream.broken && k != PeerReset
    ensures var d := Step(cfg, c, SendCall(data, k));
            && d.state == c.state && !d.stream.broken && c.stream.wire <= d.stream.wire
            && (c.output != [] ==> d.stream.wire == c.stream.wire && c.output <= d.output)
  {
    if c.state == Connected {
      SendWrites(cfg, c, data, k);
    }
  }

  lemma WritableMoves(cfg: Config, c: Conn, k: WriteChoice)
    requires Inv(c) && Active(c) && !c.stream.broken && k != PeerReset
    ensures var d, m := Step(cfg, c, Writable(k)), |First(c.output, if k.Accept? then k.n else 0)|;
            && d.state == c.state && !d.stream.broken
            && d.stream.wire == c.stream.wire + c.output[..m] && d.output == c.output[m..]
  {
    if k.Accept? && c.output != [] {
      WritableWrites(cfg, c, k.n);
    } else {
      WritableWaits(cfg, c, k);
      assert c.stream.wire + [] == c.stream.wire;
    }
  }

  lemma RoomOfOne(e: Event)
    ensures Room([e]) == if e.Writable? && e.k.Accept? then e.k.n else 0
  {
    assert [e][1..] == [];
  }

  lemma SendKeepsFirst(c: Conn, d: Conn, n: nat)
    requires c.stream.wire <= d.stream.wire
    requires c.output != [] ==> d.stream.wire == c.stream.wire && c.output <= d.output
    ensures c.stream.wire + First(c.output, n) <= d.stream.wire + First(d.output, n)
  {
  }

  lemma UpIsEnabled(c: Conn, e: Event)
    requires Inv(c) && Active(c) && StaysUp(e)
    ensures Enabled(c, e)
  {
    StillRegistered(c);
  }

  /** What has reached the wire, with what the room still to come takes of the backlog. */
  function Reach(c: Conn, n: nat): seq<byte> {
    c.stream.wire + First(c.output, n)
  }

  lemma StepReaches(cfg: Config, c: Conn, e: Event, n: nat)
    requires Inv(c) && Active(c) && !c.stream.broken && StaysUp(e)
    ensures Reach(c, Room([e]) + n) <= Reach(Step(cfg, c, e), n)
    ensures !e.SendCall? ==> Reach(c, Room([e]) + n) == Reach(Step(cfg, c, e), n)
  {
    hide Step, Inv, Room;
    var d := Step(cfg, c, e);
    StepMovesBacklog(cfg, c, e);
    RoomOfOne(e);
    if e.SendCall? {
      SendKeepsFirst(c, d, n);
    } else {
      FirstInTwo(c.output, Room([e]), n);
      var m := |First(c.output, Room([e]))|;
      assert c.stream.wire + (c.output[..m] + First(c.output[m..], n)) ==
        (c.stream.wire + c.output[..m]) + First(c.output[m..], n);
    }
  }

  lemma FirstInTwo(s: seq<byte>, m: nat, n: nat)
    ensures var k := |First(s, m)|; k <= |s| && First(s, m + n) == s[..k] + First(s[k..], n)
  {
  }

  lemma RoomSplits(es: seq<Event>)
    requires es != []
    ensures Room(es) == Room([es[0]]) + Room(es[1..])
  {
    assert [es[0]][1..] == [];
  }

  lemma ReachOfNothing(c: Conn)
    ensures Reach(c, 0) == c.stream.wire
  {
  }

  /** Progress: whatever else is sent, read or shut down meanwhile, bytes queued are on the wire once
      writable events have offered room for them, in order and as fast as that. */
  lemma {:induction false} BacklogReachesWire(cfg: Config, c: Conn, es: seq<Event>)
    requires Inv(c) && Active(c) && !c.stream.broken && AllStayUp(es)
    ensures var d := Run(cfg, c, es);
            && Legal(cfg, c, es) && Inv(d) && Active(d) && !d.stream.broken
            && c.stream.wire + First(c.output, Room(es)) <= d.stream.wire
    decreases |es|
  {
    hide Step, Inv, Enabled, Room, First;
    if es == [] {
      assert Room(es) == 0 by { RoomOfNone(); }
      ReachOfNothing(c);
    } else {
      StepMovesBacklog(cfg, c, es[0]);
      UpIsEnabled(c, es[0]);
      BacklogReachesWire(cfg, Step(cfg, c, es[0]), es[1..]);
      RoomSplits(es);
      StepReaches(cfg, c, es[0], Room(es[1..]));
    }
  }

  lemma RoomOfNone()
    ensures Room([]) == 0
  {
  }

  /** No send among the events. */
  predicate NothingSent(es: seq<Event>) {
    forall i :: 0 <= i < |es| ==> !es[i].SendCall?
  }

  lemma {:induction false} BacklogMoves(cfg: Config, c: Conn, es: seq<Event>)
    requires Inv(c) && Active(c) && !c.stream.broken && AllStayUp(es) && NothingSent(es)
    ensures Run(cfg, c, es).stream.wire == c.stream.wire + First(c.output, Room(es))
    ensures |Run(cfg, c, es).output| == |c.output| - |First(c.output, Room(es))|
    decreases |es|
  {
    hide Step, Inv, Enabled, Room;
    if es == [] {
      RoomOfNone();
    } else {
      StepMovesBacklog(cfg, c, es[0]);
      BacklogMoves(cfg, Step(cfg, c, es[0]), es[1..]);
      RoomSplits(es);
      StepReaches(cfg, c, es[0], Room(es[1..]));
      FirstInTwo(c.output, Room([es[0]]), Room(es[1..]));
    }
  }

  /** Without further sends the backlog is empty exactly when the room offered is as long as the backlog,
      and then, if the connection was being shut down, SHUT_WR has been issued. */
  lemma BacklogDrains(cfg: Config, c: Conn, es: seq<Event>)
    requires Inv(c) && Active(c) && !c.stream.broken && AllStayUp(es) && NothingSent(es)
    ensures var d := Run(cfg, c, es);
            && Legal(cfg, c, es)
            && d.stream.wire == c.stream.wire + First(c.output, Room(es))
            && (d.output == [] <==> Room(es) >= |c.output|)
            && (d.state == Disconnecting ==> (d.stream.shutWr == 1 <==> Room(es) >= |c.output|))
            && (c.state == Disconnecting ==> d.state == Disconnecting)
  {
    BacklogReachesWire(cfg, c, es);
    BacklogMoves(cfg, c, es);
    LifeCycle(cfg, c, es);
  }

  // ----- a shutdown is remembered -------------------------------------------------------------------------

  /** The output buffer has been empty while the shutdown was under way. */
  ghost predicate HasBeenEmpty(cfg: Config, c: Conn, es: seq<Event>)
    decreases |es|
  {
    || (c.state == Disconnecting && c.output == [])
    || (es != [] && HasBeenEmpty(cfg, Step(cfg, c, es[0]), es[1..]))
  }

  lemma StepOfShutDown(cfg: Config, c: Conn, e: Event)
    requires Inv(c) && (c.state == Disconnecting || c.state == Disconnected) && Enabled(c, e)
    ensures var d := Step(cfg, c, e);
            && (d.state == Disconnecting || d.state == Disconnected) && d.accepted == c.accepted
            && (c.state == Disconnected ==> d.state == Disconnected)
            && (d.stream.shutWr == 1 <==> c.stream.shutWr == 1 || (d.state == Disconnecting && d.output == []))
  {
    StepInv(cfg, c, e);
  }

  /** While a shutdown is under way, SHUT_WR has been issued exactly if the output buffer has been empty
      since, before any close. */
  lemma {:induction false} ShutDownUntilEmpty(cfg: Config, c: Conn, es: seq<Event>)
    requires Inv(c) && (c.state == Disconnecting || c.state == Disconnected) && Legal(cfg, c, es)
    ensures var d := Run(cfg, c, es);
            && (d.state == Disconnecting || d.state == Disconnected) && d.accepted == c.accepted
            && (d.stream.shutWr == 1 <==> c.stream.shutWr == 1 || HasBeenEmpty(cfg, c, es))
    decreases |es|
  {
    if es != [] {
      hide Step, Enabled;
      StepInv(cfg, c, es[0]);
      StepOfShutDown(cfg, c, es[0]);
      ShutDownUntilEmpty(cfg, Step(cfg, c, es[0]), es[1..]);
      EmptyFromHere(cfg, Step(cfg, c, es[0]), es[1..]);
    }
  }

  lemma EmptyFromHere(cfg: Config, c: Conn, es: seq<Event>)
    ensures c.state == Disconnecting && c.output == [] ==> HasBeenEmpty(cfg, c, es)
  {
  }

  /** A shutdown() on a connected connection is never forgotten, whether or not bytes are queued: from then
      on nothing is accepted, and SHUT_WR has been issued exactly if the output buffer has been empty
      since, before any close. */
  lemma ShutdownIsRemembered(cfg: Config, c: Conn, es: seq<Event>)
    requires Inv(c) && c.state == Connected && Legal(cfg, c, [ShutdownCall] + es)
    ensures var s, d := Step(cfg, c, ShutdownCall), Run(cfg, c, [ShutdownCall] + es);
            && (d.state == Disconnecting || d.state == Disconnected) && d.accepted == c.accepted
            && (d.stream.shutWr == 1 <==> HasBeenEmpty(cfg, s, es))
            && s.output == c.output && s.state == Disconnecting
  {
    var s := Step(cfg, c, ShutdownCall);
    RunAppend(cfg, c, [ShutdownCall], es);
    RunOne(cfg, c, ShutdownCall);
    ShutdownCloses(cfg, c);
    StepInv(cfg, c, ShutdownCall);
    ShutDownUntilEmpty(cfg, s, es);
    EmptyFromHere(cfg, s, es);
  }

  // ----- the order of a dispatch --------------------------------------------------------------------------

  lemma StepGrows(cfg: Config, c: Conn, e: Event)
    ensures c.stream.wire <= Step(cfg, c, e).stream.wire
  {
  }

  lemma {:induction false} WireGrows(cfg: Config, c: Conn, es: seq<Event>)
    ensures c.stream.wire <= Run(cfg, c, es).stream.wire
    decreases |es|
  {
    hide Step;
    if es != [] {
      StepGrows(cfg, c, es[0]);
      WireGrows(cfg, Step(cfg, c, es[0]), es[1..]);
    }
  }

  lemma {:induction false} BytesReadAppend(es: seq<Event>, fs: seq<Event>)
    ensures BytesRead(es + fs) == BytesRead(es) + BytesRead(fs)
  {
    if es == [] {
      assert es + fs == fs;
    } else {
      assert (es + fs)[1..] == es[1..] + fs;
      BytesReadAppend(es[1..], fs);
    }
  }

  lemma {:induction false} CallsReadNothing(app: seq<Event>)
    requires AppCalls(app)
    ensures BytesRead(app) == []
  {
    if app != [] {
      assert app[0] in app && AppCalls(app[1..]);
      CallsReadNothing(app[1..]);
    }
  }

  lemma ReadPartReads(revents: Mask, r: ReadResult, app: seq<Event>)
    requires AppCalls(app)
    ensures BytesRead(ReadEvents(revents, r, app)) ==
      if (In in revents || Pri in revents) && r.Got? then r.bytes else []
  {
    var es := ReadEvents(revents, r, app);
    if es != [] {
      CallsReadNothing(app);
      assert es[1..] == app || es[1..] == [];
      assert BytesRead(es) == (if r.Got? then r.bytes else []) + BytesRead(es[1..]);
    }
  }

  lemma DispatchReads(revents: Mask, k: WriteChoice, r: ReadResult, app: seq<Event>)
    requires AppCalls(app)
    ensures BytesRead(DispatchEvents(revents, k, r, app)) ==
      if (In in revents || Pri in revents) && r.Got? then r.bytes else []
  {
    hide ReadEvents;
    var es1: seq<Event> := if Out in revents then [Writable(k)] else [];
    var es3: seq<Event> := if Hup in revents && In !in revents then [HangUp] else [];
    BytesReadAppend(es1, ReadEvents(revents, r, app));
    BytesReadAppend(es1 + ReadEvents(revents, r, app), es3);
    ReadPartReads(revents, r, app);
    assert BytesRead(es1) == [] && BytesRead(es3) == [];
  }

  /** A dispatch writes before it reads, and so before a read can close the connection; it reads once, and
      what it reads is received; a report without readiness does nothing. */
  lemma DispatchInOrder(cfg: Config, c: Conn, revents: Mask, k: WriteChoice, r: ReadResult, app: seq<Event>)
    requires Inv(c) && Active(c) && AppCalls(app)
    ensures var d := Dispatch(cfg, c, revents, k, r, app);
            && (Out in revents ==> Step(cfg, c, Writable(k)).stream.wire <= d.stream.wire)
            && d.received == c.received + (if (In in revents || Pri in revents) && r.Got? then r.bytes else [])
            && (revents <= {Err} ==> d == c)
  {
    var es := DispatchEvents(revents, k, r, app);
    DispatchIsRun(cfg, c, revents, k, r, app);
    DispatchReads(revents, k, r, app);
    ReceivedIsRead(cfg, c, es);
    if Out in revents {
      assert es[0] == Writable(k);
      WireGrows(cfg, Step(cfg, c, es[0]), es[1..]);
    }
  }
}
