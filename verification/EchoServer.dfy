/** example/testserver.cpp on the whole server: every connection of every run echoes. */
module EchoServers {
  import opened Kernel
  import opened TcpServers
  import opened ServerConnections
  import TcpServerRuns
  import TcpServerInvariant
  import Connections
  import ConnectionRuns
  import ConnNames
  import ServerCallbacks
  import Registration

  /** EchoServer::onMessage when `data` is readable: it is all taken and sent back. */
  function OnMessage(data: seq<byte>, k: WriteChoice): seq<Event> {
    [Connections.ConsumeInput(|data|), Connections.SendCall(data, k)]
  }

  /** The application makes no calls but those of onMessage, when bytes arrive. */
  ghost predicate Echoes(w: World, a: Action)
    requires CanDo(w, a)
  {
    match a
    case Plain(_) => true
    case Dispatch(l, _, r, app) =>
      var c := w.server.loops[l].active[0].c;
      c in w.conns && r.Got? && r.bytes != [] ==> exists k :: app == OnMessage(w.conns[c].input + r.bytes, k)
    case Handler(_) => true
    case AppCall(_, _, _) => false
  }

  // ----- one connection -----------------------------------------------------------------------------------

  predicate NeverShutDown(c: Conn) {
    c.state != Connections.Disconnecting && c.stream.shutWr == 0
  }

  /** Everything received has been sent back. */
  predicate AllEchoed(c: Conn) {
    NeverShutDown(c) && c.input == [] && c.accepted == c.received
  }

  /** `data` has been received and is still to be sent back. */
  predicate ToSend(c: Conn, data: seq<byte>) {
    NeverShutDown(c) && c.accepted + data == c.received
  }

  /** What is left of a dispatch when its read is over. */
  predicate AtMostHangUp(work: seq<Event>) {
    work == [] || work == [Connections.HangUp]
  }

  /** What is left when `data` has been taken. */
  predicate Sends(work: seq<Event>, data: seq<byte>) {
    work != [] && work[0].SendCall? && work[0].data == data && AtMostHangUp(work[1..])
  }

  /** What is left when `data` has been read. */
  predicate TakesAndSends(work: seq<Event>, data: seq<byte>) {
    work != [] && work[0] == Connections.ConsumeInput(|data|) && Sends(work[1..], data)
  }

  /** What is left before the read. */
  predicate ReadsNext(work: seq<Event>) {
    || AtMostHangUp(work)
    || (work[0].Readable? &&
        if work[0].r.Got? && work[0].r.bytes != [] then TakesAndSends(work[1..], work[0].r.bytes)
        else AtMostHangUp(work[1..]))
  }

  /** The connection and what is left of its dispatch fit together. */
  predicate Fits(c: Conn, work: seq<Event>) {
    if work != [] && work[0].ConsumeInput? then TakesAndSends(work, c.input) && ToSend(c, c.input)
    else if work != [] && work[0].SendCall? then Sends(work, work[0].data) && c.input == [] && ToSend(c, work[0].data)
    else if work != [] && work[0].Writable? then ReadsNext(work[1..]) && AllEchoed(c)
    else ReadsNext(work) && AllEchoed(c)
  }

  lemma FitsStep(cfg: Connections.Config, c: Conn, work: seq<Event>)
    requires Fits(c, work) && work != [] && Connections.Active(c)
    ensures Fits(Connections.Step(cfg, c, work[0]), work[1..])
  {
    hide Connections.SendInLoop, Connections.HandleWrite;
    match work[0]
    case SendCall(data, k) =>
      SendEchoes(cfg, c.(accepted := c.accepted + data), data, k);
    case Writable(k) => WriteEchoes(cfg, c, k);
    case ConsumeInput(n) =>
      assert c.input[..|c.input|] == c.input && c.input[|c.input|..] == [];
    case _ =>
  }

  lemma SendEchoes(cfg: Connections.Config, c: Conn, data: seq<byte>, k: WriteChoice)
    ensures var d := Connections.SendInLoop(cfg, c, data, k);
            && d.state == c.state && d.input == c.input && d.accepted == c.accepted && d.received == c.received
            && d.stream.shutWr == c.stream.shutWr
  {
  }

  lemma WriteEchoes(cfg: Connections.Config, c: Conn, k: WriteChoice)
    ensures var d := Connections.HandleWrite(cfg, c, k);
            && d.state == c.state && d.input == c.input && d.accepted == c.accepted && d.received == c.received
            && (c.state != Connections.Disconnecting ==> d.stream.shutWr == c.stream.shutWr)
  {
  }

  /** A dispatch of the echo server fits a connection that has echoed everything. */
  lemma DispatchFits(c: Conn, revents: Mask, k: WriteChoice, r: ReadResult, app: seq<Event>)
    requires AllEchoed(c)
    requires r.Got? && r.bytes != [] ==> exists kw :: app == OnMessage(c.input + r.bytes, kw)
    ensures Fits(c, ConnectionRuns.DispatchEvents(revents, k, r, app))
  {
    var readPart := ConnectionRuns.ReadEvents(revents, r, app);
    var hangUp: seq<Event> := if Hup in revents && In !in revents then [Connections.HangUp] else [];
    assert AtMostHangUp(hangUp);
    assert ReadsNext(readPart + hangUp) by {
      if readPart != [] && r.Got? && r.bytes != [] {
        var kw :| app == OnMessage(c.input + r.bytes, kw);
        assert c.input + r.bytes == r.bytes;
        assert readPart + hangUp == [Connections.Readable(r)] + (app + hangUp);
        assert (app + hangUp)[1..] == [Connections.SendCall(r.bytes, kw)] + hangUp;
      } else if readPart != [] {
        assert readPart + hangUp == [Connections.Readable(r)] + hangUp;
      } else {
        assert readPart + hangUp == hangUp;
      }
    }
    var work := ConnectionRuns.DispatchEvents(revents, k, r, app);
    if Out in revents {
      assert work == [Connections.Writable(k)] + (readPart + hangUp);
    } else {
      assert work == readPart + hangUp;
    }
  }

  lemma LifeFits(cfg: Connections.Config, c: Conn, e: Event, work: seq<Event>)
    requires Fits(c, work) && (e.Establish? || e.Destroy?)
    ensures Fits(Connections.Step(cfg, c, e), work)
  {
  }

  // ----- the whole server ---------------------------------------------------------------------------------

  /** What is left of the dispatch of connection `c`. */
  function Pending(w: World, c: Id): seq<Event> {
    if c in w.server.conns && w.server.conns[c].loop < |w.server.loops|
       && w.server.conns[c].loop < |w.work|
       && w.server.loops[w.server.conns[c].loop].frame.Handling?
       && w.server.loops[w.server.conns[c].loop].frame.c == c
    then w.work[w.server.conns[c].loop] else []
  }

  ghost predicate AllFit(w: World) {
    forall c :: c in w.server.conns ==> c in w.conns && Fits(w.conns[c], Pending(w, c))
  }

  /** A connection with something left to do is live. */
  lemma PendingIsLive(cfg: Connections.Config, w: World, c: Id)
    requires Together(cfg, w) && Pending(w, c) != []
    ensures c in w.server.conns && TcpServerInvariant.LiveOn(w.server.conns, c, w.server.conns[c].loop)
  {
    hide TcpServerRuns.Reachable, ConnOk;
    var l := w.server.conns[c].loop;
    assert WorkOk(w.server.conns, l, w.server.loops[l].frame, w.work[l]);
  }

  lemma PlainFits(cfg: Connections.Config, w: World, step: Step)
    requires Together(cfg, w) && AllFit(w) && CanDo(w, Plain(step)) && !step.Accept? && !step.RunToken?
    ensures AllFit(Do(cfg, w, Plain(step)))
  {
    hide TcpServerRuns.Reachable, Joined, Fits, Next, Enabled;
    var w' := Do(cfg, w, Plain(step));
    PlainSame(w.server, step);
    forall c | c in w'.server.conns ensures c in w'.conns && Fits(w'.conns[c], Pending(w', c)) {
      assert Pending(w', c) == Pending(w, c);
    }
  }

  lemma FunctorFits(cfg: Connections.Config, w: World, l: nat)
    requires Together(cfg, w) && AllFit(w) && CanDo(w, Plain(RunToken(l)))
    requires Together(cfg, Do(cfg, w, Plain(RunToken(l))))
    ensures AllFit(Do(cfg, w, Plain(RunToken(l))))
  {
    hide TcpServerRuns.Reachable, Joined, Fits, Execute, Connections.Step;
    var w', t := Do(cfg, w, Plain(RunToken(l))), w.server.loops[l].todo[0];
    var s1 := WithLoop(w.server, l, Popped(w.server.loops[l]));
    ExecuteFrames(s1, t);
    forall c | c in w'.server.conns ensures c in w'.conns && Fits(w'.conns[c], Pending(w', c)) {
      assert Pending(w', c) == Pending(w, c);
      if c == t.c {
        LifeFits(cfg, w.conns[c], Connections.Establish, Pending(w, c));
        LifeFits(cfg, w.conns[c], Connections.Destroy, Pending(w, c));
      }
    }
  }

  /** Functors neither begin nor end a dispatch, nor move a connection. */
  lemma ExecuteFrames(s: Server, t: Token)
    ensures var s' := Execute(s, t);
            && |s'.loops| == |s.loops| && (forall c :: c in s'.conns <==> c in s.conns)
            && (forall c :: c in s.conns ==> s'.conns[c].loop == s.conns[c].loop)
            && forall m :: 0 <= m < |s.loops| ==> s'.loops[m].frame == s.loops[m].frame
  {
    hide Registration.SetEvents, Registration.RemoveChannel;
  }

  lemma NewFrames(s: Server, fd: int)
    requires |s.loops| > 0
    ensures var s' := NewConnection(s, fd);
            && |s'.loops| == |s.loops| && (forall c :: c in s'.conns <==> c in s.conns || c == s.nextId)
            && (forall c :: c in s.conns && c != s.nextId ==> s'.conns[c].loop == s.conns[c].loop)
            && forall m :: 0 <= m < |s.loops| ==> s'.loops[m].frame == s.loops[m].frame
  {
    hide Registration.SetEvents;
  }

  lemma AcceptFits(cfg: Connections.Config, w: World, fd: int)
    requires Together(cfg, w) && AllFit(w) && CanDo(w, Plain(Step.Accept(fd)))
    requires Together(cfg, Do(cfg, w, Plain(Step.Accept(fd))))
    ensures AllFit(Do(cfg, w, Plain(Step.Accept(fd))))
  {
    hide TcpServerRuns.Reachable, Joined, Fits, NewConnection, Connections.Step, TcpServerInvariant.Inv, Alive;
    var s, w' := w.server, Do(cfg, w, Plain(Step.Accept(fd)));
    NewFrames(Accepting(s), fd);
    TcpServerRuns.ReachableInv(s);
    AcceptingSame(s);
    NewFits(cfg);
    forall c | c in w'.server.conns ensures c in w'.conns && Fits(w'.conns[c], Pending(w', c)) {
      if c == s.nextId {
        NothingPendingFor(cfg, w, w', c);
      } else {
        assert Pending(w', c) == Pending(w, c);
      }
    }
  }

  lemma NewFits(cfg: Connections.Config)
    ensures Fits(Connections.FRESH, [])
    ensures Fits(Connections.Step(cfg, Connections.FRESH, Connections.Establish), [])
  {
  }

  /** A dispatch is of a connection that existed before. */
  lemma NothingPendingFor(cfg: Connections.Config, w: World, w': World, c: Id)
    requires Together(cfg, w) && c !in w.server.conns && w'.work == w.work
    requires |w'.server.loops| == |w.server.loops|
    requires forall m :: 0 <= m < |w.server.loops| ==> w'.server.loops[m].frame == w.server.loops[m].frame
    ensures Pending(w', c) == []
  {
    hide TcpServerRuns.Reachable, ConnOk;
    forall l | 0 <= l < |w.work| && w.server.loops[l].frame.Handling? && w.server.loops[l].frame.c == c
      ensures w.work[l] == []
    {
      assert WorkOk(w.server.conns, l, w.server.loops[l].frame, w.work[l]);
    }
  }

  lemma DispatchesFit(cfg: Connections.Config, w: World, a: Action)
    requires Together(cfg, w) && AllFit(w) && a.Dispatch? && CanDo(w, a) && Echoes(w, a)
    ensures AllFit(Do(cfg, w, a))
  {
    hide TcpServerRuns.Reachable, Joined, Fits, Next, Enabled, Alive, ConnectionRuns.DispatchEvents;
    hide TcpServerInvariant.Inv;
    var s, w', eof := w.server, Do(cfg, w, a), a.r == Got([]);
    TcpServerRuns.ReachableInv(s);
    AboutToHandle(s, a.l, eof);
    HandleSame(s, a.l, eof);
    var c := s.loops[a.l].active[0].c;
    assert Pending(w, c) == [];
    EchoedWhenIdle(w.conns[c]);
    DispatchFits(w.conns[c], s.loops[a.l].active[0].revents, a.k, a.r, a.app);
    forall d | d in w'.server.conns ensures d in w'.conns && Fits(w'.conns[d], Pending(w', d)) {
      assert d != c ==> Pending(w', d) == Pending(w, d);
    }
  }

  lemma EchoedWhenIdle(c: Conn)
    ensures Fits(c, []) <==> AllEchoed(c)
  {
  }

  lemma HandlersFit(cfg: Connections.Config, w: World, l: nat)
    requires Together(cfg, w) && AllFit(w) && CanDo(w, Handler(l))
    requires Together(cfg, Do(cfg, w, Handler(l)))
    ensures AllFit(Do(cfg, w, Handler(l)))
  {
    hide TcpServerRuns.Reachable, Joined, Fits, ConnOk, Mirror, CloseIn, Connections.Step;
    var c, w' := w.server.loops[l].frame.c, Do(cfg, w, Handler(l));
    HandlerIsLive(cfg, w, l);
    assert Pending(w, c) == w.work[l];
    FitsStep(cfg, w.conns[c], w.work[l]);
    HandlerFrames(cfg, w, l);
    forall d | d in w'.server.conns ensures d in w'.conns && Fits(w'.conns[d], Pending(w', d)) {
      if d != c {
        assert Pending(w', d) == Pending(w, d);
      } else {
        assert Pending(w', c) == w.work[l][1..];
      }
    }
  }

  /** A handler neither ends its dispatch nor touches another, nor moves a connection. */
  lemma HandlerFrames(cfg: Connections.Config, w: World, l: nat)
    requires Together(cfg, w) && CanDo(w, Handler(l))
    ensures var s, s', c := w.server, Do(cfg, w, Handler(l)).server, w.server.loops[l].frame.c;
            && c in w.events && |s'.loops| == |s.loops| && (forall d :: d in s'.conns <==> d in s.conns)
            && (forall d :: d in s.conns ==> s'.conns[d].loop == s.conns[d].loop)
            && (forall m :: 0 <= m < |s.loops| && m != l ==> s'.loops[m].frame == s.loops[m].frame)
            && s'.loops[l].frame.Handling? && s'.loops[l].frame.c == c
  {
    hide TcpServerRuns.Reachable, Joined, Mirror, CloseIn, Connections.Step, ConnOk;
    var s, c, e := w.server, w.server.loops[l].frame.c, w.work[l][0];
    HandlerIsLive(cfg, w, l);
    HasHistory(cfg, w, c);
    ConnIsKnown(cfg, w, c);
    if Closes(e) {
      CloseSame(s, l);
      ServerCallbacks.CloseIsFixed(s, l);
    } else {
      ServerCallbacks.QueuedGrows(cfg, w.conns[c], e);
      ServerCallbacks.MirrorKeepsLoops(s, c, w.conns[c], Connections.Step(cfg, w.conns[c], e));
      MirrorFrames(s, c, w.conns[c], Connections.Step(cfg, w.conns[c], e));
    }
  }

  lemma HasHistory(cfg: Connections.Config, w: World, c: Id)
    requires ConnOk(cfg, w, c)
    ensures c in w.events
  {
  }

  lemma MirrorFrames(s: Server, c: Id, before: Conn, after: Conn)
    requires Known(s, c)
    ensures var s' := Mirror(s, c, before, after);
            |s'.loops| == |s.loops| && forall m :: 0 <= m < |s.loops| ==> s'.loops[m].frame == s.loops[m].frame
  {
    hide Registration.SetEvents;
    var s1 := if after.state != before.state then WithConn(s, c, s.conns[c].(state := after.state)) else s;
    var s2 := if after.events != before.events then ChangeMask(s1, c, after.events) else s1;
    if Known(s2, c) {
      PushCallsFrames(s2, s2.conns[c].loop, c, |before.queued|, |after.queued|);
    }
  }

  lemma {:induction false} PushCallsFrames(s: Server, l: nat, c: Id, n: nat, end: nat)
    requires l < |s.loops|
    ensures var s' := PushCalls(s, l, c, n, end);
            |s'.loops| == |s.loops| && forall m :: 0 <= m < |s.loops| ==> s'.loops[m].frame == s.loops[m].frame
    decreases end - n
  {
    if n < end {
      PushCallsFrames(Push(s, l, UserCall(c, n)), l, c, n + 1, end);
    }
  }

  lemma DoFits(cfg: Connections.Config, w: World, a: Action)
    requires Together(cfg, w) && AllFit(w) && CanDo(w, a) && Echoes(w, a)
    ensures Together(cfg, Do(cfg, w, a)) && AllFit(Do(cfg, w, a))
  {
    hide Together, AllFit;
    DoTogether(cfg, w, a);
    match a {
      case Plain(step) =>
        if step.Accept? {
          AcceptFits(cfg, w, step.fd);
        } else if step.RunToken? {
          FunctorFits(cfg, w, step.l);
        } else {
          PlainFits(cfg, w, step);
        }
      case Dispatch(_, _, _, _) => DispatchesFit(cfg, w, a);
      case Handler(l) => HandlersFit(cfg, w, l);
    }
  }

  ghost predicate AllEcho(cfg: Connections.Config, w: World, actions: seq<Action>)
    decreases |actions|
  {
    actions != [] ==>
      CanDo(w, actions[0]) && Echoes(w, actions[0]) && AllEcho(cfg, Do(cfg, w, actions[0]), actions[1..])
  }

  lemma {:induction false} RunFits(cfg: Connections.Config, w: World, actions: seq<Action>)
    requires Together(cfg, w) && AllFit(w) && AllEcho(cfg, w, actions) && AllCanBeDone(cfg, w, actions)
    ensures Together(cfg, DoAll(cfg, w, actions)) && AllFit(DoAll(cfg, w, actions))
    decreases |actions|
  {
    hide Together, AllFit, Echoes;
    if actions != [] {
      DoFits(cfg, w, actions[0]);
      RunFits(cfg, Do(cfg, w, actions[0]), actions[1..]);
    }
  }

  /** What a connection that fits has sent back, given the invariant of its run. */
  lemma FittingEchoes(c: Conn, work: seq<Event>)
    requires Connections.Inv(c) && Fits(c, work)
    ensures c.stream.shutWr == 0 && c.stream.wire <= c.received
    ensures !c.lost ==> c.stream.wire + c.output <= c.received
    ensures work == [] && !c.lost ==> c.stream.wire + c.output == c.received
  {
  }

  /** End to end, on the whole server: in every run of the echo server, with any number of loops and
      connections, the wire of every connection is a prefix of what readv() returned on it; and outside
      its dispatches wire and output buffer are exactly that, unless a reset made it give bytes up. */
  lemma EveryConnectionEchoes(cfg: Connections.Config, name: string, address: ConnNames.Address, subLoops: nat,
                              actions: seq<Action>, c: Id)
    requires ConnNames.ValidAddress(address) && AllEcho(cfg, StartedWorld(name, address, subLoops), actions)
    requires AllCanBeDone(cfg, StartedWorld(name, address, subLoops), actions)
    requires c in DoAll(cfg, StartedWorld(name, address, subLoops), actions).server.conns
    ensures var w := DoAll(cfg, StartedWorld(name, address, subLoops), actions);
            && c in w.conns && c in w.events
            && var conn, heard := w.conns[c], ConnectionRuns.BytesRead(w.events[c]);
               && conn.stream.wire <= heard && conn.stream.shutWr == 0
               && (Pending(w, c) == [] && !conn.lost ==> conn.stream.wire + conn.output == heard)
               && (conn.lost ==> conn.stream.broken)
  {
    hide Together, AllFit, Fits, AllEcho, AllCanBeDone, DoAll;
    var w0 := StartedWorld(name, address, subLoops);
    StartedTogether(cfg, name, address, subLoops);
    StartedFits(name, address, subLoops);
    RunFits(cfg, w0, actions);
    EchoesNow(cfg, DoAll(cfg, w0, actions), c);
  }

  lemma StartedFits(name: string, address: ConnNames.Address, subLoops: nat)
    ensures AllFit(StartedWorld(name, address, subLoops))
  {
  }

  lemma EchoesNow(cfg: Connections.Config, w: World, c: Id)
    requires Together(cfg, w) && AllFit(w) && c in w.server.conns
    ensures c in w.conns && c in w.events
    ensures var conn, heard := w.conns[c], ConnectionRuns.BytesRead(w.events[c]);
            && conn.stream.wire <= heard && conn.stream.shutWr == 0
            && (Pending(w, c) == [] && !conn.lost ==> conn.stream.wire + conn.output == heard)
            && (conn.lost ==> conn.stream.broken)
  {
    hide TcpServerRuns.Reachable, Fits, Connections.Inv;
    assert ConnOk(cfg, w, c);
    HistoryInv(cfg, w.conns[c], w.events[c]);
    ConnectionRuns.ReceivedIsRead(cfg, Connections.FRESH, w.events[c]);
    FittingEchoes(w.conns[c], Pending(w, c));
    LostIsBroken(w.conns[c]);
    assert [] + ConnectionRuns.BytesRead(w.events[c]) == ConnectionRuns.BytesRead(w.events[c]);
  }

  lemma LostIsBroken(c: Conn)
    requires Connections.Inv(c)
    ensures c.lost ==> c.stream.broken
  {
  }
}
