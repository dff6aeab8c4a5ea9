/** Runs of a connection with calls from other threads, one for each way in which such calls differ from
    calls on the loop thread. */
module OffLoopRuns {
  import opened Kernel
  import opened Connections
  import opened OffLoopCalls

  function Last(ws: seq<World>): World
    requires ws != []
  {
    ws[|ws| - 1]
  }

  lemma Extend(cfg: Config, ws: seq<World>, steps: seq<Step>, step: Step)
    returns (ws': seq<World>, steps': seq<Step>)
    requires IsTrace(cfg, ws, steps) && Possible(Last(ws), step)
    ensures IsTrace(cfg, ws', steps') && Last(ws') == Next(cfg, Last(ws), step)
    ensures steps' == steps + [step] && ws' == ws + [Last(ws')]
  {
    steps', ws' := steps + [step], ws + [Next(cfg, Last(ws), step)];
    forall i | 0 <= i < |steps'| ensures Follows(cfg, ws'[i], steps'[i], ws'[i + 1]) {
      assert i < |steps| ==> Follows(cfg, ws[i], steps[i], ws[i + 1]);
    }
  }

  lemma Opened(cfg: Config) returns (ws: seq<World>, steps: seq<Step>)
    ensures IsTrace(cfg, ws, steps) && steps == [OnLoop(Establish)] && |ws| == 2
    ensures Last(ws) == START.(conn := ConnectEstablished(FRESH))
  {
    ws, steps := Extend(cfg, [START], [], OnLoop(Establish));
  }

  /** The common case: nothing is queued when another thread calls shutdown(), and SHUT_WR is issued once.
      In between the connection is half-closing with nothing to send and no SHUT_WR. */
  lemma PlainShutdown(cfg: Config, k: WriteChoice) returns (ws: seq<World>, steps: seq<Step>)
    ensures IsTrace(cfg, ws, steps)
    ensures steps == [OnLoop(Establish), CallShutdown, SetState, Push(ShutdownFunctor), RunFunctor(k)]
    ensures ws[3].conn.state == Disconnecting && ws[3].conn.output == [] && ws[3].conn.stream.shutWr == 0
    ensures ws[5].conn.stream.shutWr == 1
  {
    hide IsTrace;
    ws, steps := Opened(cfg);
    ws, steps := Extend(cfg, ws, steps, CallShutdown);
    ws, steps := Extend(cfg, ws, steps, SetState);
    ws, steps := Extend(cfg, ws, steps, Push(ShutdownFunctor));
    ws, steps := Extend(cfg, ws, steps, RunFunctor(k));
  }

  /** Another thread calls send() and then shutdown(), up to setting the state. */
  lemma CallBoth(cfg: Config, ws: seq<World>, steps: seq<Step>, data: seq<byte>)
    returns (ws': seq<World>, steps': seq<Step>)
    requires IsTrace(cfg, ws, steps) && Last(ws) == START.(conn := Last(ws).conn) && Last(ws).conn.state == Connected
    ensures IsTrace(cfg, ws', steps') && ws' != [] && steps' == steps + [CallSend(data), CallShutdown, SetState]
    ensures Last(ws').conn == Last(ws).conn.(state := Disconnecting) && Last(ws').queue == []
    ensures Last(ws').owed == multiset{SendFunctor(data), ShutdownFunctor}
  {
    hide IsTrace;
    ws', steps' := Extend(cfg, ws, steps, CallSend(data));
    ws', steps' := Extend(cfg, ws', steps', CallShutdown);
    ws', steps' := Extend(cfg, ws', steps', SetState);
  }

  /** A functor is pushed and then run. */
  lemma PushAndRun(cfg: Config, ws: seq<World>, steps: seq<Step>, f: Functor, k: WriteChoice)
    returns (ws': seq<World>, steps': seq<Step>)
    requires IsTrace(cfg, ws, steps) && f in Last(ws).owed && Last(ws).queue == []
    ensures IsTrace(cfg, ws', steps') && ws' != [] && steps' == steps + [Push(f), RunFunctor(k)]
    ensures var taken := Last(ws).(owed := Last(ws).owed - multiset{f});
            Last(ws') == match f
              case SendFunctor(data) => RunSend(cfg, taken, data, k)
              case ShutdownFunctor => taken.(conn := ShutdownInLoop(taken.conn))
  {
    hide IsTrace, RunSend, ShutdownInLoop;
    ws', steps' := Extend(cfg, ws, steps, Push(f));
    assert Last(ws').queue == [f] && [f][1..] == [];
    ws', steps' := Extend(cfg, ws', steps', RunFunctor(k));
  }

  lemma ByteQueued(cfg: Config, c: Conn, x: byte)
    requires c.output == [] && c.events == READ_EVENT && c.stream == FRESH.stream && c.state != Disconnected && !c.lost
    ensures var d := SendInLoop(cfg, c, [x], WouldBlock);
            && d.output == [x] && d.events == READ_EVENT + WRITE_EVENT && d.state == c.state
            && d.stream == c.stream && d.accepted == c.accepted && !d.lost
  {
  }

  lemma ByteDrained(cfg: Config, c: Conn, x: byte)
    requires c.output == [x] && c.events == READ_EVENT + WRITE_EVENT && c.stream == FRESH.stream
    requires c.state == Disconnecting
    ensures var d := HandleWrite(cfg, c, Accept(1));
            && d.output == [] && d.events == READ_EVENT && d.state == c.state
            && d.stream == Stream([x], false, 1) && d.accepted == c.accepted && d.lost == c.lost
  {
    assert READ_EVENT + WRITE_EVENT - WRITE_EVENT == READ_EVENT;
  }

  lemma ByteGivenUp(cfg: Config, c: Conn, x: byte)
    requires c.output == [] && c.events == READ_EVENT && c.stream.shutWr == 1 && c.state == Disconnecting
    ensures SendInLoop(cfg, c, [x], Accept(1)) == c.(lost := true)
  {
  }

  /** A byte is queued, another thread calls send() and shutdown(), and the byte drains. */
  lemma DrainedFirst(cfg: Config) returns (ws: seq<World>, steps: seq<Step>)
    ensures IsTrace(cfg, ws, steps) && ws != []
    ensures steps == [OnLoop(Establish), OnLoop(SendCall([1], WouldBlock))]
                     + [CallSend([2]), CallShutdown, SetState, OnLoop(Writable(Accept(1)))]
    ensures var c := Last(ws).conn;
            && c.output == [] && c.events == READ_EVENT && c.state == Disconnecting
            && c.stream == Stream([1], false, 1) && c.accepted == [1]
    ensures Last(ws).owed == multiset{SendFunctor([2]), ShutdownFunctor} && Last(ws).queue == []
  {
    hide IsTrace, SendInLoop, HandleWrite;
    ws, steps := Opened(cfg);
    ByteQueued(cfg, Last(ws).conn.(accepted := Last(ws).conn.accepted + [1]), 1);
    ws, steps := Extend(cfg, ws, steps, OnLoop(SendCall([1], WouldBlock)));
    ws, steps := CallBoth(cfg, ws, steps, [2]);
    ByteDrained(cfg, Last(ws).conn, 1);
    ws, steps := Extend(cfg, ws, steps, OnLoop(Writable(Accept(1))));
  }

  /** Another thread sends and shuts down while bytes are queued, and the drain comes first: what it sent
      is given up, and SHUT_WR is issued twice. */
  lemma OvertakenSend(cfg: Config) returns (ws: seq<World>, steps: seq<Step>)
    ensures IsTrace(cfg, ws, steps) && ws != []
    ensures steps == [OnLoop(Establish), OnLoop(SendCall([1], WouldBlock))]
                     + [CallSend([2]), CallShutdown, SetState, OnLoop(Writable(Accept(1)))]
                     + [Push(SendFunctor([2])), RunFunctor(Accept(1)), Push(ShutdownFunctor), RunFunctor(WouldBlock)]
    ensures var c := Last(ws).conn;
            c.lost && c.stream.wire == [1] && c.accepted == [1, 2] && c.stream.shutWr == 2
  {
    hide IsTrace, SendInLoop;
    ws, steps := DrainedFirst(cfg);
    ByteGivenUp(cfg, Last(ws).conn.(accepted := Last(ws).conn.accepted + [2]), 2);
    ws, steps := PushAndRun(cfg, ws, steps, SendFunctor([2]), Accept(1));
    ws, steps := PushAndRun(cfg, ws, steps, ShutdownFunctor, WouldBlock);
  }

  /** The drain may be that of the late send itself: nothing is queued when the state is set, and still
      SHUT_WR is issued twice. */
  lemma OwnDrain(cfg: Config) returns (ws: seq<World>, steps: seq<Step>)
    ensures IsTrace(cfg, ws, steps)
    ensures steps == [OnLoop(Establish), CallSend([1]), CallShutdown, SetState]
                     + [Push(SendFunctor([1])), RunFunctor(WouldBlock), OnLoop(Writable(Accept(1)))]
                     + [Push(ShutdownFunctor), RunFunctor(WouldBlock)]
    ensures ws != [] && var c := Last(ws).conn;
            !c.lost && c.stream.wire == [1] == c.accepted && c.stream.shutWr == 2
  {
    hide IsTrace, SendInLoop, HandleWrite;
    ws, steps := Opened(cfg);
    ws, steps := CallBoth(cfg, ws, steps, [1]);
    ByteQueued(cfg, Last(ws).conn.(accepted := Last(ws).conn.accepted + [1]), 1);
    ws, steps := PushAndRun(cfg, ws, steps, SendFunctor([1]), WouldBlock);
    ByteDrained(cfg, Last(ws).conn, 1);
    ws, steps := Extend(cfg, ws, steps, OnLoop(Writable(Accept(1))));
    ws, steps := PushAndRun(cfg, ws, steps, ShutdownFunctor, WouldBlock);
  }

  /** The race in shutdown(): the peer closes between the check and the set, the state goes from
      kDisconnected back to kDisconnecting, and connectDestroyed finds it there. */
  lemma ShutdownAfterClose(cfg: Config) returns (ws: seq<World>, steps: seq<Step>)
    ensures IsTrace(cfg, ws, steps)
    ensures steps == [OnLoop(Establish), CallShutdown, OnLoop(Readable(Got([]))), SetState, OnLoop(Destroy)]
    ensures ws[3].conn.state == Disconnected && ws[4].conn.state == Disconnecting
    ensures ws[5].conn.state == Disconnecting && ws[5].conn.edges == [Up, Down]
  {
    hide IsTrace;
    ws, steps := Opened(cfg);
    ws, steps := Extend(cfg, ws, steps, CallShutdown);
    ws, steps := Extend(cfg, ws, steps, OnLoop(Readable(Got([]))));
    ws, steps := Extend(cfg, ws, steps, SetState);
    ws, steps := Extend(cfg, ws, steps, OnLoop(Destroy));
  }

  lemma BothSet(cfg: Config) returns (ws: seq<World>, steps: seq<Step>)
    ensures IsTrace(cfg, ws, steps) && ws != []
    ensures steps == [OnLoop(Establish), CallShutdown, CallShutdown, SetState, SetState]
    ensures Last(ws) == World(ConnectEstablished(FRESH).(state := Disconnecting), 0,
                              multiset{ShutdownFunctor, ShutdownFunctor}, [], [])
  {
    hide IsTrace;
    ws, steps := Opened(cfg);
    ws, steps := Extend(cfg, ws, steps, CallShutdown);
    ws, steps := Extend(cfg, ws, steps, CallShutdown);
    ws, steps := Extend(cfg, ws, steps, SetState);
    ws, steps := Extend(cfg, ws, steps, SetState);
  }

  /** Two threads that both see kConnected before either sets the state issue SHUT_WR twice without a
      drain, if nothing is queued. */
  lemma RivalShutdowns(cfg: Config, k: WriteChoice) returns (ws: seq<World>, steps: seq<Step>)
    ensures IsTrace(cfg, ws, steps) && ws != []
    ensures steps == [OnLoop(Establish), CallShutdown, CallShutdown, SetState, SetState]
                     + [Push(ShutdownFunctor), RunFunctor(k), Push(ShutdownFunctor), RunFunctor(k)]
    ensures Last(ws).conn.stream.shutWr == 2
  {
    hide IsTrace;
    ws, steps := BothSet(cfg);
    ws, steps := PushAndRun(cfg, ws, steps, ShutdownFunctor, k);
    ws, steps := PushAndRun(cfg, ws, steps, ShutdownFunctor, k);
  }

  /** One thread past the check is enough if the loop thread calls shutdown() as well. */
  lemma RivalOnLoop(cfg: Config, k: WriteChoice) returns (ws: seq<World>, steps: seq<Step>)
    ensures IsTrace(cfg, ws, steps) && ws != []
    ensures steps == [OnLoop(Establish), CallShutdown, OnLoop(ShutdownCall), SetState]
                     + [Push(ShutdownFunctor), RunFunctor(k)]
    ensures Last(ws).conn.stream.shutWr == 2
  {
    hide IsTrace;
    ws, steps := Opened(cfg);
    ws, steps := Extend(cfg, ws, steps, CallShutdown);
    ws, steps := Extend(cfg, ws, steps, OnLoop(ShutdownCall));
    ws, steps := Extend(cfg, ws, steps, SetState);
    ws, steps := PushAndRun(cfg, ws, steps, ShutdownFunctor, k);
  }

  /** A byte is queued, and two threads pass the check and set the state. */
  lemma TwoPastTheCheck(cfg: Config) returns (ws: seq<World>, steps: seq<Step>)
    ensures IsTrace(cfg, ws, steps) && ws != []
    ensures steps == [OnLoop(Establish), OnLoop(SendCall([1], WouldBlock))]
                     + [CallShutdown, CallShutdown, SetState, SetState]
    ensures var w := Last(ws);
            && w.conn.output == [1] && w.conn.events == READ_EVENT + WRITE_EVENT
            && w.conn.state == Disconnecting && w.conn.stream == FRESH.stream
            && w.owed == multiset{ShutdownFunctor, ShutdownFunctor} && w.queue == []
  {
    hide IsTrace, SendInLoop;
    ws, steps := Opened(cfg);
    ByteQueued(cfg, Last(ws).conn.(accepted := Last(ws).conn.accepted + [1]), 1);
    ws, steps := Extend(cfg, ws, steps, OnLoop(SendCall([1], WouldBlock)));
    ws, steps := Extend(cfg, ws, steps, CallShutdown);
    ws, steps := Extend(cfg, ws, steps, CallShutdown);
    ws, steps := Extend(cfg, ws, steps, SetState);
    ws, steps := Extend(cfg, ws, steps, SetState);
  }

  /** Two threads past the check are not enough if both functors run before the drain. */
  lemma RivalsBeforeDrain(cfg: Config, k: WriteChoice) returns (ws: seq<World>, steps: seq<Step>)
    ensures IsTrace(cfg, ws, steps) && ws != []
    ensures steps == [OnLoop(Establish), OnLoop(SendCall([1], WouldBlock))]
                     + [CallShutdown, CallShutdown, SetState, SetState]
                     + [Push(ShutdownFunctor), RunFunctor(k), Push(ShutdownFunctor), RunFunctor(k)]
                     + [OnLoop(Writable(Accept(1)))]
    ensures Last(ws).conn.stream.shutWr == 1
  {
    hide IsTrace, HandleWrite;
    ws, steps := TwoPastTheCheck(cfg);
    var c := Last(ws).conn;
    assert ShutdownInLoop(c) == c;
    ws, steps := PushAndRun(cfg, ws, steps, ShutdownFunctor, k);
    ws, steps := PushAndRun(cfg, ws, steps, ShutdownFunctor, k);
    ByteDrained(cfg, c, 1);
    ws, steps := Extend(cfg, ws, steps, OnLoop(Writable(Accept(1))));
  }

  /** The peer closes before a queued send runs: its byte is dropped, without a race, a reset or SHUT_WR. */
  lemma SendAfterClose(cfg: Config, x: byte) returns (ws: seq<World>, steps: seq<Step>)
    ensures IsTrace(cfg, ws, steps) && ws != []
    ensures steps == [OnLoop(Establish), CallSend([x]), OnLoop(Readable(Got([])))]
                     + [Push(SendFunctor([x])), RunFunctor(Accept(1))]
    ensures var w := Last(ws);
            && w.dropped == [x] && w.conn.stream == FRESH.stream && w.conn.output == []
            && w.queue == [] && w.owed == multiset{} && !w.conn.lost
  {
    hide IsTrace, SendInLoop;
    ws, steps := Opened(cfg);
    ws, steps := Extend(cfg, ws, steps, CallSend([x]));
    ws, steps := Extend(cfg, ws, steps, OnLoop(Readable(Got([]))));
    ws, steps := PushAndRun(cfg, ws, steps, SendFunctor([x]), Accept(1));
  }

  /** Another thread calls send() and passes the check of shutdown(), the peer closes, and the state is set
      back. */
  lemma SetBack(cfg: Config, data: seq<byte>) returns (ws: seq<World>, steps: seq<Step>)
    ensures IsTrace(cfg, ws, steps) && ws != []
    ensures steps == [OnLoop(Establish), CallSend(data), CallShutdown, OnLoop(Readable(Got([]))), SetState]
    ensures var c := HandleClose(ConnectEstablished(FRESH));
            Last(ws) == World(c.(state := Disconnecting), 0, multiset{SendFunctor(data), ShutdownFunctor}, [], [])
  {
    hide IsTrace;
    ws, steps := Opened(cfg);
    ws, steps := Extend(cfg, ws, steps, CallSend(data));
    ws, steps := Extend(cfg, ws, steps, CallShutdown);
    ws, steps := Extend(cfg, ws, steps, OnLoop(Readable(Got([]))));
    ws, steps := Extend(cfg, ws, steps, SetState);
  }

  /** The worst of the race: a send that runs when the state has been set back registers the closed channel
      again, and handleClose runs a second time. */
  lemma ClosedTwice(cfg: Config) returns (ws: seq<World>, steps: seq<Step>)
    ensures IsTrace(cfg, ws, steps) && ws != []
    ensures steps == [OnLoop(Establish), CallSend([1]), CallShutdown, OnLoop(Readable(Got([]))), SetState]
                     + [Push(SendFunctor([1])), RunFunctor(WouldBlock)] + [OnLoop(HangUp)]
    ensures ws[|ws| - 2].conn.events == WRITE_EVENT
    ensures Last(ws).conn.closes == 2 && Last(ws).conn.edges == [Up, Down, Down]
  {
    hide IsTrace, SendInLoop;
    ws, steps := SetBack(cfg, [1]);
    SentWhenSetBack(cfg, Last(ws).conn.(accepted := Last(ws).conn.accepted + [1]));
    ws, steps := PushAndRun(cfg, ws, steps, SendFunctor([1]), WouldBlock);
    assert Out in Last(ws).conn.events;
    ws, steps := Extend(cfg, ws, steps, OnLoop(HangUp));
  }

  lemma SentWhenSetBack(cfg: Config, c: Conn)
    requires c.state == Disconnecting && c.events == NONE_EVENT && c.output == [] && c.stream == FRESH.stream
    ensures var d := SendInLoop(cfg, c, [1], WouldBlock);
            d.events == WRITE_EVENT && d.closes == c.closes && d.edges == c.edges
  {
  }

  /** Another thread calls send() twice and passes the check of shutdown(), and the peer closes. */
  lemma TwoSendsThenClose(cfg: Config) returns (ws: seq<World>, steps: seq<Step>)
    ensures IsTrace(cfg, ws, steps) && ws != []
    ensures steps == [OnLoop(Establish), CallSend([1]), CallSend([2]), CallShutdown, OnLoop(Readable(Got([])))]
    ensures Last(ws) == World(HandleClose(ConnectEstablished(FRESH)), 1,
                              multiset{SendFunctor([1]), SendFunctor([2])}, [], [])
  {
    hide IsTrace;
    ws, steps := Opened(cfg);
    ws, steps := Extend(cfg, ws, steps, CallSend([1]));
    ws, steps := Extend(cfg, ws, steps, CallSend([2]));
    ws, steps := Extend(cfg, ws, steps, CallShutdown);
    ws, steps := Extend(cfg, ws, steps, OnLoop(Readable(Got([]))));
  }

  /** Of two sends, the first is dropped after the close and the second goes out when the state has been
      set back: with the race the wire need not be a prefix of what was handed over. */
  lemma GapInStream(cfg: Config) returns (ws: seq<World>, steps: seq<Step>)
    ensures IsTrace(cfg, ws, steps) && ws != []
    ensures steps == [OnLoop(Establish), CallSend([1]), CallSend([2]), CallShutdown, OnLoop(Readable(Got([])))]
                     + [Push(SendFunctor([1])), RunFunctor(Accept(1)), SetState]
                     + [Push(SendFunctor([2])), RunFunctor(Accept(1))]
    ensures Last(ws).dropped == [1] && Last(ws).conn.stream.wire == [2]
  {
    hide IsTrace, SendInLoop;
    ws, steps := TwoSendsThenClose(cfg);
    ws, steps := PushAndRun(cfg, ws, steps, SendFunctor([1]), Accept(1));
    ws, steps := Extend(cfg, ws, steps, SetState);
    ByteWritten(cfg, Last(ws).conn.(accepted := Last(ws).conn.accepted + [2]), 2);
    ws, steps := PushAndRun(cfg, ws, steps, SendFunctor([2]), Accept(1));
  }

  lemma ByteWritten(cfg: Config, c: Conn, x: byte)
    requires c.output == [] && c.events == NONE_EVENT && c.stream == FRESH.stream && c.state != Disconnected
    ensures SendInLoop(cfg, c, [x], Accept(1)).stream.wire == [x]
  {
  }
}
