/** What a connection promises over whole runs: the output stream, the half-close, the callbacks, the
    life cycle, and the places where calls from other threads or odd event masks break a promise. */
module ConnectionRuns {
  import opened Kernel
  import opened Connections

  // ----- composing runs ---------------------------------------------------------------------------

  lemma {:induction false} RunAppend(cfg: Config, c: Conn, es: seq<Event>, fs: seq<Event>)
    ensures Run(cfg, c, es + fs) == Run(cfg, Run(cfg, c, es), fs)
    ensures Legal(cfg, c, es + fs) <==> Legal(cfg, c, es) && Legal(cfg, Run(cfg, c, es), fs)
    decreases |es|
  {
    if es == [] {
      assert es + fs == fs;
    } else {
      assert (es + fs)[1..] == es[1..] + fs;
      RunAppend(cfg, Step(cfg, c, es[0]), es[1..], fs);
    }
  }

  lemma RunOne(cfg: Config, c: Conn, e: Event)
    ensures Run(cfg, c, [e]) == Step(cfg, c, e)
    ensures Legal(cfg, c, [e]) <==> Enabled(c, e)
  {
    assert [e][1..] == [];
  }

  // ----- output stream ----------------------------------------------------------------------------

  /** The bytes the application handed to send() while the connection was up, in order. */
  ghost function SentWhileConnected(cfg: Config, c: Conn, es: seq<Event>): seq<byte>
    decreases |es|
  {
    if es == [] then []
    else
      (if es[0].SendCall? && c.state == Connected then es[0].data else [])
      + SentWhileConnected(cfg, Step(cfg, c, es[0]), es[1..])
  }

  /** The bytes readv() returned, in order. */
  ghost function BytesRead(es: seq<Event>): seq<byte> {
    if es == [] then []
    else (if es[0].Readable? && es[0].r.Got? then es[0].r.bytes else []) + BytesRead(es[1..])
  }

  predicate IsReset(e: Event) {
    (e.SendCall? || e.Writable?) && e.k == PeerReset
  }

  lemma StepHistory(cfg: Config, c: Conn, e: Event)
    ensures var d := Step(cfg, c, e);
            && d.accepted == c.accepted + (if e.SendCall? && c.state == Connected then e.data else [])
            && d.received == c.received + (if e.Readable? && e.r.Got? then e.r.bytes else [])
            && (d.stream.broken ==> c.stream.broken || IsReset(e))
  {
    if e.Readable? && e.r.Got? && e.r.bytes == [] {
      assert c.received + e.r.bytes == c.received;
    }
  }

  lemma {:induction false} AcceptedIsSent(cfg: Config, c: Conn, es: seq<Event>)
    ensures Run(cfg, c, es).accepted == c.accepted + SentWhileConnected(cfg, c, es)
    decreases |es|
  {
    if es != [] {
      var c1 := Step(cfg, c, es[0]);
      StepHistory(cfg, c, es[0]);
      AcceptedIsSent(cfg, c1, es[1..]);
      assert Run(cfg, c, es).accepted == c1.accepted + SentWhileConnected(cfg, c1, es[1..]);
    }
  }

  lemma {:induction false} ReceivedIsRead(cfg: Config, c: Conn, es: seq<Event>)
    ensures Run(cfg, c, es).received == c.received + BytesRead(es)
    decreases |es|
  {
    if es != [] {
      var c1 := Step(cfg, c, es[0]);
      StepHistory(cfg, c, es[0]);
      ReceivedIsRead(cfg, c1, es[1..]);
      assert Run(cfg, c, es).received == c1.received + BytesRead(es[1..]);
    }
  }

  lemma {:induction false} BrokenByReset(cfg: Config, c: Conn, es: seq<Event>)
    requires !c.stream.broken && forall e :: e in es ==> !IsReset(e)
    ensures !Run(cfg, c, es).stream.broken
    decreases |es|
  {
    if es != [] {
      assert es[0] in es;
      StepHistory(cfg, c, es[0]);
      BrokenByReset(cfg, Step(cfg, c, es[0]), es[1..]);
    }
  }

  /** Output stream integrity: the wire followed by the output buffer is exactly what was sent, unless a
      reset made the connection give bytes up; the wire is a prefix of what was sent in any case.
      Input likewise: what the application took, then the input buffer, is exactly what was read. */
  lemma StreamIntegrity(cfg: Config, es: seq<Event>)
    requires Legal(cfg, FRESH, es)
    ensures var c, sent := Run(cfg, FRESH, es), SentWhileConnected(cfg, FRESH, es);
            && (!c.lost ==> c.stream.wire + c.output == sent)
            && c.stream.wire <= sent
            && (c.lost ==> exists e :: e in es && IsReset(e))
            && c.consumed + c.input == BytesRead(es)
  {
    RunInv(cfg, FRESH, es);
    AcceptedIsSent(cfg, FRESH, es);
    ReceivedIsRead(cfg, FRESH, es);
    if forall e :: e in es ==> !IsReset(e) {
      BrokenByReset(cfg, FRESH, es);
    }
  }

  // ----- half-close -------------------------------------------------------------------------------

  lemma {:induction false} ClosedForWriting(cfg: Config, c: Conn, es: seq<Event>)
    requires Inv(c) && Legal(cfg, c, es)
    ensures var d := Run(cfg, c, es);
            c.state == Disconnecting || c.state == Disconnected ==> d.accepted == c.accepted
    ensures var d := Run(cfg, c, es);
            c.stream.shutWr == 1 ==> d.stream == c.stream && d.output == [] && d.accepted == c.accepted
    decreases |es|
  {
    if es != [] {
      StepInv(cfg, c, es[0]);
      ClosedForWriting(cfg, Step(cfg, c, es[0]), es[1..]);
    }
  }

  /** Ordered half-close, for a run cut at any point.  SHUT_WR was issued at most once; if it was, all
      that had been sent is on the wire (unless given up after a reset) and the rest of the run neither
      writes nor queues another byte.  While a shutdown is pending, SHUT_WR has been issued exactly
      when the output buffer is empty, so the drain that empties it fires the deferred half-close. */
  lemma OrderedHalfClose(cfg: Config, es: seq<Event>, fs: seq<Event>)
    requires Legal(cfg, FRESH, es + fs)
    ensures var c, d := Run(cfg, FRESH, es), Run(cfg, FRESH, es + fs);
            && c.stream.shutWr <= 1
            && (c.state == Disconnecting ==> (c.stream.shutWr == 1 <==> c.output == []))
            && (c.stream.shutWr == 1 ==>
                 && (!c.lost ==> c.stream.wire == SentWhileConnected(cfg, FRESH, es))
                 && d.stream == c.stream && d.output == [] && d.accepted == c.accepted)
  {
    RunAppend(cfg, FRESH, es, fs);
    RunInv(cfg, FRESH, es);
    AcceptedIsSent(cfg, FRESH, es);
    ClosedForWriting(cfg, Run(cfg, FRESH, es), fs);
    var wire := Run(cfg, FRESH, es).stream.wire;
    assert wire + [] == wire;
  }

  // ----- callbacks --------------------------------------------------------------------------------

  predicate Crosses(cfg: Config, before: Conn, after: Conn) {
    |before.output| < cfg.highWaterMark <= |after.output|
  }

  predicate Drains(before: Conn, after: Conn) {
    before.output != [] && after.output == []
  }

  /** A send() whose bytes, possibly none, all went straight to the socket. */
  predicate PassesThrough(c: Conn, e: Event) {
    && e.SendCall? && c.state == Connected && c.output == []
    && WriteStream(c.stream, e.data, e.k).1 == Wrote(|e.data|)
  }

  /** The callbacks a step owes, read off the output lengths before and after it. */
  function Owed(cfg: Config, before: Conn, e: Event, after: Conn): seq<Callback> {
    (if cfg.hasWriteComplete && (Drains(before, after) || PassesThrough(before, e)) then [WriteComplete] else [])
    + (if cfg.hasHighWater && Crosses(cfg, before, after) then [HighWater(|after.output|)] else [])
  }

  ghost function OwedOver(cfg: Config, c: Conn, es: seq<Event>): seq<Callback>
    decreases |es|
  {
    if es == [] then []
    else
      var c1 := Step(cfg, c, es[0]);
      Owed(cfg, c, es[0], c1) + OwedOver(cfg, c1, es[1..])
  }

  /** Output that empties, or a send that passes through, leaves nothing unsent and nothing lost. */
  lemma NothingUnsent(cfg: Config, c: Conn, e: Event)
    requires Inv(c) && Enabled(c, e)
    ensures var d := Step(cfg, c, e);
            Drains(c, d) || PassesThrough(c, e) ==> !d.lost && d.stream.wire == d.accepted
  {
    StepInv(cfg, c, e);
    var d := Step(cfg, c, e);
    if Drains(c, d) || PassesThrough(c, e) {
      assert !c.lost && d.output == [];
      assert d.stream.wire + [] == d.stream.wire;
    }
  }

  lemma StepQueues(cfg: Config, c: Conn, e: Event)
    requires Inv(c) && Enabled(c, e)
    ensures var d := Step(cfg, c, e);
            d.queued == c.queued + Owed(cfg, c, e, d)
  {
    var d := Step(cfg, c, e);
    if e.SendCall? && c.state == Connected && c.output == [] {
      var (s, r) := WriteStream(c.stream, e.data, e.k);
      assert r.Wrote? && r.n < |e.data| ==> e.data[r.n..] != [];
      assert !r.Wrote? || r.n == |e.data| ==> d.output == [] || d.output == e.data;
    }
  }

  /** Each step queues exactly the callbacks it owes, and a write-complete only when every byte accepted
      is on the wire. */
  lemma StepCallbacks(cfg: Config, c: Conn, e: Event)
    requires Inv(c) && Enabled(c, e)
    ensures var d := Step(cfg, c, e);
            && d.queued == c.queued + Owed(cfg, c, e, d)
            && (WriteComplete in Owed(cfg, c, e, d) ==> !d.lost && d.stream.wire == d.accepted)
  {
    hide Step, Inv;
    StepQueues(cfg, c, e);
    NothingUnsent(cfg, c, e);
  }

  /** Callback accounting over every run: the callbacks queued are exactly those the history of the
      output length owes, a write-complete per drain or pass-through and a high-water per upward
      crossing of the mark, in that order and with the length reached. */
  lemma {:induction false} CallbackAccounting(cfg: Config, c: Conn, es: seq<Event>)
    requires Inv(c) && Legal(cfg, c, es)
    ensures Run(cfg, c, es).queued == c.queued + OwedOver(cfg, c, es)
    decreases |es|
  {
    if es != [] {
      StepInv(cfg, c, es[0]);
      StepCallbacks(cfg, c, es[0]);
      CallbackAccounting(cfg, Step(cfg, c, es[0]), es[1..]);
    }
  }

  function HighWaters(q: seq<Callback>): nat {
    if q == [] then 0 else (if q[0].HighWater? then 1 else 0) + HighWaters(q[1..])
  }

  lemma {:induction false} HighWatersAppend(p: seq<Callback>, q: seq<Callback>)
    ensures HighWaters(p + q) == HighWaters(p) + HighWaters(q)
  {
    if p == [] {
      assert p + q == q;
    } else {
      assert (p + q)[1..] == p[1..] + q;
      HighWatersAppend(p[1..], q);
    }
  }

  ghost function Crossings(cfg: Config, c: Conn, es: seq<Event>): nat
    decreases |es|
  {
    if es == [] then 0
    else
      var c1 := Step(cfg, c, es[0]);
      (if Crosses(cfg, c, c1) then 1 else 0) + Crossings(cfg, c1, es[1..])
  }

  /** As many high-water callbacks as upward crossings of the mark. */
  lemma {:induction false} HighWatersAreCrossings(cfg: Config, c: Conn, es: seq<Event>)
    requires Inv(c) && Legal(cfg, c, es) && cfg.hasHighWater
    ensures HighWaters(Run(cfg, c, es).queued) == HighWaters(c.queued) + Crossings(cfg, c, es)
    decreases |es|
  {
    if es != [] {
      var c1 := Step(cfg, c, es[0]);
      StepInv(cfg, c, es[0]);
      StepCallbacks(cfg, c, es[0]);
      HighWatersAppend(c.queued, Owed(cfg, c, es[0], c1));
      HighWatersAreCrossings(cfg, c1, es[1..]);
    }
  }

  // ----- life cycle -------------------------------------------------------------------------------

  function Rank(s: State): nat {
    match s case Connecting => 0 case Connected => 1 case Disconnecting => 2 case Disconnected => 3
  }

  /** The state only moves forward, the reports only grow, UP is the first and DOWN the last of at most
      two, the close callback runs once, and once closed the channel never asks for events again. */
  lemma {:induction false} LifeCycle(cfg: Config, c: Conn, es: seq<Event>)
    requires Inv(c) && Legal(cfg, c, es)
    ensures var d := Run(cfg, c, es);
            && Rank(c.state) <= Rank(d.state)
            && c.edges <= d.edges <= [Up, Down]
            && d.closes <= 1
            && (Active(d) ==> READ_EVENT <= d.events && (IsWriting(d) <==> d.output != []))
            && (c.state == Disconnected ==> d.state == Disconnected && d.events == NONE_EVENT && d.edges == c.edges)
    decreases |es|
  {
    if es != [] {
      StepInv(cfg, c, es[0]);
      LifeCycle(cfg, Step(cfg, c, es[0]), es[1..]);
    }
  }

  /** connectDestroyed reports DOWN for a connection that is up, but not for one that is half-closed:
      after it, every UP has its DOWN exactly when the state was not kDisconnecting. */
  lemma DestroyReportsDown(c: Conn)
    requires Inv(c)
    ensures (Up in ConnectDestroyed(c).edges <==> Down in ConnectDestroyed(c).edges) <==> c.state != Disconnecting
  {
    var d := ConnectDestroyed(c);
    if c.state == Connected {
      assert d.edges == [Up, Down] && d.edges[1] == Down;
    } else if c.state == Disconnected {
      assert d.edges[0] == Up && d.edges[1] == Down;
    } else if c.state == Disconnecting {
      assert d.edges[0] == Up;
    }
  }

  // ----- one dispatch of the channel ---------------------------------------------------------------

  function DispatchRead(cfg: Config, c: Conn, revents: Mask, r: ReadResult, app: seq<Event>): Conn {
    if In in revents || Pri in revents then
      var read := HandleRead(c, r);
      if r.Got? && r.bytes != [] then Run(cfg, read, app) else read
    else c
  }

  /** Channel::handleEventWithGuard with the connection's handlers; `app` is what the message callback
      does.  Error events change nothing. */
  function Dispatch(cfg: Config, c: Conn, revents: Mask, k: WriteChoice, r: ReadResult, app: seq<Event>): Conn {
    var c1 := if Out in revents then HandleWrite(cfg, c, k) else c;
    var c2 := DispatchRead(cfg, c1, revents, r, app);
    if Hup in revents && In !in revents then HandleClose(c2) else c2
  }

  /** What the message callback may do to its own connection. */
  predicate AppCalls(app: seq<Event>) {
    forall e :: e in app ==> e.SendCall? || e.ShutdownCall? || e.ConsumeInput?
  }

  function ReadEvents(revents: Mask, r: ReadResult, app: seq<Event>): seq<Event> {
    if In in revents || Pri in revents then
      [Readable(r)] + if r.Got? && r.bytes != [] then app else []
    else []
  }

  function DispatchEvents(revents: Mask, k: WriteChoice, r: ReadResult, app: seq<Event>): seq<Event> {
    (if Out in revents then [Writable(k)] else [])
    + ReadEvents(revents, r, app)
    + (if Hup in revents && In !in revents then [HangUp] else [])
  }

  /** A hang-up reported together with urgent but no normal data. */
  predicate UrgentHangUp(revents: Mask) {
    Pri in revents && Hup in revents && In !in revents
  }

  lemma {:induction false} AppKeepsActive(cfg: Config, c: Conn, app: seq<Event>)
    requires Inv(c) && Active(c) && AppCalls(app)
    ensures Legal(cfg, c, app)
    ensures var d := Run(cfg, c, app); Inv(d) && Active(d) && d.closes == c.closes
    decreases |app|
  {
    if app != [] {
      assert app[0] in app && AppCalls(app[1..]);
      StepInv(cfg, c, app[0]);
      AppKeepsActive(cfg, Step(cfg, c, app[0]), app[1..]);
    }
  }

  lemma DispatchReadIsRun(cfg: Config, c: Conn, revents: Mask, r: ReadResult, app: seq<Event>)
    requires Inv(c) && Active(c) && AppCalls(app)
    ensures Run(cfg, c, ReadEvents(revents, r, app)) == DispatchRead(cfg, c, revents, r, app)
    ensures Legal(cfg, c, ReadEvents(revents, r, app))
    ensures !(In in revents || Pri in revents) ==> DispatchRead(cfg, c, revents, r, app) == c
  {
    var es := ReadEvents(revents, r, app);
    if es != [] {
      var read := HandleRead(c, r);
      ReadAndConsumeInv(c, r, 0);
      RunOne(cfg, c, Readable(r));
      RunAppend(cfg, c, [Readable(r)], es[1..]);
      assert es == [Readable(r)] + es[1..];
      if r.Got? && r.bytes != [] {
        assert es[1..] == app;
        AppKeepsActive(cfg, read, app);
      } else {
        assert es[1..] == [];
      }
    }
  }

  lemma DispatchWriteIsRun(cfg: Config, c: Conn, revents: Mask, k: WriteChoice)
    requires Inv(c) && Active(c)
    ensures var es: seq<Event> := if Out in revents then [Writable(k)] else [];
            var d := Run(cfg, c, es);
            && d == (if Out in revents then HandleWrite(cfg, c, k) else c)
            && Legal(cfg, c, es) && Inv(d) && Active(d)
  {
    RunOne(cfg, c, Writable(k));
    HandleWriteInv(cfg, c, k);
  }

  lemma DispatchIsRun(cfg: Config, c: Conn, revents: Mask, k: WriteChoice, r: ReadResult, app: seq<Event>)
    requires Inv(c) && Active(c) && AppCalls(app)
    ensures Run(cfg, c, DispatchEvents(revents, k, r, app)) == Dispatch(cfg, c, revents, k, r, app)
    ensures !UrgentHangUp(revents) ==> Legal(cfg, c, DispatchEvents(revents, k, r, app))
  {
    hide Inv, HandleWrite, DispatchRead, ReadEvents;
    var es1: seq<Event> := if Out in revents then [Writable(k)] else [];
    var es2 := ReadEvents(revents, r, app);
    var es3: seq<Event> := if Hup in revents && In !in revents then [HangUp] else [];
    DispatchWriteIsRun(cfg, c, revents, k);
    var c1 := Run(cfg, c, es1);
    DispatchReadIsRun(cfg, c1, revents, r, app);
    var c2 := Run(cfg, c1, es2);
    StillRegistered(c1);
    RunOne(cfg, c2, HangUp);
    RunAppend(cfg, c, es1, es2);
    RunAppend(cfg, c, es1 + es2, es3);
  }

  lemma StillRegistered(c: Conn)
    requires Inv(c) && Active(c)
    ensures c.events != NONE_EVENT
  {
    assert In in c.events;
  }

  /** One dispatch closes a live connection at most once, whatever the kernel returns and the
      application does, exactly when it does not carry an urgent hang-up. */
  lemma DispatchClosesOnce(cfg: Config, c: Conn, revents: Mask)
    requires Inv(c) && Active(c)
    ensures (forall k, r, app | AppCalls(app) :: Dispatch(cfg, c, revents, k, r, app).closes <= 1)
      <==> !UrgentHangUp(revents)
  {
    if UrgentHangUp(revents) {
      HandleWriteInv(cfg, c, WouldBlock);
      assert AppCalls([]);
      assert Dispatch(cfg, c, revents, WouldBlock, Got([]), []).closes == 2;
    } else {
      forall k, r, app | AppCalls(app)
        ensures Dispatch(cfg, c, revents, k, r, app).closes <= 1
      {
        DispatchIsRun(cfg, c, revents, k, r, app);
        RunInv(cfg, c, DispatchEvents(revents, k, r, app));
      }
    }
  }
}
