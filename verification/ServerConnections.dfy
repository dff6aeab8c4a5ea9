/** The two models of a connection put together: TcpServers, where connections live and die across loops,
    and Connections, what one connection does on its own loop.

    Here a step of the server carries the connection along.  connectEstablished and connectDestroyed reach
    it through functors, handlers run in the dispatch of its channel, and user code on its loop calls send,
    shutdown and takes input.  Nothing else says when an event may come: that every event comes when
    Connections allows it is proved. */
module ServerConnections {
  import opened Kernel
  import opened Registration
  import opened TcpServers
  import opened TcpServerInvariant
  import opened TcpServerSteps
  import opened TcpServerRuns
  import Connections
  import ConnectionRuns
  import ConnNames
  import TcpServerProgress

  type Conn = Connections.Conn
  type Event = Connections.Event

  /** `work` is, per loop, what is left to do in the dispatch under way; `events` is the history of each
      connection. */
  datatype World = World(
    server: Server,
    conns: map<Id, Conn>,
    events: map<Id, seq<Event>>,
    work: seq<seq<Event>>)

  datatype Action =
    | Plain(step: Step)            // a step of the server that runs no handler
    | Dispatch(l: nat, k: WriteChoice, r: ReadResult, app: seq<Event>) // a channel is taken up
    | Handler(l: nat)              // the next handler, or the next call of its message callback
    | AppCall(l: nat, c: Id, e: Event) // other user code on loop `l`

  predicate IsCall(e: Event) {
    e.SendCall? || e.ShutdownCall? || e.ConsumeInput?
  }

  predicate Closes(e: Event) {
    e == Connections.HangUp || e == Connections.Readable(Got([]))
  }

  /** Steps that run no handler and no call on a connection. */
  predicate IsPlain(step: Step) {
    && !step.Handle? && !step.Close? && !step.SetWriting? && !step.HalfClose?
    && !step.QueueUserCall? && !step.QueueOffLoopCall? && !step.LateSet?
  }

  ghost predicate CanDo(w: World, a: Action) {
    match a
    case Plain(step) =>
      && IsPlain(step) && Enabled(w.server, step) && Calm(step)
      && (step.EndHandle? && step.l < |w.work| ==> w.work[step.l] == [])
    case Dispatch(l, k, r, app) =>
      Enabled(w.server, Handle(l, r == Got([]))) && ConnectionRuns.AppCalls(app) && l < |w.work|
    case Handler(l) =>
      && l < |w.server.loops| && l < |w.work| && w.work[l] != []
      && w.server.loops[l].frame.Handling? && w.server.loops[l].frame.c in w.conns
    case AppCall(l, c, e) =>
      && l < |w.server.loops| && w.server.loops[l].activity != Polling
      && c in w.conns && Known(w.server, c) && w.server.conns[c].loop == l && Alive(w.server, c) && IsCall(e)
  }

  /** The connection takes an event. */
  function Take(cfg: Connections.Config, w: World, c: Id, e: Event): World {
    if c in w.conns && c in w.events then
      w.(conns := w.conns[c := Connections.Step(cfg, w.conns[c], e)], events := w.events[c := w.events[c] + [e]])
    else w
  }

  /** What the server sees of a connection that went from `before` to `after` without closing. */
  function Mirror(s: Server, c: Id, before: Conn, after: Conn): Server {
    var s1 := if c in s.conns && after.state != before.state then
        WithConn(s, c, s.conns[c].(state := after.state)) else s;
    var s2 := if Known(s1, c) && after.events != before.events then ChangeMask(s1, c, after.events) else s1;
    if Known(s2, c) then PushCalls(s2, s2.conns[c].loop, c, |before.queued|, |after.queued|) else s2
  }

  /** The callbacks from number `n` on are queued to the connection's loop. */
  function PushCalls(s: Server, l: nat, c: Id, n: nat, end: nat): Server
    requires l < |s.loops|
    decreases end - n
  {
    if n < end then PushCalls(Push(s, l, UserCall(c, n)), l, c, n + 1, end) else s
  }

  /** handleClose inside the dispatch of loop `l`. */
  function CloseIn(s: Server, l: nat): Server
    requires l < |s.loops| && s.loops[l].frame.Handling?
  {
    var f := s.loops[l].frame;
    var left := if f.closes > 0 then f.closes - 1 else 0;
    RemoveConnection(CloseNow(WithLoop(s, l, s.loops[l].(frame := Handling(f.c, left))), f.c), l, f.c)
  }

  /** A functor of the loop, as it concerns its connection. */
  function TakeFunctor(cfg: Connections.Config, w: World, t: Token): World {
    match t
    case Established(c) => Take(cfg, w, c, Connections.Establish)
    case Destroyed(c) => Take(cfg, w, c, Connections.Destroy)
    case RemoveInLoop(_) => w
    case UserCall(_, _) => w
    case OffLoopCall(_) => w
  }

  /** A connection is created; on the base loop it is established at once. */
  function TakeNew(cfg: Connections.Config, w: World, c: Id, atOnce: bool): World {
    var w1 := w.(conns := w.conns[c := Connections.FRESH], events := w.events[c := []]);
    if atOnce then Take(cfg, w1, c, Connections.Establish) else w1
  }

  ghost function Do(cfg: Connections.Config, w: World, a: Action): World
    requires CanDo(w, a)
  {
    match a
    case Plain(step) =>
      var w1 := w.(server := Next(w.server, step));
      if step.Accept? then TakeNew(cfg, w1, w.server.nextId, NewRec(w.server, step.fd).loop == 0)
      else if step.RunToken? then TakeFunctor(cfg, w1, w.server.loops[step.l].todo[0])
      else w1
    case Dispatch(l, k, r, app) =>
      var revents := w.server.loops[l].active[0].revents;
      w.(server := Next(w.server, Handle(l, r == Got([]))),
         work := w.work[l := ConnectionRuns.DispatchEvents(revents, k, r, app)])
    case Handler(l) =>
      var c, e := w.server.loops[l].frame.c, w.work[l][0];
      var w1 := Take(cfg, w.(work := w.work[l := w.work[l][1..]]), c, e);
      w1.(server := if Closes(e) then CloseIn(w.server, l) else Mirror(w.server, c, w.conns[c], w1.conns[c]))
    case AppCall(l, c, e) =>
      var w1 := Take(cfg, w, c, e);
      w1.(server := Mirror(w.server, c, w.conns[c], w1.conns[c]))
  }

  // ----- the relation between the two --------------------------------------------------------------------

  function ChanOf(s: Server, c: Id): Chan
    requires Known(s, c)
  {
    s.loops[s.conns[c].loop].reg.chans[c]
  }

  function Edges(r: Rec): seq<Connections.Edge> {
    (if r.ups > 0 then [Connections.Up] else []) + (if r.downs > 0 then [Connections.Down] else [])
  }

  /** State, interest mask and reports of a connection are what the server has. */
  predicate Match(r: Rec, ch: Chan, c: Conn) {
    c.state == r.state && c.events == ch.events && c.closes == r.closes && c.edges == Edges(r)
  }

  ghost predicate DestroyedWhenClosed(cfg: Connections.Config, es: seq<Event>) {
    forall i :: 0 <= i < |es| && es[i].Destroy? ==>
      Connections.Run(cfg, Connections.FRESH, es[..i]).state == Connections.Disconnected
  }

  /** The connection got where it is by a legal run, and connectDestroyed found it closed. */
  ghost predicate History(cfg: Connections.Config, c: Conn, es: seq<Event>) {
    && Connections.Legal(cfg, Connections.FRESH, es) && Connections.Run(cfg, Connections.FRESH, es) == c
    && DestroyedWhenClosed(cfg, es)
  }

  ghost predicate ConnOk(cfg: Connections.Config, w: World, c: Id) {
    && Known(w.server, c) && c in w.conns && c in w.events
    && Match(w.server.conns[c], ChanOf(w.server, c), w.conns[c])
    && History(cfg, w.conns[c], w.events[c])
  }

  predicate IsHandler(e: Event) {
    e.Writable? || e.Readable? || e.HangUp? || IsCall(e)
  }

  /** What is left of a dispatch: it closes at most once and last, as the frame says. */
  predicate WorkClosesLast(work: seq<Event>, closes: nat) {
    && (forall i :: 0 <= i < |work| ==> IsHandler(work[i]))
    && (forall i :: 0 <= i < |work| - 1 ==> !Closes(work[i]))
    && closes == if work != [] && Closes(work[|work| - 1]) then 1 else 0
  }

  predicate WorkOk(conns: map<Id, Rec>, l: nat, frame: Frame, work: seq<Event>) {
    match frame
    case NoFrame => work == []
    case Handling(c, closes) => WorkClosesLast(work, closes) && (work != [] ==> LiveOn(conns, c, l))
  }

  /** Every connection matches the server, and so does what is left of every dispatch. */
  ghost predicate Joined(cfg: Connections.Config, w: World) {
    && (forall c :: c in w.server.conns ==> ConnOk(cfg, w, c))
    && |w.work| == |w.server.loops|
    && (forall l :: 0 <= l < |w.work| ==> WorkOk(w.server.conns, l, w.server.loops[l].frame, w.work[l]))
  }

  /** ... and the server got where it is by a run of its own. */
  ghost predicate Together(cfg: Connections.Config, w: World) {
    Reachable(w.server) && Joined(cfg, w)
  }

  // ----- histories ----------------------------------------------------------------------------------------

  lemma HistoryInv(cfg: Connections.Config, c: Conn, es: seq<Event>)
    requires History(cfg, c, es)
    ensures Connections.Inv(c)
  {
    Connections.RunInv(cfg, Connections.FRESH, es);
  }

  lemma HistoryTakes(cfg: Connections.Config, c: Conn, es: seq<Event>, e: Event)
    requires History(cfg, c, es) && Connections.Enabled(c, e) && (e.Destroy? ==> c.state == Connections.Disconnected)
    ensures History(cfg, Connections.Step(cfg, c, e), es + [e])
  {
    ConnectionRuns.RunAppend(cfg, Connections.FRESH, es, [e]);
    ConnectionRuns.RunOne(cfg, c, e);
    forall i | 0 <= i <= |es| && (es + [e])[i].Destroy?
      ensures Connections.Run(cfg, Connections.FRESH, (es + [e])[..i]).state == Connections.Disconnected
    {
      assert (es + [e])[..i] == es[..i];
      assert es[..|es|] == es;
    }
  }

  // ----- what a step of the server leaves alone -----------------------------------------------------------

  ghost predicate SameFor(s: Server, s': Server, d: Id) {
    Known(s, d) ==> Known(s', d) && s'.conns[d] == s.conns[d] && ChanOf(s', d).events == ChanOf(s, d).events
  }

  ghost predicate OthersSame(s: Server, s': Server, c: Id) {
    forall d :: d in s.conns && d != c ==> SameFor(s, s', d)
  }

  /** Frames stay, and what was live is. */
  ghost predicate Steady(s: Server, s': Server) {
    && |s'.loops| == |s.loops|
    && (forall m :: 0 <= m < |s.loops| ==> s'.loops[m].frame == s.loops[m].frame)
    && (forall d, m :: LiveOn(s.conns, d, m) ==> LiveOn(s'.conns, d, m))
  }

  lemma StepReachable(s: Server, step: Step)
    requires Reachable(s) && Enabled(s, step) && Calm(step)
    ensures Reachable(Next(s, step)) && Inv(s) && Inv(Next(s, step))
  {
    hide Inv, Next, Reachable;
    TcpServerProgress.OneStep(s, step);
    assert AllCalm([step]);
    TcpServerProgress.StaysReachable(s, [step]);
    ReachableInv(s);
    ReachableInv(Next(s, step));
  }

  lemma KnownConn(s: Server, c: Id)
    requires Inv(s) && c in s.conns
    ensures Known(s, c) && RecOk(s, c, s.conns[c])
  {
    assert RecOk(s, c, s.conns[c]);
    assert LoopOk(s.conns, s.conns[c].loop, s.loops[s.conns[c].loop], NoFlight);
  }

  lemma MaskChangeSame(s: Server, c: Id, events: Mask)
    requires Known(s, c)
    ensures var s' := ChangeMask(s, c, events);
            && OthersSame(s, s', c) && Steady(s, s') && s'.conns == s.conns
            && Known(s', c) && ChanOf(s', c).events == events
  {
    OtherChansStay(s.loops[s.conns[c].loop].reg, c, events);
  }

  lemma EstablishSame(s: Server, c: Id)
    requires Known(s, c)
    ensures var s' := EstablishNow(s, c);
            && OthersSame(s, s', c) && Steady(s, s') && Known(s', c)
            && s'.conns[c] == EstablishedRec(s.conns[c]) && ChanOf(s', c).events == ChanOf(s, c).events + READ_EVENT
  {
    OtherChansStay(s.loops[s.conns[c].loop].reg, c, s.loops[s.conns[c].loop].reg.chans[c].events + READ_EVENT);
  }

  lemma DestroySame(s: Server, c: Id)
    requires Known(s, c) && s.conns[c].state == Connections.Disconnected && s.conns[c].phase != Live
    ensures var s' := DestroyNow(s, c);
            && OthersSame(s, s', c) && Steady(s, s') && Known(s', c)
            && s'.conns[c] == DestroyedRec(s.conns[c]) && ChanOf(s', c).events == ChanOf(s, c).events
  {
    OtherChansStay(s.loops[s.conns[c].loop].reg, c, NONE_EVENT);
  }

  lemma RemoveSame(s: Server, c: Id)
    requires Known(s, c) && s.conns[c].phase != Live
    ensures var s' := RemoveNow(s, c);
            && OthersSame(s, s', c) && Steady(s, s') && Known(s', c)
            && s'.conns[c] == s.conns[c].(phase := DestroyQueued) && ChanOf(s', c).events == ChanOf(s, c).events
  {
  }

  lemma PushSame(s: Server, l: nat, t: Token)
    requires l < |s.loops|
    ensures forall d :: SameFor(s, Push(s, l, t), d)
    ensures Steady(s, Push(s, l, t))
  {
  }

  lemma AdmittedSame(s: Server, fd: int)
    requires |s.loops| > 0 && s.nextId !in s.conns
    ensures var s', id := Admitted(s, fd), s.nextId;
            && OthersSame(s, s', id) && Steady(s, s') && Known(s', id)
            && s'.conns[id] == NewRec(s, fd) && ChanOf(s', id).events == NONE_EVENT
  {
  }

  // ----- steps of the server that run no handler ------------------------------------------------------------

  /** Connections other than `c` are where they were. */
  lemma OthersStay(cfg: Connections.Config, w: World, w': World, c: Id)
    requires forall d :: d in w.server.conns ==> ConnOk(cfg, w, d)
    requires OthersSame(w.server, w'.server, c)
    requires w'.conns - {c} == w.conns - {c} && w'.events - {c} == w.events - {c}
    ensures forall d :: d in w.server.conns && d != c ==> ConnOk(cfg, w', d)
  {
    hide History;
    forall d | d in w.server.conns && d != c ensures ConnOk(cfg, w', d) {
      assert ConnOk(cfg, w, d) && SameFor(w.server, w'.server, d);
      assert d in w'.conns - {c} && d in w'.events - {c};
    }
  }

  lemma WorkStays(w: World, w': World)
    requires Steady(w.server, w'.server) && w'.work == w.work && |w.work| == |w.server.loops|
    requires forall l :: 0 <= l < |w.work| ==> WorkOk(w.server.conns, l, w.server.loops[l].frame, w.work[l])
    ensures forall l :: 0 <= l < |w.work| ==> WorkOk(w'.server.conns, l, w'.server.loops[l].frame, w'.work[l])
  {
  }

  lemma PlainSame(s: Server, step: Step)
    requires Enabled(s, step) && IsPlain(step) && !step.Accept? && !step.RunToken?
    ensures var s' := Next(s, step);
            && s'.conns == s.conns && |s'.loops| == |s.loops|
            && (forall d :: SameFor(s, s', d))
            && (forall m :: 0 <= m < |s.loops| ==>
                 s'.loops[m].frame == if step == EndHandle(m) then NoFrame else s.loops[m].frame)
  {
  }

  lemma PlainTogether(cfg: Connections.Config, w: World, step: Step)
    requires Together(cfg, w) && CanDo(w, Plain(step)) && !step.Accept? && !step.RunToken?
    ensures Together(cfg, Do(cfg, w, Plain(step)))
  {
    hide Reachable, History, Inv, Next, Enabled;
    var w' := Do(cfg, w, Plain(step));
    StepReachable(w.server, step);
    PlainSame(w.server, step);
    forall d | d in w'.server.conns ensures ConnOk(cfg, w', d) {
      assert ConnOk(cfg, w, d) && SameFor(w.server, w'.server, d);
    }
    forall l | 0 <= l < |w'.work| ensures WorkOk(w'.server.conns, l, w'.server.loops[l].frame, w'.work[l]) {
      assert WorkOk(w.server.conns, l, w.server.loops[l].frame, w.work[l]);
    }
  }

  lemma TakeConnOk(cfg: Connections.Config, w: World, w': World, c: Id, e: Event)
    requires ConnOk(cfg, w, c) && w' == Take(cfg, w, c, e).(server := w'.server) && Known(w'.server, c)
    requires Connections.Enabled(w.conns[c], e) && (e.Destroy? ==> w.conns[c].state == Connections.Disconnected)
    requires Match(w'.server.conns[c], ChanOf(w'.server, c), Connections.Step(cfg, w.conns[c], e))
    ensures ConnOk(cfg, w', c)
    ensures w'.conns - {c} == w.conns - {c} && w'.events - {c} == w.events - {c} && w'.work == w.work
  {
    hide History, Connections.Step, Connections.Enabled;
    HistoryTakes(cfg, w.conns[c], w.events[c], e);
  }

  /** A connection takes an event that its run allows, and the server follows. */
  lemma TakeJoined(cfg: Connections.Config, w: World, w': World, c: Id, e: Event)
    requires Joined(cfg, w) && c in w.server.conns && w' == Take(cfg, w, c, e).(server := w'.server)
    requires w'.server.conns.Keys == w.server.conns.Keys
    requires OthersSame(w.server, w'.server, c) && Steady(w.server, w'.server) && Known(w'.server, c)
    requires Connections.Enabled(w.conns[c], e) && (e.Destroy? ==> w.conns[c].state == Connections.Disconnected)
    requires Match(w'.server.conns[c], ChanOf(w'.server, c), Connections.Step(cfg, w.conns[c], e))
    ensures Joined(cfg, w')
  {
    hide ConnOk, OthersSame, WorkOk, Match, Take, Known, Connections.Step, Connections.Enabled;
    assert ConnOk(cfg, w, c);
    TakeConnOk(cfg, w, w', c, e);
    OthersStay(cfg, w, w', c);
    WorkStays(w, w');
    forall d | d in w'.server.conns ensures ConnOk(cfg, w', d) {
      assert d in w.server.conns;
    }
  }

  // ----- functors -------------------------------------------------------------------------------------------

  lemma PopSame(s: Server, l: nat)
    requires Inv(s) && Enabled(s, RunToken(l))
    ensures var s1 := WithLoop(s, l, Popped(s.loops[l]));
            && Steady(s, s1) && s1.conns == s.conns && (forall d :: SameFor(s, s1, d))
            && InvWith(s1, PopFlight(l, s.loops[l].todo[0]))
  {
    hide Inv, InvWith, Facts;
    PopInv(s, l);
  }

  lemma Compose(s: Server, s1: Server, s2: Server, c: Id)
    requires Steady(s, s1) && (forall d :: SameFor(s, s1, d)) && s1.conns == s.conns
    requires Steady(s1, s2) && OthersSame(s1, s2, c)
    ensures Steady(s, s2) && OthersSame(s, s2, c)
  {
    forall d | d in s.conns && d != c ensures SameFor(s, s2, d) {
      assert SameFor(s, s1, d) && SameFor(s1, s2, d);
    }
  }

  lemma MatchEstablished(cfg: Connections.Config, r: Rec, ch: Chan, ch': Chan, c: Conn)
    requires Match(r, ch, c) && r.state == Connections.Connecting && r.ups == r.downs == 0
    requires ch'.events == ch.events + READ_EVENT
    ensures Connections.Enabled(c, Connections.Establish)
    ensures Match(EstablishedRec(r), ch', Connections.Step(cfg, c, Connections.Establish))
  {
  }

  lemma MatchDestroyed(cfg: Connections.Config, r: Rec, ch: Chan, ch': Chan, c: Conn)
    requires Match(r, ch, c) && r.state == Connections.Disconnected && ch'.events == ch.events
    ensures Connections.Enabled(c, Connections.Destroy) && c.state == Connections.Disconnected
    ensures Match(DestroyedRec(r), ch', Connections.Step(cfg, c, Connections.Destroy))
  {
  }

  lemma EstablishedTogether(cfg: Connections.Config, w: World, l: nat, c: Id)
    requires Together(cfg, w) && CanDo(w, Plain(RunToken(l))) && w.server.loops[l].todo[0] == Established(c)
    ensures Together(cfg, Do(cfg, w, Plain(RunToken(l))))
  {
    hide Match, Connections.Step, Connections.Enabled, Reachable, History, Inv, InvWith;
    hide Steady, SameFor, OthersSame, LoopOk, RecOk;
    var s, w' := w.server, Do(cfg, w, Plain(RunToken(l)));
    var s1 := WithLoop(s, l, Popped(s.loops[l]));
    StepReachable(s, RunToken(l));
    PopSame(s, l);
    FlightAlive(s1, Flight(l, Established(c)));
    EstablishInv(s1, l, c);
    QueuedIsConnecting(s, c);
    assert ConnOk(cfg, w, c) && SameFor(s, s1, c);
    KnownStays(s, s1, c);
    EstablishSame(s1, c);
    Compose(s, s1, w'.server, c);
    SameKeys(s1, c);
    MatchEstablished(cfg, s.conns[c], ChanOf(s, c), ChanOf(w'.server, c), w.conns[c]);
    TakeJoined(cfg, w, w', c, Connections.Establish);
  }

  lemma KnownStays(s: Server, s1: Server, c: Id)
    requires Known(s, c) && SameFor(s, s1, c)
    ensures Known(s1, c) && s1.conns[c] == s.conns[c] && ChanOf(s1, c).events == ChanOf(s, c).events
  {
  }

  lemma QueuedIsConnecting(s: Server, c: Id)
    requires Inv(s) && c in s.conns && s.conns[c].phase == EstablishQueued
    ensures s.conns[c].state == Connections.Connecting && s.conns[c].ups == 0 && s.conns[c].downs == 0
  {
    KnownConn(s, c);
  }

  lemma SameKeys(s: Server, c: Id)
    requires Known(s, c)
    ensures EstablishNow(s, c).conns.Keys == s.conns.Keys
    ensures RemoveNow(s, c).conns.Keys == s.conns.Keys
    ensures DestroyNow(s, c).conns.Keys == s.conns.Keys
  {
  }

  lemma DestroyedTogether(cfg: Connections.Config, w: World, l: nat, c: Id)
    requires Together(cfg, w) && CanDo(w, Plain(RunToken(l))) && w.server.loops[l].todo[0] == Destroyed(c)
    ensures Together(cfg, Do(cfg, w, Plain(RunToken(l))))
  {
    hide Match, Connections.Step, Connections.Enabled, Reachable, History, Inv, InvWith;
    hide Steady, SameFor, OthersSame, LoopOk, RecOk;
    var s, w' := w.server, Do(cfg, w, Plain(RunToken(l)));
    var s1 := WithLoop(s, l, Popped(s.loops[l]));
    StepReachable(s, RunToken(l));
    PopSame(s, l);
    FlightAlive(s1, Flight(l, Destroyed(c)));
    DestroyInv(s1, l, c);
    assert ConnOk(cfg, w, c) && SameFor(s, s1, c);
    KnownStays(s, s1, c);
    DestroySame(s1, c);
    Compose(s, s1, w'.server, c);
    SameKeys(s1, c);
    MatchDestroyed(cfg, s.conns[c], ChanOf(s, c), ChanOf(w'.server, c), w.conns[c]);
    TakeJoined(cfg, w, w', c, Connections.Destroy);
  }

  /** The server changes, but nothing a connection shows. */
  lemma NoEventJoined(cfg: Connections.Config, w: World, w': World, c: Id)
    requires Joined(cfg, w) && w' == w.(server := w'.server)
    requires w'.server.conns.Keys == w.server.conns.Keys
    requires Steady(w.server, w'.server) && OthersSame(w.server, w'.server, c)
    requires c in w.server.conns ==> Known(w'.server, c) && Match(w'.server.conns[c], ChanOf(w'.server, c), w.conns[c])
    ensures Joined(cfg, w')
  {
    hide History, OthersSame, WorkOk, Match, Known;
    OthersStay(cfg, w, w', c);
    WorkStays(w, w');
    forall d | d in w'.server.conns ensures ConnOk(cfg, w', d) {
      assert ConnOk(cfg, w, d);
    }
  }

  lemma RemovedTogether(cfg: Connections.Config, w: World, l: nat, c: Id)
    requires Together(cfg, w) && CanDo(w, Plain(RunToken(l))) && w.server.loops[l].todo[0] == RemoveInLoop(c)
    ensures Together(cfg, Do(cfg, w, Plain(RunToken(l))))
  {
    hide Reachable, History, Inv, InvWith, Steady, SameFor, OthersSame, LoopOk, RecOk;
    var s, w' := w.server, Do(cfg, w, Plain(RunToken(l)));
    var s1 := WithLoop(s, l, Popped(s.loops[l]));
    StepReachable(s, RunToken(l));
    PopSame(s, l);
    OnlyOnBase(s1, l, c);
    RemoveInv(s1, c);
    assert ConnOk(cfg, w, c) && SameFor(s, s1, c);
    KnownStays(s, s1, c);
    RemoveSame(s1, c);
    Compose(s, s1, w'.server, c);
    SameKeys(s1, c);
    NoEventJoined(cfg, w, w', c);
  }

  lemma OnlyOnBase(s: Server, l: nat, c: Id)
    requires InvWith(s, Flight(l, RemoveInLoop(c)))
    ensures l == 0
  {
    assert LoopOk(s.conns, l, s.loops[l], Flight(l, RemoveInLoop(c)));
    assert Expected(s.conns, l, RemoveInLoop(c)) >= 1;
  }

  lemma UserCallTogether(cfg: Connections.Config, w: World, l: nat)
    requires Together(cfg, w) && CanDo(w, Plain(RunToken(l))) && !Carries(w.server.loops[l].todo[0])
    ensures Together(cfg, Do(cfg, w, Plain(RunToken(l))))
  {
    hide Reachable, History, Inv, InvWith, Steady, LoopOk;
    var s, w' := w.server, Do(cfg, w, Plain(RunToken(l)));
    StepReachable(s, RunToken(l));
    PopSame(s, l);
    var c := s.loops[l].todo[0].c;
    if c in s.conns {
      assert ConnOk(cfg, w, c) && SameFor(s, w'.server, c);
    }
    NoEventJoined(cfg, w, w', c);
  }

  lemma RunTokenTogether(cfg: Connections.Config, w: World, l: nat)
    requires Together(cfg, w) && CanDo(w, Plain(RunToken(l)))
    ensures Together(cfg, Do(cfg, w, Plain(RunToken(l))))
  {
    hide Together;
    match w.server.loops[l].todo[0]
    case Established(c) => EstablishedTogether(cfg, w, l, c);
    case RemoveInLoop(c) => RemovedTogether(cfg, w, l, c);
    case Destroyed(c) => DestroyedTogether(cfg, w, l, c);
    case UserCall(_, _) => UserCallTogether(cfg, w, l);
    case OffLoopCall(_) => UserCallTogether(cfg, w, l);
  }

  // ----- a new connection -------------------------------------------------------------------------------------

  lemma AcceptingSame(s: Server)
    requires Inv(s) && AcceptsNext(s)
    ensures var s1 := Accepting(s);
            && Steady(s, s1) && (forall d :: SameFor(s, s1, d)) && s1.conns == s.conns
            && s.nextId !in s.conns
  {
    NextIdIsNew(s);
  }

  /** The world with the new connection in it, before its functor is run or queued. */
  lemma AdmittedJoined(cfg: Connections.Config, w: World, s': Server, id: Id)
    requires Joined(cfg, w) && id !in w.server.conns
    requires OthersSame(w.server, s', id) && Steady(w.server, s') && s'.conns.Keys == w.server.conns.Keys + {id}
    requires Known(s', id) && Match(s'.conns[id], ChanOf(s', id), Connections.FRESH)
    ensures Joined(cfg, TakeNew(cfg, w, id, false).(server := s'))
  {
    hide OthersSame, WorkOk, Match, Known;
    var w' := TakeNew(cfg, w, id, false).(server := s');
    assert History(cfg, Connections.FRESH, []);
    assert ConnOk(cfg, w', id);
    OthersStay(cfg, w, w', id);
    WorkStays(w, w');
    forall c | c in s'.conns ensures ConnOk(cfg, w', c) {
      assert c != id ==> c in w.server.conns;
    }
  }

  lemma AdmittedSteady(s: Server, fd: int)
    requires Inv(s) && AcceptsNext(s)
    ensures var s1, id := Accepting(s), s.nextId;
            var s2 := Admitted(s1, fd);
            && id !in s.conns && s1.nextId == id && |s1.loops| > 0
            && Steady(s, s2) && OthersSame(s, s2, id) && Known(s2, id)
            && s2.conns == s.conns[id := NewRec(s1, fd)] && ChanOf(s2, id).events == NONE_EVENT
            && NewRec(s1, fd) == NewRec(s, fd)
  {
    hide Inv;
    AcceptingSame(s);
    AdmittedSame(Accepting(s), fd);
    Compose(s, Accepting(s), Admitted(Accepting(s), fd), s.nextId);
  }

  lemma AcceptTogether(cfg: Connections.Config, w: World, fd: int)
    requires Together(cfg, w) && CanDo(w, Plain(Step.Accept(fd)))
    ensures Together(cfg, Do(cfg, w, Plain(Step.Accept(fd))))
  {
    hide Reachable, History, Inv, Steady, SameFor, OthersSame, ConnOk, WorkOk, Admitted, EstablishNow;
    hide Connections.Step, Connections.Enabled;
    var s, id, w' := w.server, w.server.nextId, Do(cfg, w, Plain(Step.Accept(fd)));
    StepReachable(s, Step.Accept(fd));
    AdmittedSteady(s, fd);
    var s2 := Admitted(Accepting(s), fd);
    var l := NewRec(s, fd).loop;
    if l == 0 {
      var w2 := TakeNew(cfg, w, id, false).(server := s2);
      AdmittedJoined(cfg, w, s2, id);
      EstablishSame(s2, id);
      SameKeys(s2, id);
      MatchEstablished(cfg, s2.conns[id], ChanOf(s2, id), ChanOf(w'.server, id), Connections.FRESH);
      TakeJoined(cfg, w2, w', id, Connections.Establish);
    } else {
      PushAdmitted(s, s2, l, id);
      AdmittedJoined(cfg, w, w'.server, id);
    }
  }

  lemma PushAdmitted(s: Server, s2: Server, l: nat, id: Id)
    requires l < |s2.loops| && Steady(s, s2) && OthersSame(s, s2, id) && Known(s2, id)
    ensures var s3 := Push(s2, l, Established(id));
            && Steady(s, s3) && OthersSame(s, s3, id) && Known(s3, id)
            && s3.conns == s2.conns && ChanOf(s3, id).events == ChanOf(s2, id).events
  {
    PushSame(s2, l, Established(id));
    forall d | d in s.conns && d != id ensures SameFor(s, Push(s2, l, Established(id)), d) {
      assert SameFor(s, s2, d);
    }
  }

  // ----- a dispatch begins --------------------------------------------------------------------------------------

  lemma DispatchWork(revents: Mask, k: WriteChoice, r: ReadResult, app: seq<Event>)
    requires ConnectionRuns.AppCalls(app) && !ConnectionRuns.UrgentHangUp(revents)
    ensures WorkClosesLast(ConnectionRuns.DispatchEvents(revents, k, r, app), CloseCalls(revents, r == Got([])))
  {
    var work := ConnectionRuns.DispatchEvents(revents, k, r, app);
    var closes := CloseCalls(revents, r == Got([]));
    forall i | 0 <= i < |work|
      ensures IsHandler(work[i]) && (Closes(work[i]) ==> i == |work| - 1 && closes == 1)
    {
      assert work[i] in app ==> IsCall(work[i]);
    }
    if closes > 0 {
      assert Closes(work[|work| - 1]);
    }
  }

  lemma HandleSame(s: Server, l: nat, eof: bool)
    requires Inv(s) && Enabled(s, Handle(l, eof))
    ensures var item, s' := s.loops[l].active[0], Next(s, Handle(l, eof));
            && LiveOn(s.conns, item.c, l) && !ConnectionRuns.UrgentHangUp(item.revents)
            && s'.conns == s.conns && |s'.loops| == |s.loops| && (forall d :: SameFor(s, s', d))
            && s'.loops[l].frame == Handling(item.c, CloseCalls(item.revents, eof))
            && forall m :: 0 <= m < |s.loops| && m != l ==> s'.loops[m].frame == s.loops[m].frame
  {
    hide Inv, Alive;
    NextItemIsLive(s, l);
  }

  lemma DispatchTogether(cfg: Connections.Config, w: World, a: Action)
    requires Together(cfg, w) && a.Dispatch? && CanDo(w, a)
    ensures Together(cfg, Do(cfg, w, a))
  {
    hide Reachable, History, Inv, Next, Enabled, CloseCalls, ConnectionRuns.DispatchEvents, WorkClosesLast;
    var l, w' := a.l, Do(cfg, w, a);
    var eof := a.r == Got([]);
    StepReachable(w.server, Handle(l, eof));
    AboutToHandle(w.server, l, eof);
    HandleSame(w.server, l, eof);
    DispatchWork(w.server.loops[l].active[0].revents, a.k, a.r, a.app);
    forall d | d in w'.server.conns ensures ConnOk(cfg, w', d) {
      assert ConnOk(cfg, w, d) && SameFor(w.server, w'.server, d);
    }
    forall m | 0 <= m < |w'.work| ensures WorkOk(w'.server.conns, m, w'.server.loops[m].frame, w'.work[m]) {
      assert WorkOk(w.server.conns, m, w.server.loops[m].frame, w.work[m]);
    }
  }

  lemma AboutToHandle(s: Server, l: nat, eof: bool)
    requires Enabled(s, Handle(l, eof))
    ensures l < |s.loops| && s.loops[l].active != [] && s.loops[l].active[0].ConnItem?
    ensures s.loops[l].frame == NoFrame
  {
  }

  // ----- handlers and calls that do not close -------------------------------------------------------------------

  /** On a connection that is up, such an event keeps it up, and at most half-closes it and turns write
      interest on or off. */
  lemma UpEffect(cfg: Connections.Config, c: Conn, e: Event)
    requires Connections.Inv(c) && Connections.Active(c) && IsHandler(e) && !Closes(e)
    ensures Connections.Enabled(c, e)
    ensures var d := Connections.Step(cfg, c, e);
            && Connections.Active(d) && d.closes == c.closes && d.edges == c.edges
            && (d.state != c.state ==> c.state == Connections.Connected && d.state == Connections.Disconnecting)
            && d.events == WithWriting(c.events, Out in d.events)
  {
    hide Connections.SendInLoop, Connections.HandleWrite;
    ConnectionRuns.StillRegistered(c);
    Connections.StepInv(cfg, c, e);
    if e.SendCall? && c.state == Connections.Connected {
      SendKeepsReports(cfg, c.(accepted := c.accepted + e.data), e.data, e.k);
    }
    if e.Writable? {
      WriteKeepsReports(cfg, c, e.k);
    }
  }

  lemma SendKeepsReports(cfg: Connections.Config, c: Conn, data: seq<byte>, k: WriteChoice)
    ensures var d := Connections.SendInLoop(cfg, c, data, k);
            d.state == c.state && d.closes == c.closes && d.edges == c.edges
  {
  }

  lemma WriteKeepsReports(cfg: Connections.Config, c: Conn, k: WriteChoice)
    ensures var d := Connections.HandleWrite(cfg, c, k);
            d.state == c.state && d.closes == c.closes && d.edges == c.edges
  {
  }

  /** On a connection that is not up, a call of the application changes nothing the server sees. */
  lemma IdleEffect(cfg: Connections.Config, c: Conn, e: Event)
    requires !Connections.Active(c) && IsCall(e)
    ensures Connections.Enabled(c, e)
    ensures var d := Connections.Step(cfg, c, e);
            && d.state == c.state && d.events == c.events && d.closes == c.closes && d.edges == c.edges
            && d.queued == c.queued
  {
  }

  lemma HalfCloseSame(s: Server, c: Id)
    requires Reachable(s) && Enabled(s, HalfClose(c))
    ensures var s' := WithConn(s, c, s.conns[c].(state := Connections.Disconnecting));
            && Reachable(s') && OthersSame(s, s', c) && Steady(s, s') && s'.conns.Keys == s.conns.Keys
            && Known(s', c) && ChanOf(s', c) == ChanOf(s, c) && s'.loops == s.loops
  {
    hide Reachable, Inv;
    StepReachable(s, HalfClose(c));
  }

  lemma SetWritingSame(s: Server, l: nat, c: Id, writing: bool)
    requires Reachable(s) && Enabled(s, SetWriting(l, c, writing))
    ensures var events := WithWriting(ChanOf(s, c).events, writing);
            var s' := ChangeMask(s, c, events);
            && Reachable(s') && OthersSame(s, s', c) && Steady(s, s') && s'.conns == s.conns
            && Known(s', c) && ChanOf(s', c).events == events
  {
    hide Reachable, Inv;
    StepReachable(s, SetWriting(l, c, writing));
    MaskChangeSame(s, c, WithWriting(ChanOf(s, c).events, writing));
  }

  /** No pointer to a connection comes or goes. */
  predicate HoldersSame(s: Server, s': Server) {
    && s'.connections == s.connections && s'.held == s.held && |s'.loops| == |s.loops|
    && forall m :: 0 <= m < |s.loops| ==>
         && s'.loops[m].queue == s.loops[m].queue && s'.loops[m].todo == s.loops[m].todo
         && s'.loops[m].done == s.loops[m].done && s'.loops[m].frame == s.loops[m].frame
         && s'.loops[m].activity == s.loops[m].activity
  }

  lemma StaysAlive(s: Server, s': Server, c: Id)
    requires HoldersSame(s, s') && Alive(s, c)
    ensures Alive(s', c)
  {
    if HeldByMap(s, c) {
      assert HeldByMap(s', c);
    } else if c !in s.held {
      var m :| 0 <= m < |s.loops| && HeldByLoop(s.loops[m], c);
      assert HeldByLoop(s'.loops[m], c);
    }
  }

  lemma PushKeepsAlive(s: Server, l: nat, t: Token, c: Id)
    requires l < |s.loops| && Alive(s, c)
    ensures Alive(Push(s, l, t), c)
  {
    var s' := Push(s, l, t);
    if HeldByMap(s, c) {
      assert HeldByMap(s', c);
    } else if c !in s.held {
      var m :| 0 <= m < |s.loops| && HeldByLoop(s.loops[m], c);
      assert forall u :: u in s.loops[m].queue ==> u in s'.loops[m].queue;
      assert HeldByLoop(s'.loops[m], c);
    }
  }

  /** Queueing callbacks of a connection that is alive is some steps of the server. */
  lemma {:induction false} PushCallsSame(s: Server, l: nat, c: Id, n: nat, end: nat)
    requires Reachable(s) && l < |s.loops| && s.loops[l].activity != Polling && Alive(s, c)
    ensures var s' := PushCalls(s, l, c, n, end);
            && Reachable(s') && Steady(s, s') && s'.conns == s.conns && forall d :: SameFor(s, s', d)
    decreases end - n
  {
    if n < end {
      hide Reachable, Inv, Alive, Steady, SameFor;
      var s1 := Push(s, l, UserCall(c, n));
      StepReachable(s, QueueUserCall(l, c, n));
      PushSame(s, l, UserCall(c, n));
      PushKeepsAlive(s, l, UserCall(c, n), c);
      PushCallsSame(s1, l, c, n + 1, end);
      SameTwice(s, s1, PushCalls(s1, l, c, n + 1, end));
    }
  }

  lemma SameTwice(s: Server, s1: Server, s2: Server)
    requires Steady(s, s1) && Steady(s1, s2) && (forall d :: SameFor(s, s1, d)) && (forall d :: SameFor(s1, s2, d))
    ensures Steady(s, s2) && forall d :: SameFor(s, s2, d)
  {
    forall d ensures SameFor(s, s2, d) {
      assert SameFor(s, s1, d) && SameFor(s1, s2, d);
    }
  }

  /** What such an event does to state and mask is one or two steps of the server, or none. */
  lemma MirrorMask(s: Server, l: nat, c: Id, before: Conn, after: Conn) returns (s2: Server)
    requires Reachable(s) && l < |s.loops| && s.loops[l].activity != Polling
    requires Known(s, c) && s.conns[c].loop == l && Match(s.conns[c], ChanOf(s, c), before)
    requires Connections.Active(before) && Connections.Active(after)
    requires after.closes == before.closes && after.edges == before.edges
    requires after.state == before.state
      || (before.state == Connections.Connected && after.state == Connections.Disconnecting)
    requires after.events == WithWriting(before.events, Out in after.events)
    ensures |s2.loops| == |s.loops|
    ensures Mirror(s, c, before, after) == PushCalls(s2, l, c, |before.queued|, |after.queued|)
    ensures Reachable(s2) && OthersSame(s, s2, c) && Steady(s, s2) && s2.conns.Keys == s.conns.Keys
    ensures Known(s2, c) && Match(s2.conns[c], ChanOf(s2, c), after) && HoldersSame(s, s2)
  {
    hide Reachable;
    var s1 := if after.state != before.state then WithConn(s, c, s.conns[c].(state := after.state)) else s;
    if after.state != before.state {
      HalfCloseSame(s, c);
    }
    s2 := if after.events != before.events then ChangeMask(s1, c, after.events) else s1;
    if after.events != before.events {
      SetWritingSame(s1, l, c, Out in after.events);
    }
    assert Known(s1, c) && ChanOf(s1, c).events == before.events && s2.conns == s1.conns;
    assert ChanOf(s2, c).events == after.events;
    assert Edges(s1.conns[c]) == Edges(s.conns[c]);
    forall d | d in s.conns && d != c ensures SameFor(s, s2, d) {
      assert SameFor(s, s1, d) && SameFor(s1, s2, d);
    }
  }

  lemma MirrorSame(s: Server, l: nat, c: Id, before: Conn, after: Conn)
    requires Reachable(s) && l < |s.loops| && s.loops[l].activity != Polling && Alive(s, c)
    requires Known(s, c) && s.conns[c].loop == l && Match(s.conns[c], ChanOf(s, c), before)
    requires Connections.Active(before) && Connections.Active(after)
    requires after.closes == before.closes && after.edges == before.edges
    requires after.state == before.state
      || (before.state == Connections.Connected && after.state == Connections.Disconnecting)
    requires after.events == WithWriting(before.events, Out in after.events)
    ensures var s' := Mirror(s, c, before, after);
            && Reachable(s') && OthersSame(s, s', c) && Steady(s, s') && s'.conns.Keys == s.conns.Keys
            && Known(s', c) && Match(s'.conns[c], ChanOf(s', c), after)
  {
    hide Reachable, Mirror, Alive;
    var s2 := MirrorMask(s, l, c, before, after);
    var s' := Mirror(s, c, before, after);
    StaysAlive(s, s2, c);
    PushCallsSame(s2, l, c, |before.queued|, |after.queued|);
    assert SameFor(s2, s', c);
    forall d | d in s.conns && d != c ensures SameFor(s, s', d) {
      assert SameFor(s, s2, d) && SameFor(s2, s', d);
    }
  }

  /** A live connection takes an event that does not close it. */
  lemma UpTogether(cfg: Connections.Config, w: World, l: nat, c: Id, e: Event)
    requires Together(cfg, w) && c in w.server.conns && IsHandler(e) && !Closes(e)
    requires l < |w.server.loops| && w.server.loops[l].activity != Polling && w.server.conns[c].loop == l
    requires Alive(w.server, c) && c in w.conns && Connections.Active(w.conns[c])
    ensures var w1 := Take(cfg, w, c, e);
            c in w1.conns && Together(cfg, w1.(server := Mirror(w.server, c, w.conns[c], w1.conns[c])))
  {
    hide Reachable, History, Steady, OthersSame, Mirror, WorkOk, Connections.Step, Connections.Enabled, Connections.Inv;
    assert ConnOk(cfg, w, c);
    var before, after := w.conns[c], Connections.Step(cfg, w.conns[c], e);
    HistoryInv(cfg, before, w.events[c]);
    UpEffect(cfg, before, e);
    MirrorSame(w.server, l, c, before, after);
    TakeJoined(cfg, w, Take(cfg, w, c, e).(server := Mirror(w.server, c, before, after)), c, e);
  }

  /** A call on a connection that is not up. */
  lemma IdleTogether(cfg: Connections.Config, w: World, c: Id, e: Event)
    requires Together(cfg, w) && c in w.server.conns && IsCall(e)
    requires c in w.conns && !Connections.Active(w.conns[c])
    ensures var w1 := Take(cfg, w, c, e);
            c in w1.conns && Together(cfg, w1.(server := Mirror(w.server, c, w.conns[c], w1.conns[c])))
  {
    hide Reachable, History, WorkOk, Connections.Step, Connections.Enabled;
    assert ConnOk(cfg, w, c);
    IdleEffect(cfg, w.conns[c], e);
    TakeJoined(cfg, w, Take(cfg, w, c, e), c, e);
  }

  lemma AppCallTogether(cfg: Connections.Config, w: World, l: nat, c: Id, e: Event)
    requires Together(cfg, w) && CanDo(w, AppCall(l, c, e))
    ensures Together(cfg, Do(cfg, w, AppCall(l, c, e)))
  {
    hide Together, Take, Mirror;
    if Connections.Active(w.conns[c]) {
      UpTogether(cfg, w, l, c, e);
    } else {
      IdleTogether(cfg, w, c, e);
    }
  }

  // ----- handlers -----------------------------------------------------------------------------------------------

  lemma HandlerIsLive(cfg: Connections.Config, w: World, l: nat)
    requires Together(cfg, w) && CanDo(w, Handler(l))
    ensures var c := w.server.loops[l].frame.c;
            && LiveOn(w.server.conns, c, l) && w.server.loops[l].activity != Polling
            && WorkClosesLast(w.work[l], w.server.loops[l].frame.closes)
            && ConnOk(cfg, w, c) && Connections.Active(w.conns[c])
            && w.server.conns[c].ups == 1 && w.server.conns[c].downs == 0
  {
    hide Reachable, History, Inv;
    var s, c := w.server, w.server.loops[l].frame.c;
    assert WorkOk(s.conns, l, s.loops[l].frame, w.work[l]);
    ReachableInv(s);
    assert ConnOk(cfg, w, c);
    KnownConn(s, c);
    FrameIsDispatching(s, l);
  }

  lemma FrameIsDispatching(s: Server, l: nat)
    requires Inv(s) && l < |s.loops| && s.loops[l].frame.Handling?
    ensures s.loops[l].activity == Dispatching
  {
    assert LoopOk(s.conns, l, s.loops[l], NoFlight);
  }

  lemma RestOfWork(cfg: Connections.Config, w: World, l: nat)
    requires Together(cfg, w) && CanDo(w, Handler(l)) && !Closes(w.work[l][0])
    ensures Together(cfg, w.(work := w.work[l := w.work[l][1..]]))
  {
    hide Reachable, History;
    var w1 := w.(work := w.work[l := w.work[l][1..]]);
    forall d | d in w1.server.conns ensures ConnOk(cfg, w1, d) {
      assert ConnOk(cfg, w, d);
    }
    forall m | 0 <= m < |w1.work| ensures WorkOk(w1.server.conns, m, w1.server.loops[m].frame, w1.work[m]) {
      assert WorkOk(w.server.conns, m, w.server.loops[m].frame, w.work[m]);
    }
  }

  lemma MatchClosed(cfg: Connections.Config, r: Rec, r': Rec, ch: Chan, ch': Chan, c: Conn, e: Event)
    requires Match(r, ch, c) && r.ups == 1 && r.downs == 0 && Closes(e) && ch'.events == NONE_EVENT
    requires r' == ClosedRec(r).(phase := r'.phase)
    ensures Match(r', ch', Connections.Step(cfg, c, e))
  {
  }

  lemma CloseSame(s: Server, l: nat)
    requires Enabled(s, Close(l)) && s.loops[l].frame.closes == 1
    requires Known(s, s.loops[l].frame.c) && s.conns[s.loops[l].frame.c].loop == l
    ensures var s', c := CloseIn(s, l), s.loops[l].frame.c;
            && s' == Next(s, Close(l))
            && OthersSame(s, s', c) && |s'.loops| == |s.loops| && s'.conns.Keys == s.conns.Keys
            && s'.loops[l].frame == Handling(c, 0)
            && (forall m :: 0 <= m < |s.loops| && m != l ==> s'.loops[m].frame == s.loops[m].frame)
            && (forall d, m :: d != c && LiveOn(s.conns, d, m) ==> LiveOn(s'.conns, d, m))
            && Known(s', c) && ChanOf(s', c).events == NONE_EVENT
            && s'.conns[c] == ClosedRec(s.conns[c]).(phase := s'.conns[c].phase)
  {
    hide SetEvents;
    OtherChansStay(s.loops[l].reg, s.loops[l].frame.c, NONE_EVENT);
  }

  /** The closing connection itself. */
  lemma ClosingConnOk(cfg: Connections.Config, w: World, l: nat)
    requires Together(cfg, w) && CanDo(w, Handler(l)) && Closes(w.work[l][0])
    ensures var w1 := w.(work := w.work[l := w.work[l][1..]]);
            var c := w.server.loops[l].frame.c;
            var w' := Take(cfg, w1, c, w.work[l][0]).(server := CloseIn(w.server, l));
            && ConnOk(cfg, w', c) && w'.work == w1.work
            && w'.conns - {c} == w.conns - {c} && w'.events - {c} == w.events - {c}
  {
    hide Reachable, History, CloseIn, OthersSame, Connections.Step, Connections.Enabled, Connections.Inv;
    var s, c, e := w.server, w.server.loops[l].frame.c, w.work[l][0];
    HandlerIsLive(cfg, w, l);
    HistoryInv(cfg, w.conns[c], w.events[c]);
    ClosingIsEnabled(w.conns[c], e);
    CloseSame(s, l);
    var s' := CloseIn(s, l);
    var w1 := w.(work := w.work[l := w.work[l][1..]]);
    MatchClosed(cfg, s.conns[c], s'.conns[c], ChanOf(s, c), ChanOf(s', c), w.conns[c], e);
    TakeConnOk(cfg, w1, Take(cfg, w1, c, e).(server := s'), c, e);
  }

  /** The dispatch is over, and no other dispatch is of that connection. */
  lemma ClosingWorkOk(cfg: Connections.Config, w: World, l: nat, m: nat)
    requires Together(cfg, w) && CanDo(w, Handler(l)) && Closes(w.work[l][0]) && m < |w.work|
    ensures m < |CloseIn(w.server, l).loops| == |w.work|
    ensures var s' := CloseIn(w.server, l);
            WorkOk(s'.conns, m, s'.loops[m].frame, w.work[l := w.work[l][1..]][m])
  {
    hide Reachable, ConnOk, CloseIn, OthersSame;
    HandlerIsLive(cfg, w, l);
    ConnIsKnown(cfg, w, w.server.loops[l].frame.c);
    CloseSame(w.server, l);
    assert WorkOk(w.server.conns, m, w.server.loops[m].frame, w.work[m]);
  }

  lemma ConnIsKnown(cfg: Connections.Config, w: World, c: Id)
    requires ConnOk(cfg, w, c)
    ensures Known(w.server, c)
  {
  }

  lemma ClosingSame(cfg: Connections.Config, w: World, l: nat)
    requires Together(cfg, w) && CanDo(w, Handler(l)) && Closes(w.work[l][0])
    ensures var s, s' := w.server, CloseIn(w.server, l);
            && Reachable(s') && OthersSame(s, s', s.loops[l].frame.c) && s'.conns.Keys == s.conns.Keys
            && |s'.loops| == |s.loops|
  {
    hide Reachable, ConnOk, CloseIn, OthersSame;
    HandlerIsLive(cfg, w, l);
    ConnIsKnown(cfg, w, w.server.loops[l].frame.c);
    CloseSame(w.server, l);
    StepReachable(w.server, Close(l));
  }

  lemma CloseTogether(cfg: Connections.Config, w: World, l: nat)
    requires Together(cfg, w) && CanDo(w, Handler(l)) && Closes(w.work[l][0])
    ensures Together(cfg, Do(cfg, w, Handler(l)))
  {
    hide Reachable, OthersSame, CloseIn, Take, ConnOk, WorkOk;
    var c := w.server.loops[l].frame.c;
    var w' := Do(cfg, w, Handler(l));
    ClosingSame(cfg, w, l);
    ClosingConnOk(cfg, w, l);
    OthersStay(cfg, w, w', c);
    forall d | d in w'.server.conns ensures ConnOk(cfg, w', d) {
      assert d in w.server.conns;
    }
    forall m | 0 <= m < |w'.work| ensures WorkOk(w'.server.conns, m, w'.server.loops[m].frame, w'.work[m]) {
      ClosingWorkOk(cfg, w, l, m);
    }
  }

  lemma ClosingIsEnabled(c: Conn, e: Event)
    requires Connections.Inv(c) && Connections.Active(c) && Closes(e)
    ensures Connections.Enabled(c, e) && !e.Destroy?
  {
    ConnectionRuns.StillRegistered(c);
  }

  lemma HandlerTogether(cfg: Connections.Config, w: World, l: nat)
    requires Together(cfg, w) && CanDo(w, Handler(l))
    ensures Together(cfg, Do(cfg, w, Handler(l)))
  {
    hide Together, Take, Mirror, CloseIn, ConnOk;
    var c, e := w.server.loops[l].frame.c, w.work[l][0];
    if Closes(e) {
      CloseTogether(cfg, w, l);
    } else {
      HandlerIsLive(cfg, w, l);
      RestOfWork(cfg, w, l);
      UpTogether(cfg, w.(work := w.work[l := w.work[l][1..]]), l, c, e);
    }
  }

  // ----- all actions, and runs of them ----------------------------------------------------------------------------

  lemma DoTogether(cfg: Connections.Config, w: World, a: Action)
    requires Together(cfg, w) && CanDo(w, a)
    ensures Together(cfg, Do(cfg, w, a))
  {
    hide Together;
    match a
    case Plain(step) =>
      if step.Accept? {
        AcceptTogether(cfg, w, step.fd);
      } else if step.RunToken? {
        RunTokenTogether(cfg, w, step.l);
      } else {
        PlainTogether(cfg, w, step);
      }
    case Dispatch(_, _, _, _) => DispatchTogether(cfg, w, a);
    case Handler(l) => HandlerTogether(cfg, w, l);
    case AppCall(l, c, e) => AppCallTogether(cfg, w, l, c, e);
  }

  ghost predicate AllCanBeDone(cfg: Connections.Config, w: World, actions: seq<Action>)
    decreases |actions|
  {
    actions != [] ==> CanDo(w, actions[0]) && AllCanBeDone(cfg, Do(cfg, w, actions[0]), actions[1..])
  }

  ghost function DoAll(cfg: Connections.Config, w: World, actions: seq<Action>): World
    requires AllCanBeDone(cfg, w, actions)
    decreases |actions|
  {
    if actions == [] then w else DoAll(cfg, Do(cfg, w, actions[0]), actions[1..])
  }

  function StartedWorld(name: string, address: ConnNames.Address, subLoops: nat): World {
    World(Started(name, address, subLoops), map[], map[], seq(subLoops + 1, _ => []))
  }

  lemma {:induction false} DoAllTogether(cfg: Connections.Config, w: World, actions: seq<Action>)
    requires Together(cfg, w) && AllCanBeDone(cfg, w, actions)
    ensures Together(cfg, DoAll(cfg, w, actions))
    decreases |actions|
  {
    hide Together;
    if actions != [] {
      DoTogether(cfg, w, actions[0]);
      DoAllTogether(cfg, Do(cfg, w, actions[0]), actions[1..]);
    }
  }

  lemma StartedTogether(cfg: Connections.Config, name: string, address: ConnNames.Address, subLoops: nat)
    requires ConnNames.ValidAddress(address)
    ensures Together(cfg, StartedWorld(name, address, subLoops))
  {
    var s := StartedWorld(name, address, subLoops).server;
    assert Legal(s, []) && AllCalm([]) && Run(s, []) == s;
  }

  /** In every interleaving of the loops, with connections that read, write and half-close as they do: the
      server goes through a run of its own, every connection through a legal run of Connections, in which
      connectDestroyed comes after the close, and the two agree on state, interest mask and reports. */
  lemma ServerRunsConnections(cfg: Connections.Config, name: string, address: ConnNames.Address, subLoops: nat,
                              actions: seq<Action>)
    requires ConnNames.ValidAddress(address) && AllCanBeDone(cfg, StartedWorld(name, address, subLoops), actions)
    ensures var w := DoAll(cfg, StartedWorld(name, address, subLoops), actions);
            && Reachable(w.server)
            && forall c :: c in w.server.conns ==>
                 && Known(w.server, c) && c in w.conns && c in w.events
                 && Match(w.server.conns[c], ChanOf(w.server, c), w.conns[c])
                 && Connections.Legal(cfg, Connections.FRESH, w.events[c])
                 && Connections.Run(cfg, Connections.FRESH, w.events[c]) == w.conns[c]
                 && DestroyedWhenClosed(cfg, w.events[c])
  {
    var w := StartedWorld(name, address, subLoops);
    StartedTogether(cfg, name, address, subLoops);
    DoAllTogether(cfg, w, actions);
    forall c | c in DoAll(cfg, w, actions).server.conns ensures ConnOk(cfg, DoAll(cfg, w, actions), c) {
    }
  }
}
