/** src/TcpServer.cpp with the parts of TcpConnection, EventLoop and EPollPoller it drives: the life of
    connections across the base loop (number 0) and its sub-loops, as an interleaving of the steps of
    all loop threads.

    A step ends where another thread can see its effect: at a push onto a queue, at the swap of a queue,
    at the release of a shared pointer.  With no sub-loops everything runs on loop 0 and runInLoop calls
    the functor at once; otherwise it queues. */
module TcpServers {
  import opened Kernel
  import opened Registration
  import opened Connections
  import ConnectionRuns
  import ConnNames
  import ThreadPools

  type Id = nat

  /** nextConnId_ starts at 1. */
  type NextId = n: nat | n >= 1 witness 1

  /** The functors that concern a connection.  UserCall is its n-th write-complete or high-water callback.
      OffLoopCall is a sendInLoop or shutdownInLoop queued by another thread; it binds a raw pointer and so
      holds nothing. */
  datatype Token =
    | Established(c: Id)
    | RemoveInLoop(c: Id)
    | Destroyed(c: Id)
    | UserCall(c: Id, n: nat)
    | OffLoopCall(c: Id)

  /** The functors that carry a connection through its life. */
  predicate Carries(t: Token) {
    t.Established? || t.RemoveInLoop? || t.Destroyed?
  }

  /** History: how far the life of a connection has come. */
  datatype Phase = EstablishQueued | Live | RemoveQueued | DestroyQueued | Gone

  /** `established`, `ups`, `downs`, `closes` and `destroyed` count the runs of connectEstablished, of the
      connection callback, of handleClose and of connectDestroyed. */
  datatype Rec = Rec(loop: nat, fd: int, name: string, state: State, phase: Phase,
                     established: nat, ups: nat, downs: nat, closes: nat, destroyed: nat)

  /** An entry of activeChannels_. */
  datatype Item = ConnItem(revents: Mask, c: Id) | AcceptItem

  /** The channel being handled, whose connection is guarded, and the handleClose calls still ahead. */
  datatype Frame = NoFrame | Handling(c: Id, closes: nat)

  datatype Activity = Polling | Dispatching | Running

  datatype Loop = Loop(
    activity: Activity,
    active: seq<Item>,
    frame: Frame,
    queue: seq<Token>,       // pendingFunctors_
    todo: seq<Token>,        // functors swapped out and not run yet
    done: seq<Token>,        // functors run but still held by the batch
    reg: Registry<Id>)

  /** `held` are connections the application keeps a pointer to.  `misses` counts channels dispatched
      after their connection had been destroyed, `overwrites` entries of connections_ lost to a new one. */
  datatype Server = Server(
    name: string,
    address: ConnNames.Address,
    loops: seq<Loop>,        // the base loop, then the sub-loops
    conns: map<Id, Rec>,
    connections: map<string, Id>,
    nextId: NextId,
    held: set<Id>,
    misses: nat,
    overwrites: nat)

  const IDLE_LOOP: Loop := Loop(Polling, [], NoFrame, [], [], [], Registry(map[], map[], map[], []))

  function Started(name: string, address: ConnNames.Address, subLoops: nat): Server {
    Server(name, address, seq(subLoops + 1, _ => IDLE_LOOP), map[], map[], 1, {}, 0, 0)
  }

  // ----- who keeps a connection alive ---------------------------------------------------------------

  ghost predicate Mentions(q: seq<Token>, c: Id) {
    exists t :: t in q && t.c == c && !t.OffLoopCall?
  }

  ghost predicate HeldByLoop(l: Loop, c: Id) {
    || Mentions(l.queue, c) || Mentions(l.todo, c) || Mentions(l.done, c)
    || (l.frame.Handling? && l.frame.c == c)
  }

  ghost predicate HeldByMap(s: Server, c: Id) {
    exists n :: n in s.connections && s.connections[n] == c
  }

  /** Some shared pointer to the connection exists.  The destructor runs, and closes the descriptor, when
      this becomes false. */
  ghost predicate Alive(s: Server, c: Id) {
    || HeldByMap(s, c)
    || c in s.held
    || exists l :: 0 <= l < |s.loops| && HeldByLoop(s.loops[l], c)
  }

  // ----- the steps ----------------------------------------------------------------------------------

  function WithLoop(s: Server, l: nat, loop: Loop): Server
    requires l < |s.loops|
  {
    s.(loops := s.loops[l := loop])
  }

  function WithConn(s: Server, c: Id, r: Rec): Server {
    s.(conns := s.conns[c := r])
  }

  /** The connection exists and so do its loop and its channel. */
  predicate Known(s: Server, c: Id) {
    && c in s.conns
    && s.conns[c].loop < |s.loops|
    && c in s.loops[s.conns[c].loop].reg.chans
  }

  function Push(s: Server, l: nat, t: Token): Server
    requires l < |s.loops|
  {
    WithLoop(s, l, s.loops[l].(queue := s.loops[l].queue + [t]))
  }

  function ChangeMask(s: Server, c: Id, events: Mask): Server
    requires Known(s, c)
  {
    var l := s.conns[c].loop;
    WithLoop(s, l, s.loops[l].(reg := SetEvents(s.loops[l].reg, c, events)))
  }

  /** What connectEstablished, shutdown() and handleClose make of a connection. */
  function EstablishedRec(r: Rec): Rec {
    r.(state := Connected, phase := Live, established := r.established + 1, ups := r.ups + 1)
  }

  function HalfClosed(r: Rec): Rec {
    r.(state := Disconnecting)
  }

  function ClosedRec(r: Rec): Rec {
    r.(state := Disconnected, phase := RemoveQueued, downs := r.downs + 1, closes := r.closes + 1)
  }

  /** What connectDestroyed makes of it: DOWN is reported if that has not happened yet. */
  function DestroyedRec(r: Rec): Rec {
    var up := r.state == Connected;
    r.(phase := Gone, destroyed := r.destroyed + 1,
       state := if up then Disconnected else r.state, downs := r.downs + if up then 1 else 0)
  }

  /** TcpConnection::connectEstablished. */
  function EstablishNow(s: Server, c: Id): Server {
    if !Known(s, c) then s
    else
      var r := s.conns[c];
      ChangeMask(WithConn(s, c, EstablishedRec(r)), c, s.loops[r.loop].reg.chans[c].events + READ_EVENT)
  }

  /** TcpServer::removeConnectionInLoop. */
  function RemoveNow(s: Server, c: Id): Server {
    if !Known(s, c) then s
    else
      var r := s.conns[c];
      var s1 := WithConn(s, c, r.(phase := DestroyQueued)).(connections := s.connections - {r.name});
      Push(s1, r.loop, Destroyed(c))
  }

  /** TcpConnection::connectDestroyed. */
  function DestroyNow(s: Server, c: Id): Server {
    if !Known(s, c) then s
    else
      var r := s.conns[c];
      var l := r.loop;
      var reg := s.loops[l].reg;
      var reg1 := if r.state == Connected then SetEvents(reg, c, NONE_EVENT) else reg;
      WithLoop(WithConn(s, c, DestroyedRec(r)), l, s.loops[l].(reg := RemoveChannel(reg1, c)))
  }

  /** TcpConnection::handleClose up to the close callback. */
  function CloseNow(s: Server, c: Id): Server {
    if !Known(s, c) then s
    else
      ChangeMask(WithConn(s, c, ClosedRec(s.conns[c])), c, NONE_EVENT)
  }

  /** enableWriting and disableWriting. */
  function WithWriting(events: Mask, writing: bool): Mask {
    if writing then events + WRITE_EVENT else events - WRITE_EVENT
  }

  /** TcpServer::removeConnection, called on the thread of loop `l`. */
  function RemoveConnection(s: Server, l: nat, c: Id): Server
    requires |s.loops| > 0
  {
    if l == 0 then RemoveNow(s, c) else Push(s, 0, RemoveInLoop(c))
  }

  /** The handleClose calls in one dispatch; `eof` says whether a read finds the end of the stream. */
  function CloseCalls(revents: Mask, eof: bool): nat {
    (if (In in revents || Pri in revents) && eof then 1 else 0)
    + (if Hup in revents && In !in revents then 1 else 0)
  }

  datatype Step =
    | Poll(l: nat, items: seq<Item>)
    | Accept(fd: int)
    | AcceptFails                    // accept(2) returns an error
    | Handle(l: nat, eof: bool)      // Channel::handleEvent takes the guard
    | Close(l: nat)                  // handleClose inside it
    | EndHandle(l: nat)              // the guard is released
    | SetWriting(l: nat, c: Id, writing: bool)
    | HalfClose(c: Id)               // shutdown() sets the state, on whatever thread
    | LateSet(c: Id)                 // ... and sets it when the connection has been closed since its check
    | QueueUserCall(l: nat, c: Id, n: nat)
    | QueueOffLoopCall(c: Id)        // another thread queues sendInLoop or shutdownInLoop
    | Swap(l: nat)
    | RunToken(l: nat)
    | EndBatch(l: nat)               // the batch and the pointers in it are released
    | Hold(c: Id)
    | Drop(c: Id)

  /** What one wait may return. */
  ghost predicate PollMayReturn(s: Server, l: nat, items: seq<Item>)
    requires l < |s.loops|
  {
    && (forall i :: 0 <= i < |items| && items[i].AcceptItem? ==> l == 0)
    && (forall i :: 0 <= i < |items| && items[i].ConnItem? ==>
         Reported(s.loops[l].reg, items[i].revents, items[i].c))
    && (forall i, j :: 0 <= i < j < |items| && items[i].ConnItem? && items[j].ConnItem? ==> items[i].c != items[j].c)
  }

  /** No wait reports an urgent hang-up, and no shutdown() is raced by a close between its check of the
      state and its set. */
  predicate Calm(step: Step) {
    && !step.LateSet?
    && (step.Poll? ==> forall i :: 0 <= i < |step.items| && step.items[i].ConnItem? ==>
      !ConnectionRuns.UrgentHangUp(step.items[i].revents))
  }

  /** The accept channel is the next to be handled on the base loop. */
  predicate AcceptsNext(s: Server) {
    && |s.loops| > 0 && s.loops[0].activity == Dispatching && s.loops[0].frame == NoFrame
    && s.loops[0].active != [] && s.loops[0].active[0].AcceptItem?
  }

  ghost predicate Enabled(s: Server, step: Step) {
    match step
    case Poll(l, items) => l < |s.loops| && s.loops[l].activity == Polling && PollMayReturn(s, l, items)
    case Accept(fd) =>
      && AcceptsNext(s) && s.nextId < ConnNames.INT_MAX
      && (forall c :: c in s.conns && Alive(s, c) ==> s.conns[c].fd != fd)
    case AcceptFails => AcceptsNext(s)
    case Handle(l, _) =>
      && l < |s.loops| && s.loops[l].activity == Dispatching && s.loops[l].frame == NoFrame
      && s.loops[l].active != [] && s.loops[l].active[0].ConnItem?
    case Close(l) => l < |s.loops| && s.loops[l].frame.Handling? && s.loops[l].frame.closes > 0
    case EndHandle(l) => l < |s.loops| && s.loops[l].frame.Handling? && s.loops[l].frame.closes == 0
    case SetWriting(l, c, _) =>
      && l < |s.loops| && s.loops[l].activity != Polling && Known(s, c) && s.conns[c].loop == l
      && (s.conns[c].state == Connected || s.conns[c].state == Disconnecting)
    case HalfClose(c) => Known(s, c) && s.conns[c].state == Connected
    case LateSet(c) => Known(s, c) && s.conns[c].state == Disconnected
    case QueueOffLoopCall(c) => Known(s, c) && s.conns[c].state != Connecting
    case QueueUserCall(l, c, _) => l < |s.loops| && s.loops[l].activity != Polling && Alive(s, c)
    case Swap(l) =>
      && l < |s.loops| && s.loops[l].activity == Dispatching
      && s.loops[l].active == [] && s.loops[l].frame == NoFrame
    case RunToken(l) => l < |s.loops| && s.loops[l].activity == Running && s.loops[l].todo != []
    case EndBatch(l) => l < |s.loops| && s.loops[l].activity == Running && s.loops[l].todo == []
    case Hold(c) => Alive(s, c)
    case Drop(c) => c in s.held
  }

  /** The connection the server creates next, on the loop the pool picks. */
  function NewRec(s: Server, fd: int): (r: Rec)
    requires |s.loops| > 0
    ensures r.loop < |s.loops|
  {
    var l := ThreadPools.LoopOfCall(|s.loops| - 1, s.nextId - 1);
    Rec(l, fd, ConnNames.ConnName(s.name, ConnNames.IpPort(s.address), s.nextId), Connecting,
        EstablishQueued, 0, 0, 0, 0, 0)
  }

  /** newConnection before connectEstablished is run or queued. */
  function Admitted(s: Server, fd: int): Server
    requires |s.loops| > 0
  {
    var id, r := s.nextId, NewRec(s, fd);
    var s1 := WithConn(s, id, r).(
      nextId := id + 1, connections := s.connections[r.name := id],
      overwrites := s.overwrites + if r.name in s.connections then 1 else 0);
    WithLoop(s1, r.loop, s.loops[r.loop].(reg := Introduce(s.loops[r.loop].reg, id, fd)))
  }

  /** TcpServer::newConnection. */
  function NewConnection(s: Server, fd: int): Server
    requires |s.loops| > 0
  {
    var id, l := s.nextId, NewRec(s, fd).loop;
    if l == 0 then EstablishNow(Admitted(s, fd), id) else Push(Admitted(s, fd), l, Established(id))
  }

  /** The accept channel has been taken off the active list. */
  function Accepting(s: Server): Server
    requires AcceptsNext(s)
  {
    WithLoop(s, 0, s.loops[0].(active := s.loops[0].active[1..]))
  }

  /** The next functor of the batch is about to run; the batch still holds it. */
  function Popped(loop: Loop): Loop
    requires loop.todo != []
  {
    loop.(todo := loop.todo[1..], done := loop.done + [loop.todo[0]])
  }

  /** A functor of the batch, on the thread of loop `l`. */
  function Execute(s: Server, t: Token): Server {
    match t
    case Established(c) => EstablishNow(s, c)
    case RemoveInLoop(c) => RemoveNow(s, c)
    case Destroyed(c) => DestroyNow(s, c)
    case UserCall(_, _) => s
    case OffLoopCall(_) => s
  }

  ghost function Next(s: Server, step: Step): Server
    requires Enabled(s, step)
  {
    match step
    case Poll(l, items) => WithLoop(s, l, s.loops[l].(activity := Dispatching, active := items))
    case Accept(fd) => NewConnection(Accepting(s), fd)
    case AcceptFails => Accepting(s)
    case Handle(l, eof) =>
      var item := s.loops[l].active[0];
      var loop := s.loops[l].(active := s.loops[l].active[1..]);
      if Alive(s, item.c) then
        WithLoop(s, l, loop.(frame := Handling(item.c, CloseCalls(item.revents, eof))))
      else
        WithLoop(s, l, loop).(misses := s.misses + 1)
    case Close(l) =>
      var c := s.loops[l].frame.c;
      var s1 := WithLoop(s, l, s.loops[l].(frame := Handling(c, s.loops[l].frame.closes - 1)));
      RemoveConnection(CloseNow(s1, c), l, c)
    case EndHandle(l) => WithLoop(s, l, s.loops[l].(frame := NoFrame))
    case SetWriting(_, c, writing) =>
      ChangeMask(s, c, WithWriting(s.loops[s.conns[c].loop].reg.chans[c].events, writing))
    case HalfClose(c) => WithConn(s, c, HalfClosed(s.conns[c]))
    case LateSet(c) => WithConn(s, c, HalfClosed(s.conns[c]))
    case QueueUserCall(l, c, n) => Push(s, l, UserCall(c, n))
    case QueueOffLoopCall(c) => Push(s, s.conns[c].loop, OffLoopCall(c))
    case Swap(l) =>
      WithLoop(s, l, s.loops[l].(activity := Running, todo := s.loops[l].queue, queue := []))
    case RunToken(l) =>
      Execute(WithLoop(s, l, Popped(s.loops[l])), s.loops[l].todo[0])
    case EndBatch(l) => WithLoop(s, l, s.loops[l].(activity := Polling, done := []))
    case Hold(c) => s.(held := s.held + {c})
    case Drop(c) => s.(held := s.held - {c})
  }

  ghost predicate Legal(s: Server, steps: seq<Step>)
    decreases |steps|
  {
    steps != [] ==> Enabled(s, steps[0]) && Legal(Next(s, steps[0]), steps[1..])
  }

  ghost function Run(s: Server, steps: seq<Step>): Server
    requires Legal(s, steps)
    decreases |steps|
  {
    if steps == [] then s else Run(Next(s, steps[0]), steps[1..])
  }
}
