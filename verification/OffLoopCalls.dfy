/** send() and shutdown() called from threads other than the connection's own.

    Both read state_ on the calling thread and queue the rest to the loop; shutdown() also sets the state
    there.  Between its check, its set and its push the loop thread and other callers may do anything.
    What runs on the loop is what Connections says.  Everything proved here holds in every interleaving,
    races included. */
module OffLoopCalls {
  import opened Kernel
  import opened Connections
  import opened ConnectionRuns

  datatype Functor = SendFunctor(data: seq<byte>) | ShutdownFunctor

  /** `checked` counts the callers of shutdown() that have seen kConnected and not set the state yet;
      `owed` holds the functors whose callers have still to push them; `queue` those pushed, in the order
      the lock was taken.  `dropped` is history: the bytes of queued sends that ran after the close. */
  datatype World = World(
    conn: Conn,
    checked: nat,
    owed: multiset<Functor>,
    queue: seq<Functor>,
    dropped: seq<byte>)

  datatype Step =
    | OnLoop(e: Event)          // anything the loop thread does by itself
    | CallSend(data: seq<byte>) // send() elsewhere sees kConnected
    | CallShutdown              // shutdown() elsewhere sees kConnected
    | SetState                  // ... and sets kDisconnecting
    | Push(f: Functor)          // queueInLoop
    | RunFunctor(k: WriteChoice)

  predicate Possible(w: World, step: Step) {
    match step
    case OnLoop(e) => Connections.Enabled(w.conn, e)
    case CallSend(_) => w.conn.state == Connected
    case CallShutdown => w.conn.state == Connected
    case SetState => w.checked > 0
    case Push(f) => f in w.owed
    case RunFunctor(_) => w.queue != []
  }

  /** sendInLoop from the queue; after the close its bytes are dropped. */
  function RunSend(cfg: Config, w: World, data: seq<byte>, k: WriteChoice): World {
    if w.conn.state == Disconnected then w.(dropped := w.dropped + data)
    else w.(conn := SendInLoop(cfg, w.conn.(accepted := w.conn.accepted + data), data, k))
  }

  function Next(cfg: Config, w: World, step: Step): World
    requires Possible(w, step)
  {
    match step
    case OnLoop(e) => w.(conn := Connections.Step(cfg, w.conn, e))
    case CallSend(data) => w.(owed := w.owed + multiset{SendFunctor(data)})
    case CallShutdown => w.(checked := w.checked + 1)
    case SetState =>
      w.(conn := w.conn.(state := Disconnecting), checked := w.checked - 1, owed := w.owed + multiset{ShutdownFunctor})
    case Push(f) => w.(owed := w.owed - multiset{f}, queue := w.queue + [f])
    case RunFunctor(k) =>
      var popped := w.(queue := w.queue[1..]);
      match w.queue[0]
      case SendFunctor(data) => RunSend(cfg, popped, data, k)
      case ShutdownFunctor => popped.(conn := ShutdownInLoop(w.conn))
  }

  const START: World := World(FRESH, 0, multiset{}, [], [])

  /** `ws` are the states a run goes through, from a fresh connection. */
  ghost predicate IsTrace(cfg: Config, ws: seq<World>, steps: seq<Step>) {
    && |ws| == |steps| + 1 && ws[0] == START
    && forall i :: 0 <= i < |steps| ==> Follows(cfg, ws[i], steps[i], ws[i + 1])
  }

  ghost predicate Follows(cfg: Config, w: World, step: Step, w': World) {
    Possible(w, step) && w' == Next(cfg, w, step)
  }

  /** A queued send runs. */
  predicate RunsSend(w: World, step: Step) {
    step.RunFunctor? && w.queue != [] && w.queue[0].SendFunctor?
  }

  /** A queued shutdownInLoop runs. */
  predicate RunsShutdown(w: World, step: Step) {
    step.RunFunctor? && w.queue != [] && w.queue[0] == ShutdownFunctor
  }

  // ----- every call runs once ---------------------------------------------------------------------------

  /** The functors that calls on other threads have made necessary. */
  function Called(steps: seq<Step>, n: nat): multiset<Functor>
    requires n <= |steps|
  {
    if n == 0 then multiset{}
    else Called(steps, n - 1) + CalledBy(steps[n - 1])
  }

  function CalledBy(step: Step): multiset<Functor> {
    match step
    case CallSend(data) => multiset{SendFunctor(data)}
    case SetState => multiset{ShutdownFunctor}
    case _ => multiset{}
  }

  /** The functors pushed, in the order the lock was taken. */
  function Pushed(steps: seq<Step>, n: nat): seq<Functor>
    requires n <= |steps|
  {
    if n == 0 then [] else Pushed(steps, n - 1) + PushedBy(steps[n - 1])
  }

  function PushedBy(step: Step): seq<Functor> {
    if step.Push? then [step.f] else []
  }

  /** The functors run, in order. */
  function Ran(ws: seq<World>, steps: seq<Step>, n: nat): seq<Functor>
    requires n <= |steps| <= |ws|
  {
    if n == 0 then [] else Ran(ws, steps, n - 1) + RanBy(ws[n - 1], steps[n - 1])
  }

  function RanBy(w: World, step: Step): seq<Functor> {
    if step.RunFunctor? && w.queue != [] then [w.queue[0]] else []
  }

  lemma StepQueue(cfg: Config, w: World, step: Step)
    requires Possible(w, step)
    ensures w.queue + PushedBy(step) == RanBy(w, step) + Next(cfg, w, step).queue
  {
    hide SendInLoop, ShutdownInLoop, Connections.Step, Connections.Enabled, CalledBy;
  }

  lemma StepOwed(cfg: Config, w: World, step: Step)
    requires Possible(w, step)
    ensures w.owed + CalledBy(step) == Next(cfg, w, step).owed + multiset(PushedBy(step))
  {
    hide SendInLoop, ShutdownInLoop, Connections.Step, Connections.Enabled, RanBy;
    match step
    case OnLoop(_) =>
    case CallSend(data) => assert Next(cfg, w, step).owed == w.owed + multiset{SendFunctor(data)};
    case CallShutdown =>
    case SetState => assert Next(cfg, w, step).owed == w.owed + multiset{ShutdownFunctor};
    case Push(f) => Unowe(w.owed, f);
    case RunFunctor(_) =>
  }

  lemma Unowe<T>(owed: multiset<T>, f: T)
    requires f in owed
    ensures owed + multiset{} == (owed - multiset{f}) + multiset([f])
  {
  }

  lemma {:induction false} FirstInFirstOut(cfg: Config, ws: seq<World>, steps: seq<Step>, n: nat)
    requires IsTrace(cfg, ws, steps) && n <= |steps|
    ensures Pushed(steps, n) == Ran(ws, steps, n) + ws[n].queue
  {
    hide Next, Possible, PushedBy, RanBy;
    if n > 0 {
      var w, w', step := ws[n - 1], ws[n], steps[n - 1];
      FirstInFirstOut(cfg, ws, steps, n - 1);
      assert Follows(cfg, w, step, w');
      StepQueue(cfg, w, step);
      Requeued(Ran(ws, steps, n - 1), w.queue, PushedBy(step), RanBy(w, step), w'.queue);
      assert Pushed(steps, n) == Pushed(steps, n - 1) + PushedBy(step);
      assert Ran(ws, steps, n) == Ran(ws, steps, n - 1) + RanBy(w, step);
    }
  }

  lemma {:induction false} OwedOrPushed(cfg: Config, ws: seq<World>, steps: seq<Step>, n: nat)
    requires IsTrace(cfg, ws, steps) && n <= |steps|
    ensures Called(steps, n) == ws[n].owed + multiset(Pushed(steps, n))
  {
    hide Next, Possible, PushedBy, CalledBy;
    if n > 0 {
      OwedOrPushed(cfg, ws, steps, n - 1);
      assert Follows(cfg, ws[n - 1], steps[n - 1], ws[n]);
      StepOwed(cfg, ws[n - 1], steps[n - 1]);
      var before, pushed := multiset(Pushed(steps, n - 1)), PushedBy(steps[n - 1]);
      assert multiset(Pushed(steps, n)) == before + multiset(pushed);
      Reowed(Called(steps, n - 1), ws[n - 1].owed, before, CalledBy(steps[n - 1]), ws[n].owed, multiset(pushed));
    }
  }

  lemma Reowed<T>(called: multiset<T>, owed: multiset<T>, before: multiset<T>, call: multiset<T>,
                  owed': multiset<T>, pushed: multiset<T>)
    requires called == owed + before && owed + call == owed' + pushed
    ensures called + call == owed' + (before + pushed)
  {
    assert owed + before + call == (owed + call) + before;
  }

  /** Conservation: every call elsewhere is owed, queued or run, and exactly once; the queue is first in,
      first out. */
  lemma CallsRunOnce(cfg: Config, ws: seq<World>, steps: seq<Step>, n: nat)
    requires IsTrace(cfg, ws, steps) && n <= |steps|
    ensures Pushed(steps, n) == Ran(ws, steps, n) + ws[n].queue
    ensures Called(steps, n) == ws[n].owed + multiset(ws[n].queue) + multiset(Ran(ws, steps, n))
  {
    FirstInFirstOut(cfg, ws, steps, n);
    OwedOrPushed(cfg, ws, steps, n);
  }

  lemma Requeued<T>(ran: seq<T>, queue: seq<T>, pushed: seq<T>, next: seq<T>, queue': seq<T>)
    requires queue + pushed == next + queue'
    ensures (ran + queue) + pushed == (ran + next) + queue'
  {
    assert (ran + queue) + pushed == ran + (queue + pushed);
    assert (ran + next) + queue' == ran + (next + queue');
  }

  // ----- the stream -------------------------------------------------------------------------------------

  /** The bytes a step hands to sendInLoop, whether or not it takes them on. */
  function HandedBy(w: World, step: Step): seq<byte> {
    if step.OnLoop? && step.e.SendCall? && w.conn.state == Connected then step.e.data
    else if RunsSend(w, step) then w.queue[0].data
    else []
  }

  function Handed(ws: seq<World>, steps: seq<Step>, n: nat): seq<byte>
    requires n <= |steps| <= |ws|
  {
    if n == 0 then [] else Handed(ws, steps, n - 1) + HandedBy(ws[n - 1], steps[n - 1])
  }

  /** Those of them that it takes on, which it does unless the connection has closed. */
  function Taken(ws: seq<World>, steps: seq<Step>, n: nat): seq<byte>
    requires n <= |steps| <= |ws|
  {
    if n == 0 then [] else Taken(ws, steps, n - 1) + TakenBy(ws[n - 1], steps[n - 1])
  }

  function TakenBy(w: World, step: Step): seq<byte> {
    if w.conn.state == Disconnected then [] else HandedBy(w, step)
  }

  /** The rest. */
  function Dropped(ws: seq<World>, steps: seq<Step>, n: nat): seq<byte>
    requires n <= |steps| <= |ws|
  {
    if n == 0 then [] else Dropped(ws, steps, n - 1) + DroppedBy(ws[n - 1], steps[n - 1])
  }

  function DroppedBy(w: World, step: Step): seq<byte> {
    if w.conn.state == Disconnected then HandedBy(w, step) else []
  }

  ghost predicate StreamOk(c: Conn) {
    if c.lost then (c.stream.broken || c.stream.shutWr > 0) && c.stream.wire <= c.accepted
    else c.stream.wire + c.output == c.accepted
  }

  lemma SendKeepsStream(cfg: Config, c: Conn, data: seq<byte>, k: WriteChoice)
    requires StreamOk(c) && c.state != Disconnected
    ensures var d := SendInLoop(cfg, c.(accepted := c.accepted + data), data, k);
            StreamOk(d) && d.accepted == c.accepted + data
  {
    if c.lost {
      assert c.stream.wire <= c.accepted + data;
    } else if !IsWriting(c) && c.output == [] {
      var (s, r) := WriteStream(c.stream, data, k);
      assert c.stream.wire == c.accepted;
      if r.Wrote? {
        assert data[..r.n] + data[r.n..] == data;
        assert (c.stream.wire + data[..r.n]) + data[r.n..] == c.accepted + data;
      }
    } else {
      assert c.stream.wire + (c.output + data) == c.accepted + data;
      assert data == [] ==> c.accepted + data == c.accepted;
    }
  }

  lemma WriteKeepsStream(cfg: Config, c: Conn, k: WriteChoice)
    requires StreamOk(c)
    ensures StreamOk(HandleWrite(cfg, c, k)) && HandleWrite(cfg, c, k).accepted == c.accepted
  {
    var (s, r) := WriteStream(c.stream, c.output, k);
    if IsWriting(c) && r.Wrote? {
      assert c.output[..r.n] + c.output[r.n..] == c.output;
      assert (c.stream.wire + c.output[..r.n]) + c.output[r.n..] == c.stream.wire + c.output;
    }
  }

  lemma LoopStepStream(cfg: Config, c: Conn, e: Event)
    requires StreamOk(c)
    ensures var d := Connections.Step(cfg, c, e);
            StreamOk(d) && d.accepted == c.accepted + if e.SendCall? && c.state == Connected then e.data else []
  {
    hide SendInLoop, HandleWrite;
    match e
    case SendCall(data, k) =>
      if c.state == Connected {
        SendKeepsStream(cfg, c, data, k);
      }
    case Writable(k) => WriteKeepsStream(cfg, c, k);
    case _ =>
  }

  lemma StepStream(cfg: Config, w: World, step: Step)
    requires StreamOk(w.conn) && Possible(w, step)
    ensures var w' := Next(cfg, w, step);
            && StreamOk(w'.conn) && w'.conn.accepted == w.conn.accepted + TakenBy(w, step)
            && w'.dropped == w.dropped + DroppedBy(w, step)
  {
    hide SendInLoop, Connections.Step;
    match step
    case OnLoop(e) => LoopStepStream(cfg, w.conn, e);
    case RunFunctor(k) =>
      if w.queue[0].SendFunctor? && w.conn.state != Disconnected {
        SendKeepsStream(cfg, w.conn, w.queue[0].data, k);
      }
    case _ =>
  }

  lemma {:induction false} RunStream(cfg: Config, ws: seq<World>, steps: seq<Step>, n: nat)
    requires IsTrace(cfg, ws, steps) && n <= |steps|
    ensures StreamOk(ws[n].conn) && ws[n].conn.accepted == Taken(ws, steps, n)
    ensures ws[n].dropped == Dropped(ws, steps, n)
  {
    hide Next, TakenBy, DroppedBy, StreamOk;
    if n > 0 {
      RunStream(cfg, ws, steps, n - 1);
      assert Follows(cfg, ws[n - 1], steps[n - 1], ws[n]);
      StepStream(cfg, ws[n - 1], steps[n - 1]);
    } else {
      FreshStream();
    }
  }

  lemma FreshStream()
    ensures StreamOk(FRESH)
  {
  }

  lemma {:induction false} HandedIsTakenOrDropped(ws: seq<World>, steps: seq<Step>, n: nat)
    requires n <= |steps| <= |ws|
    ensures multiset(Handed(ws, steps, n)) == multiset(Taken(ws, steps, n)) + multiset(Dropped(ws, steps, n))
  {
    hide HandedBy;
    if n > 0 {
      HandedIsTakenOrDropped(ws, steps, n - 1);
      var w, step := ws[n - 1], steps[n - 1];
      SplitFurther(Handed(ws, steps, n - 1), Taken(ws, steps, n - 1), Dropped(ws, steps, n - 1),
                   HandedBy(w, step), TakenBy(w, step), DroppedBy(w, step));
    }
  }

  lemma SplitFurther(handed: seq<byte>, taken: seq<byte>, dropped: seq<byte>, h: seq<byte>, t: seq<byte>, d: seq<byte>)
    requires multiset(handed) == multiset(taken) + multiset(dropped)
    requires (t == h && d == []) || (t == [] && d == h)
    ensures multiset(handed + h) == multiset(taken + t) + multiset(dropped + d)
  {
  }

  /** The wire followed by the output buffer is exactly what was taken on, in order, unless bytes were
      given up after a reset or after SHUT_WR, and the wire is a prefix of it in any case.  What was
      handed over is what was taken on and what was dropped after the close. */
  lemma StreamWithOtherThreads(cfg: Config, ws: seq<World>, steps: seq<Step>, n: nat)
    requires IsTrace(cfg, ws, steps) && n <= |steps|
    ensures var c := ws[n].conn;
            && (!c.lost ==> c.stream.wire + c.output == Taken(ws, steps, n))
            && c.stream.wire <= Taken(ws, steps, n)
            && (c.lost ==> c.stream.broken || c.stream.shutWr > 0)
    ensures ws[n].dropped == Dropped(ws, steps, n)
    ensures multiset(Handed(ws, steps, n)) == multiset(Taken(ws, steps, n)) + multiset(Dropped(ws, steps, n))
  {
    RunStream(cfg, ws, steps, n);
    HandedIsTakenOrDropped(ws, steps, n);
  }

  // ----- what becomes of one send -------------------------------------------------------------------------

  /** Neither the wire nor the output buffer got anything. */
  predicate NothingTaken(w: World, w': World) {
    w'.conn.stream.wire + w'.conn.output == w.conn.stream.wire + w.conn.output
  }

  /** A queued send with data tries the socket at once. */
  predicate TriesSocket(c: Conn) {
    c.state != Disconnected && c.output == [] && !IsWriting(c)
  }

  /** A queued send is given up exactly if it runs after the close, or tries a socket that is half-closed,
      broken or just being reset; otherwise all its bytes are on the wire or queued.  In any state. */
  lemma SendIsGivenUp(cfg: Config, w: World, data: seq<byte>, k: WriteChoice)
    requires data != []
    ensures var w', c := RunSend(cfg, w, data, k), w.conn;
            && (NothingTaken(w, w') <==>
                 c.state == Disconnected
                 || (TriesSocket(c) && (c.stream.shutWr > 0 || c.stream.broken || k == PeerReset)))
            && (!NothingTaken(w, w') ==>
                 w'.conn.stream.wire + w'.conn.output == c.stream.wire + c.output + data)
  {
    var c := w.conn;
    if c.state != Disconnected {
      if TriesSocket(c) {
        var (s, r) := WriteStream(c.stream, data, k);
        if r.Wrote? {
          assert (c.stream.wire + data[..r.n]) + data[r.n..] == c.stream.wire + data;
        }
        assert c.stream.wire + c.output == c.stream.wire;
        assert r.Failed? && !r.fault ==> c.stream.wire + (c.output + data) == c.stream.wire + data;
      } else {
        assert c.stream.wire + (c.output + data) == (c.stream.wire + c.output) + data;
      }
      assert |c.stream.wire + c.output + data| > |c.stream.wire + c.output|;
    }
  }

  // ----- mask, state and reports ------------------------------------------------------------------------

  /** The shutdownInLoop functors that have still to run. */
  function Waiting(w: World): nat {
    w.owed[ShutdownFunctor] + multiset(w.queue)[ShutdownFunctor]
  }

  /** handleClose or connectDestroyed has reported DOWN. */
  predicate Closed(c: Conn) {
    Down in c.edges
  }

  /** Until a shutdown or a close comes, all is as on the loop thread. */
  ghost predicate OpenInv(w: World) {
    var c := w.conn;
    match c.state
    case Connecting =>
      && c.events == NONE_EVENT && c.output == [] && c.edges == [] && c.closes == 0 && c.stream.shutWr == 0
      && w.checked == 0 && w.owed == multiset{} && w.queue == []
    case Connected =>
      && MaskInv(c) && c.edges == [Up] && c.closes == 0 && c.stream.shutWr == 0 && Waiting(w) == 0
    case _ => true
  }

  /** Writing interest is on only with something to write, and off with something to write only after the
      close. */
  ghost predicate WritingInv(c: Conn) {
    && (IsWriting(c) ==> c.output != [])
    && (!IsWriting(c) && c.output != [] ==> Closed(c))
  }

  ghost predicate AnyInv(w: World) {
    OpenInv(w) && WritingInv(w.conn)
  }

  lemma SendEffect(cfg: Config, c: Conn, data: seq<byte>, k: WriteChoice)
    requires WritingInv(c) && c.state != Disconnected
    ensures var d := SendInLoop(cfg, c.(accepted := c.accepted + data), data, k);
            && d.state == c.state && d.edges == c.edges && d.closes == c.closes
            && d.stream.shutWr == c.stream.shutWr && WritingInv(d)
            && d.events == (if |d.output| > |c.output| then c.events + WRITE_EVENT else c.events)
            && (d.output == c.output || |d.output| > |c.output|)
  {
    assert c.events == c.events + WRITE_EVENT || !IsWriting(c);
  }

  lemma WriteEffect(cfg: Config, c: Conn, k: WriteChoice)
    requires WritingInv(c)
    ensures var d := HandleWrite(cfg, c, k);
            && d.state == c.state && d.edges == c.edges && d.closes == c.closes && WritingInv(d)
            && (d.output != [] ==> d.events == c.events) && d.events <= c.events
            && (c.output == [] ==> d == c)
            && (d.output == [] && c.output != [] ==> d.events == c.events - WRITE_EVENT)
            && d.stream.shutWr == c.stream.shutWr +
                 if c.state == Disconnecting && c.output != [] && d.output == [] then 1 else 0
  {
  }

  lemma LoopStepAnyInv(cfg: Config, w: World, e: Event)
    requires AnyInv(w) && Possible(w, OnLoop(e))
    ensures AnyInv(Next(cfg, w, OnLoop(e)))
  {
    hide SendInLoop, HandleWrite;
    match e {
      case SendCall(data, k) => if w.conn.state == Connected { SendEffect(cfg, w.conn, data, k); }
      case Writable(k) => WriteEffect(cfg, w.conn, k);
      case _ =>
    }
  }

  lemma RunFunctorAnyInv(cfg: Config, w: World, k: WriteChoice)
    requires AnyInv(w) && Possible(w, RunFunctor(k))
    ensures AnyInv(Next(cfg, w, RunFunctor(k)))
  {
    hide SendInLoop;
    assert w.queue == [w.queue[0]] + w.queue[1..];
    if w.queue[0].SendFunctor? && w.conn.state != Disconnected {
      SendEffect(cfg, w.conn, w.queue[0].data, k);
    }
  }

  lemma StepAnyInv(cfg: Config, w: World, step: Step)
    requires AnyInv(w) && Possible(w, step)
    ensures AnyInv(Next(cfg, w, step))
  {
    match step {
      case OnLoop(e) => LoopStepAnyInv(cfg, w, e);
      case RunFunctor(k) => RunFunctorAnyInv(cfg, w, k);
      case _ =>
    }
  }

  lemma {:induction false} RunAnyInv(cfg: Config, ws: seq<World>, steps: seq<Step>, n: nat)
    requires IsTrace(cfg, ws, steps) && n <= |steps|
    ensures AnyInv(ws[n])
  {
    if n > 0 {
      RunAnyInv(cfg, ws, steps, n - 1);
      assert Follows(cfg, ws[n - 1], steps[n - 1], ws[n]);
      StepAnyInv(cfg, ws[n - 1], steps[n - 1]);
    }
  }

  /** A step moves the state backward exactly when it is a shutdown() elsewhere setting a state that was
      kConnected when it looked and has been closed since. */
  lemma StateGoesBack(cfg: Config, w: World, step: Step)
    requires Possible(w, step)
    ensures Rank(Next(cfg, w, step).conn.state) < Rank(w.conn.state) <==>
      step.SetState? && w.conn.state == Disconnected
  {
    hide SendInLoop;
    if step.OnLoop? && step.e.SendCall? {
      SendKeepsState(cfg, w.conn.(accepted := w.conn.accepted + step.e.data), step.e.data, step.e.k);
    }
    if RunsSend(w, step) {
      SendKeepsState(cfg, w.conn.(accepted := w.conn.accepted + w.queue[0].data), w.queue[0].data, step.k);
    }
  }

  lemma SendKeepsState(cfg: Config, c: Conn, data: seq<byte>, k: WriteChoice)
    ensures SendInLoop(cfg, c, data, k).state == c.state
  {
  }

  // ----- SHUT_WR ----------------------------------------------------------------------------------------

  /** handleWrite empties the output buffer while a shutdown is under way. */
  predicate DrainsClosing(w: World, w': World) {
    w.conn.state == Disconnecting && w.conn.output != [] && w'.conn.output == []
  }

  /** The three ways to issue SHUT_WR: shutdownInLoop with writing off, from the queue or from shutdown()
      on the loop thread, and a drain while closing. */
  predicate Issues(w: World, step: Step, w': World) {
    || (RunsShutdown(w, step) && !IsWriting(w.conn))
    || (step == OnLoop(ShutdownCall) && w.conn.state == Connected && !IsWriting(w.conn))
    || (step.OnLoop? && step.e.Writable? && DrainsClosing(w, w'))
  }

  function Issued(ws: seq<World>, steps: seq<Step>, n: nat): nat
    requires n <= |steps| < |ws|
  {
    if n == 0 then 0
    else Issued(ws, steps, n - 1) + if Issues(ws[n - 1], steps[n - 1], ws[n]) then 1 else 0
  }

  lemma LoopStepIssues(cfg: Config, w: World, e: Event)
    requires AnyInv(w) && Possible(w, OnLoop(e))
    ensures var w' := Next(cfg, w, OnLoop(e));
            && w'.conn.stream.shutWr == w.conn.stream.shutWr + (if Issues(w, OnLoop(e), w') then 1 else 0)
            && (Issues(w, OnLoop(e), w') ==> w'.conn.output == [])
  {
    hide SendInLoop, HandleWrite;
    match e {
      case SendCall(data, k) => if w.conn.state == Connected { SendEffect(cfg, w.conn, data, k); }
      case Writable(k) => WriteEffect(cfg, w.conn, k);
      case _ =>
    }
  }

  lemma StepIssues(cfg: Config, w: World, step: Step)
    requires AnyInv(w) && Possible(w, step)
    ensures var w' := Next(cfg, w, step);
            && w'.conn.stream.shutWr == w.conn.stream.shutWr + (if Issues(w, step, w') then 1 else 0)
            && (Issues(w, step, w') ==> w'.conn.output == [] || RunsShutdown(w, step))
  {
    hide SendInLoop, Connections.Step, Connections.Enabled, OpenInv;
    match step {
      case OnLoop(e) => LoopStepIssues(cfg, w, e);
      case RunFunctor(k) =>
        if w.queue[0].SendFunctor? && w.conn.state != Disconnected {
          SendEffect(cfg, w.conn, w.queue[0].data, k);
        }
      case _ =>
    }
  }

  ghost predicate IssuesAt(ws: seq<World>, steps: seq<Step>, i: nat)
    requires i < |steps| < |ws|
  {
    Issues(ws[i], steps[i], ws[i + 1])
  }

  lemma {:induction false} IssuedAtSteps(ws: seq<World>, steps: seq<Step>, n: nat)
    requires n <= |steps| < |ws|
    ensures Issued(ws, steps, n) >= 1 <==> exists i :: 0 <= i < n && IssuesAt(ws, steps, i)
    ensures Issued(ws, steps, n) >= 2 <==>
      exists i, j :: 0 <= i < j < n && IssuesAt(ws, steps, i) && IssuesAt(ws, steps, j)
  {
    hide Issues;
    if n > 0 {
      IssuedAtSteps(ws, steps, n - 1);
      assert Issues(ws[n - 1], steps[n - 1], ws[n]) <==> IssuesAt(ws, steps, n - 1);
    }
  }

  lemma {:induction false} IssuedIsCounted(cfg: Config, ws: seq<World>, steps: seq<Step>, n: nat)
    requires IsTrace(cfg, ws, steps) && n <= |steps|
    ensures ws[n].conn.stream.shutWr == Issued(ws, steps, n)
  {
    hide Next, Issues, AnyInv;
    if n > 0 {
      IssuedIsCounted(cfg, ws, steps, n - 1);
      RunAnyInv(cfg, ws, steps, n - 1);
      assert Follows(cfg, ws[n - 1], steps[n - 1], ws[n]);
      StepIssues(cfg, ws[n - 1], steps[n - 1]);
    }
  }

  /** SHUT_WR is issued once for each step that issues it and for no other; so it is issued at all exactly
      if there is such a step, and more than once exactly if there are two. */
  lemma HalfClosesAreIssued(cfg: Config, ws: seq<World>, steps: seq<Step>, n: nat)
    requires IsTrace(cfg, ws, steps) && n <= |steps|
    ensures ws[n].conn.stream.shutWr == Issued(ws, steps, n)
    ensures ws[n].conn.stream.shutWr >= 1 <==> exists i :: 0 <= i < n && IssuesAt(ws, steps, i)
    ensures ws[n].conn.stream.shutWr >= 2 <==>
      exists i, j :: 0 <= i < j < n && IssuesAt(ws, steps, i) && IssuesAt(ws, steps, j)
  {
    IssuedIsCounted(cfg, ws, steps, n);
    IssuedAtSteps(ws, steps, n);
  }

  /** SHUT_WR overtakes unsent bytes exactly when the queued shutdownInLoop runs with bytes queued and
      writing off, which takes a close before it. */
  lemma HalfCloseWithUnsent(cfg: Config, ws: seq<World>, steps: seq<Step>, n: nat)
    requires IsTrace(cfg, ws, steps) && n < |steps|
    ensures var before, after := ws[n].conn, ws[n + 1].conn;
            && (after.stream.shutWr > before.stream.shutWr && after.output != [] <==>
                 RunsShutdown(ws[n], steps[n]) && before.output != [] && !IsWriting(before))
            && (before.output != [] && !IsWriting(before) ==> Closed(before))
  {
    RunAnyInv(cfg, ws, steps, n);
    assert Follows(cfg, ws[n], steps[n], ws[n + 1]);
    StepIssues(cfg, ws[n], steps[n]);
  }

  // ----- what is given up over a run ----------------------------------------------------------------------

  ghost predicate NoReset(steps: seq<Step>, n: nat)
    requires n <= |steps|
  {
    forall i :: 0 <= i < n ==> !ResetBy(steps[i])
  }

  predicate ResetBy(step: Step) {
    (step.OnLoop? && IsReset(step.e)) || step == RunFunctor(PeerReset)
  }

  /** A queued send with data runs after the close. */
  predicate SendsClosed(w: World, step: Step) {
    RunsSend(w, step) && w.queue[0].data != [] && w.conn.state == Disconnected
  }

  /** A queued send with data tries the socket after SHUT_WR. */
  predicate SendsHalfClosed(w: World, step: Step) {
    RunsSend(w, step) && w.queue[0].data != [] && TriesSocket(w.conn) && w.conn.stream.shutWr > 0
  }

  /** A send of `data` on a socket that is half-closed, broken or just being reset. */
  predicate FailsFor(c: Conn, data: seq<byte>, k: WriteChoice) {
    data != [] && TriesSocket(c) && (c.stream.shutWr > 0 || c.stream.broken || k == PeerReset)
  }

  /** A send from the loop thread or from the queue fails for good. */
  predicate SendFails(w: World, step: Step) {
    || (RunsSend(w, step) && FailsFor(w.conn, w.queue[0].data, step.k))
    || (step.OnLoop? && step.e.SendCall? && w.conn.state == Connected && FailsFor(w.conn, step.e.data, step.e.k))
  }

  lemma SendLost(cfg: Config, c: Conn, data: seq<byte>, k: WriteChoice)
    requires c.state != Disconnected
    ensures var d := SendInLoop(cfg, c.(accepted := c.accepted + data), data, k);
            && (d.lost <==> c.lost || FailsFor(c, data, k))
            && (d.stream.broken ==> c.stream.broken || k == PeerReset)
  {
  }

  lemma WriteLost(cfg: Config, c: Conn, k: WriteChoice)
    ensures var d := HandleWrite(cfg, c, k);
            d.lost == c.lost && (d.stream.broken ==> c.stream.broken || k == PeerReset)
  {
  }

  lemma LoopStepLost(cfg: Config, w: World, e: Event)
    requires Possible(w, OnLoop(e))
    ensures var c := Connections.Step(cfg, w.conn, e);
            && (c.lost <==> w.conn.lost || SendFails(w, OnLoop(e)))
            && (c.stream.broken ==> w.conn.stream.broken || IsReset(e))
  {
    hide SendInLoop, HandleWrite, FailsFor;
    if e.SendCall? && w.conn.state == Connected {
      SendLost(cfg, w.conn, e.data, e.k);
    }
    if e.Writable? {
      WriteLost(cfg, w.conn, e.k);
    }
  }

  lemma StepLost(cfg: Config, w: World, step: Step)
    requires Possible(w, step)
    ensures var w' := Next(cfg, w, step);
            && (w'.conn.lost <==> w.conn.lost || SendFails(w, step))
            && (w'.dropped != [] <==> w.dropped != [] || SendsClosed(w, step))
            && (w'.conn.stream.broken ==> w.conn.stream.broken || ResetBy(step))
  {
    hide SendInLoop, Connections.Step, Connections.Enabled, FailsFor;
    if step.OnLoop? {
      LoopStepLost(cfg, w, step.e);
    } else if RunsSend(w, step) && w.conn.state != Disconnected {
      SendLost(cfg, w.conn, w.queue[0].data, step.k);
    } else if RunsSend(w, step) {
      ClosedTriesNothing(w.conn, w.queue[0].data, step.k);
    }
  }

  lemma ClosedTriesNothing(c: Conn, data: seq<byte>, k: WriteChoice)
    requires c.state == Disconnected
    ensures !FailsFor(c, data, k)
  {
  }

  /** Over every run, bytes handed over are given up exactly by a send that fails for good or runs after
      the close.  Without a reset by the peer, the first is a queued send that tries the socket after
      SHUT_WR. */
  lemma {:induction false} WhatIsGivenUp(cfg: Config, ws: seq<World>, steps: seq<Step>, n: nat)
    requires IsTrace(cfg, ws, steps) && n <= |steps|
    ensures ws[n].conn.lost <==> exists j :: 0 <= j < n && SendFails(ws[j], steps[j])
    ensures ws[n].dropped != [] <==> exists j :: 0 <= j < n && SendsClosed(ws[j], steps[j])
    ensures NoReset(steps, n) ==> !ws[n].conn.stream.broken
    ensures NoReset(steps, n) ==> forall j :: 0 <= j < n ==>
      (SendFails(ws[j], steps[j]) <==> SendsHalfClosed(ws[j], steps[j]))
  {
    hide Next, SendFails, SendsHalfClosed, SendsClosed, ResetBy, AnyInv;
    if n > 0 {
      var w, step := ws[n - 1], steps[n - 1];
      WhatIsGivenUp(cfg, ws, steps, n - 1);
      RunAnyInv(cfg, ws, steps, n - 1);
      assert Follows(cfg, w, step, ws[n]);
      StepLost(cfg, w, step);
      if NoReset(steps, n) {
        assert !ResetBy(step);
        FailsAfterHalfClose(w, step);
      }
    }
  }

  lemma FailsAfterHalfClose(w: World, step: Step)
    requires AnyInv(w) && !w.conn.stream.broken && !ResetBy(step)
    ensures SendFails(w, step) <==> SendsHalfClosed(w, step)
  {
  }

  // ----- life cycle -----------------------------------------------------------------------------------------

  /** A closed channel asks for events again. */
  predicate Reopens(w: World, w': World) {
    Closed(w.conn) && w.conn.events == NONE_EVENT && w'.conn.events != NONE_EVENT
  }

  /** Exactly one kind of step does that: a queued send that runs when the state has been set back and
      leaves bytes queued. */
  lemma WhatReopens(cfg: Config, ws: seq<World>, steps: seq<Step>, n: nat)
    requires IsTrace(cfg, ws, steps) && n < |steps| && Closed(ws[n].conn) && ws[n].conn.events == NONE_EVENT
    ensures Reopens(ws[n], ws[n + 1]) <==>
      && RunsSend(ws[n], steps[n]) && ws[n].conn.state == Disconnecting
      && |ws[n + 1].conn.output| > |ws[n].conn.output|
  {
    hide SendInLoop;
    RunAnyInv(cfg, ws, steps, n);
    assert Follows(cfg, ws[n], steps[n], ws[n + 1]);
    if RunsSend(ws[n], steps[n]) && ws[n].conn.state != Disconnected {
      SendEffect(cfg, ws[n].conn, ws[n].queue[0].data, steps[n].k);
      assert Out in ws[n].conn.events + WRITE_EVENT;
    }
  }

  ghost predicate NeverReopens(ws: seq<World>, n: nat)
    requires n < |ws|
  {
    forall i :: 0 <= i < n ==> !Reopens(ws[i], ws[i + 1])
  }

  /** Reports as on the loop thread, and after DOWN no interest in any event. */
  ghost predicate ReportsInv(c: Conn) {
    && c.edges <= [Up, Down] && c.closes <= (if Closed(c) then 1 else 0)
    && (Closed(c) ==> c.state != Connecting && c.state != Connected && c.events == NONE_EVENT)
    && (c.state == Disconnected ==> Closed(c)) && (c.state != Connecting ==> c.edges != [])
  }

  lemma LoopStepReports(cfg: Config, w: World, e: Event)
    requires AnyInv(w) && ReportsInv(w.conn) && Possible(w, OnLoop(e))
    ensures ReportsInv(Next(cfg, w, OnLoop(e)).conn)
    ensures w.conn.edges <= Next(cfg, w, OnLoop(e)).conn.edges
  {
    hide SendInLoop, HandleWrite, MaskInv;
    var c := w.conn;
    assert c.edges == [] || c.edges == [Up] || c.edges == [Up, Down];
    match e {
      case SendCall(data, k) => if c.state == Connected { SendEffect(cfg, c, data, k); }
      case Writable(k) => WriteEffect(cfg, c, k);
      case _ =>
    }
  }

  lemma StepReports(cfg: Config, w: World, step: Step)
    requires AnyInv(w) && ReportsInv(w.conn) && Possible(w, step) && !Reopens(w, Next(cfg, w, step))
    ensures ReportsInv(Next(cfg, w, step).conn)
    ensures w.conn.edges <= Next(cfg, w, step).conn.edges
  {
    hide SendInLoop, Connections.Step, Connections.Enabled, MaskInv;
    var c := w.conn;
    match step {
      case OnLoop(e) => LoopStepReports(cfg, w, e);
      case RunFunctor(k) =>
        if w.queue[0].SendFunctor? && c.state != Disconnected {
          SendEffect(cfg, c, w.queue[0].data, k);
          assert Out in c.events + WRITE_EVENT;
        }
      case _ =>
    }
  }

  /** As long as no closed channel asks for events again: UP then DOWN, each at most once, at most one
      close, and no interest in any event afterwards. */
  lemma {:induction false} ReportsUntilReopened(cfg: Config, ws: seq<World>, steps: seq<Step>, n: nat)
    requires IsTrace(cfg, ws, steps) && n <= |steps| && NeverReopens(ws, n)
    ensures ReportsInv(ws[n].conn)
    ensures forall m :: 0 <= m <= n ==> ws[m].conn.edges <= ws[n].conn.edges
  {
    if n > 0 {
      ReportsUntilReopened(cfg, ws, steps, n - 1);
      RunAnyInv(cfg, ws, steps, n - 1);
      assert Follows(cfg, ws[n - 1], steps[n - 1], ws[n]) && !Reopens(ws[n - 1], ws[n]);
      StepReports(cfg, ws[n - 1], steps[n - 1]);
    }
  }
}
