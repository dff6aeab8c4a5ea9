/** The callbacks of a connection in its loop's queue: what sendInLoop and handleWrite queue is what waits
    there, numbered and in order. */
module ServerCallbacks {
  import opened Kernel
  import opened Registration
  import opened TcpServers
  import opened TcpServerRuns
  import TcpServerInvariant
  import opened ServerConnections
  import Connections
  import ConnNames

  /** The user callbacks of connection `c` among some functors. */
  function CallsOf(q: seq<Token>, c: Id): seq<Token> {
    if q == [] then [] else (if q[0].UserCall? && q[0].c == c then [q[0]] else []) + CallsOf(q[1..], c)
  }

  lemma {:induction false} CallsAppend(p: seq<Token>, q: seq<Token>, c: Id)
    ensures CallsOf(p + q, c) == CallsOf(p, c) + CallsOf(q, c)
  {
    if p == [] {
      assert p + q == q;
    } else {
      assert (p + q)[1..] == p[1..] + q;
      CallsAppend(p[1..], q, c);
    }
  }

  /** Callbacks `n` up to `end` of connection `c`. */
  function Numbered(c: Id, n: nat, end: nat): (q: seq<Token>)
    requires n <= end
    ensures |q| == end - n
    decreases end - n
  {
    if n == end then [] else [UserCall(c, n)] + Numbered(c, n + 1, end)
  }

  lemma {:induction false} NumberedAppend(c: Id, n: nat, m: nat, end: nat)
    requires n <= m <= end
    ensures Numbered(c, n, end) == Numbered(c, n, m) + Numbered(c, m, end)
    decreases m - n
  {
    if n < m {
      NumberedAppend(c, n + 1, m, end);
    }
  }

  lemma {:induction false} CallsOfNumbered(c: Id, d: Id, n: nat, end: nat)
    requires n <= end
    ensures CallsOf(Numbered(c, n, end), d) == if c == d then Numbered(c, n, end) else []
    decreases end - n
  {
    if n < end {
      CallsOfNumbered(c, d, n + 1, end);
      assert Numbered(c, n, end)[1..] == Numbered(c, n + 1, end);
    }
  }

  /** What a loop has still to run. */
  function Waiting(loop: Loop): seq<Token> {
    loop.todo + loop.queue
  }

  /** The callbacks waiting are the last of the `n` queued so far, in order. */
  predicate AreLast(q: seq<Token>, c: Id, n: nat) {
    |q| <= n && q == Numbered(c, n - |q|, n)
  }

  function QueuedOn(w: World, l: nat, c: Id): nat {
    if c in w.conns && c in w.server.conns && w.server.conns[c].loop == l then |w.conns[c].queued| else 0
  }

  ghost predicate CallsWait(w: World) {
    forall l, c: Id :: 0 <= l < |w.server.loops| ==>
      AreLast(CallsOf(Waiting(w.server.loops[l]), c), c, QueuedOn(w, l, c))
  }

  // ----- server steps that queue no callback --------------------------------------------------------------

  /** At most one functor is queued, and it is no callback. */
  ghost predicate AddsNoCall(before: Loop, after: Loop) {
    Waiting(after) == Waiting(before) || exists t: Token :: !t.UserCall? && Waiting(after) == Waiting(before) + [t]
  }

  lemma NoCallAdded(before: Loop, after: Loop, c: Id)
    requires AddsNoCall(before, after)
    ensures CallsOf(Waiting(after), c) == CallsOf(Waiting(before), c)
  {
    if Waiting(after) != Waiting(before) {
      var t: Token :| !t.UserCall? && Waiting(after) == Waiting(before) + [t];
      CallsAppend(Waiting(before), [t], c);
    }
  }

  lemma PushAddsNoCall(s: Server, m: nat, t: Token, l: nat)
    requires m < |s.loops| && l < |s.loops| && !t.UserCall?
    ensures |Push(s, m, t).loops| == |s.loops| && AddsNoCall(s.loops[l], Push(s, m, t).loops[l])
  {
    if l == m {
      assert s.loops[l].todo + (s.loops[l].queue + [t]) == Waiting(s.loops[l]) + [t];
    }
  }

  /** The functors of loop `l` are where they were. */
  predicate SameFunctors(s: Server, s': Server, l: nat) {
    && |s'.loops| == |s.loops| && l < |s.loops|
    && s'.loops[l].todo == s.loops[l].todo && s'.loops[l].queue == s.loops[l].queue
  }

  lemma ExecuteAddsNoCall(s: Server, t: Token, l: nat)
    requires l < |s.loops|
    ensures |Execute(s, t).loops| == |s.loops| && AddsNoCall(s.loops[l], Execute(s, t).loops[l])
  {
    hide SetEvents, RemoveChannel, AddsNoCall;
    match t
    case Established(c) => SameAddsNoCall(s, EstablishNow(s, c), l);
    case RemoveInLoop(c) => RemoveAddsNoCall(s, c, l);
    case Destroyed(c) => SameAddsNoCall(s, DestroyNow(s, c), l);
    case _ => SameAddsNoCall(s, s, l);
  }

  lemma SameAddsNoCall(s: Server, s': Server, l: nat)
    requires SameFunctors(s, s', l)
    ensures AddsNoCall(s.loops[l], s'.loops[l])
  {
  }

  lemma RemoveAddsNoCall(s: Server, c: Id, l: nat)
    requires l < |s.loops|
    ensures |RemoveNow(s, c).loops| == |s.loops| && AddsNoCall(s.loops[l], RemoveNow(s, c).loops[l])
  {
    if Known(s, c) {
      var r := s.conns[c];
      PushAddsNoCall(WithConn(s, c, r.(phase := DestroyQueued)).(connections := s.connections - {r.name}),
                     r.loop, Destroyed(c), l);
    }
  }

  lemma CloseAddsNoCall(s: Server, l: nat, m: nat)
    requires l < |s.loops| && s.loops[l].frame.Handling? && m < |s.loops|
    ensures |CloseIn(s, l).loops| == |s.loops| && AddsNoCall(s.loops[m], CloseIn(s, l).loops[m])
  {
    hide SetEvents, AddsNoCall;
    var f := s.loops[l].frame;
    var left := if f.closes > 0 then f.closes - 1 else 0;
    var s1 := CloseNow(WithLoop(s, l, s.loops[l].(frame := Handling(f.c, left))), f.c);
    assert SameFunctors(s, s1, m);
    AddsNoCallAfter(s.loops[m], s1.loops[m]);
    if l == 0 {
      RemoveAddsNoCall(s1, f.c, m);
    } else {
      PushAddsNoCall(s1, 0, RemoveInLoop(f.c), m);
    }
    SameThenAdds(s.loops[m], s1.loops[m], CloseIn(s, l).loops[m]);
  }

  lemma AddsNoCallAfter(before: Loop, after: Loop)
    requires after.todo == before.todo && after.queue == before.queue
    ensures Waiting(after) == Waiting(before)
  {
  }

  lemma SameThenAdds(a: Loop, b: Loop, c: Loop)
    requires Waiting(a) == Waiting(b) && AddsNoCall(b, c)
    ensures AddsNoCall(a, c)
  {
  }

  lemma NewAddsNoCall(s: Server, fd: int, l: nat)
    requires l < |s.loops|
    ensures |NewConnection(s, fd).loops| == |s.loops| && AddsNoCall(s.loops[l], NewConnection(s, fd).loops[l])
  {
    hide SetEvents, AddsNoCall, EstablishNow;
    var s1 := Admitted(s, fd);
    assert SameFunctors(s, s1, l);
    AddsNoCallAfter(s.loops[l], s1.loops[l]);
    if NewRec(s, fd).loop == 0 {
      ExecuteAddsNoCall(s1, Established(s.nextId), l);
    } else {
      PushAddsNoCall(s1, NewRec(s, fd).loop, Established(s.nextId), l);
    }
    SameThenAdds(s.loops[l], s1.loops[l], NewConnection(s, fd).loops[l]);
  }

  lemma PlainAddsNoCall(s: Server, step: Step, l: nat)
    requires Enabled(s, step) && l < |s.loops| && (IsPlain(step) || step.Handle?) && step != RunToken(l)
    requires s.loops[l].activity == Dispatching ==> s.loops[l].todo == []
    ensures |Next(s, step).loops| == |s.loops| && AddsNoCall(s.loops[l], Next(s, step).loops[l])
  {
    hide Execute, NewConnection, Alive, AddsNoCall;
    if step.Accept? {
      AddsNoCallAfter(s.loops[l], Accepting(s).loops[l]);
      NewAddsNoCall(Accepting(s), step.fd, l);
      SameThenAdds(s.loops[l], Accepting(s).loops[l], Next(s, step).loops[l]);
    } else if step.RunToken? {
      var s1 := WithLoop(s, step.l, Popped(s.loops[step.l]));
      ExecuteAddsNoCall(s1, s.loops[step.l].todo[0], l);
    } else {
      assert s.loops[l].activity == Dispatching ==> [] + s.loops[l].queue == s.loops[l].queue + [];
      WaitingAdds(s.loops[l], Next(s, step).loops[l]);
    }
  }

  lemma WaitingAdds(before: Loop, after: Loop)
    requires Waiting(after) == Waiting(before)
    ensures AddsNoCall(before, after)
  {
  }

  // ----- what an event queues -----------------------------------------------------------------------------

  /** Every event queues callbacks behind those queued before, if any. */
  lemma QueuedGrows(cfg: Connections.Config, c: Connections.Conn, e: Connections.Event)
    ensures c.queued <= Connections.Step(cfg, c, e).queued
    ensures e.Establish? || e.Destroy? || Closes(e) ==> Connections.Step(cfg, c, e).queued == c.queued
  {
    hide Connections.SendInLoop, Connections.HandleWrite;
    if e.SendCall? {
      SendQueues(cfg, c.(accepted := c.accepted + e.data), e.data, e.k);
    }
    if e.Writable? {
      WriteQueues(cfg, c, e.k);
    }
  }

  lemma SendQueues(cfg: Connections.Config, c: Connections.Conn, data: seq<byte>, k: WriteChoice)
    ensures c.queued <= Connections.SendInLoop(cfg, c, data, k).queued
  {
    hide Connections.DirectWrite, Connections.BufferRest;
    var (c1, rest, fault) := Connections.DirectWrite(cfg, c, data, k);
    DirectWriteQueues(cfg, c, data, k);
    RestQueues(cfg, c, data);
    RestQueues(cfg, c1, rest);
  }

  lemma DirectWriteQueues(cfg: Connections.Config, c: Connections.Conn, data: seq<byte>, k: WriteChoice)
    ensures c.queued <= Connections.DirectWrite(cfg, c, data, k).0.queued
  {
    hide WriteStream;
  }

  lemma RestQueues(cfg: Connections.Config, c: Connections.Conn, rest: seq<byte>)
    ensures c.queued <= Connections.BufferRest(cfg, c, rest).queued
  {
  }

  lemma WriteQueues(cfg: Connections.Config, c: Connections.Conn, k: WriteChoice)
    ensures c.queued <= Connections.HandleWrite(cfg, c, k).queued
  {
  }

  lemma {:induction false} PushCallsWaiting(s: Server, l: nat, c: Id, n: nat, end: nat, m: nat)
    requires l < |s.loops| && m < |s.loops| && n <= end
    ensures var s' := PushCalls(s, l, c, n, end);
            && |s'.loops| == |s.loops|
            && Waiting(s'.loops[m]) == Waiting(s.loops[m]) + if m == l then Numbered(c, n, end) else []
    decreases end - n
  {
    if n < end {
      var s1 := Push(s, l, UserCall(c, n));
      PushCallsWaiting(s1, l, c, n + 1, end, m);
      if m == l {
        assert Waiting(s1.loops[l]) == Waiting(s.loops[l]) + [UserCall(c, n)];
      }
    }
  }

  /** Mirroring an event adds the callbacks it queued to the connection's loop, and nothing elsewhere. */
  lemma MirrorWaiting(s: Server, c: Id, before: Connections.Conn, after: Connections.Conn, l: nat)
    requires Known(s, c) && l < |s.loops| && |before.queued| <= |after.queued|
    ensures var s' := Mirror(s, c, before, after);
            && |s'.loops| == |s.loops|
            && Waiting(s'.loops[l]) == Waiting(s.loops[l]) +
                 if l == s.conns[c].loop then Numbered(c, |before.queued|, |after.queued|) else []
  {
    var s1 := if after.state != before.state then WithConn(s, c, s.conns[c].(state := after.state)) else s;
    var s2 := if after.events != before.events then ChangeMask(s1, c, after.events) else s1;
    OtherChansStay(s1.loops[s.conns[c].loop].reg, c, after.events);
    assert Waiting(s2.loops[l]) == Waiting(s.loops[l]);
    PushCallsWaiting(s2, s.conns[c].loop, c, |before.queued|, |after.queued|, l);
  }

  // ----- every action -------------------------------------------------------------------------------------

  lemma LastAfterOne(q: seq<Token>, c: Id, n: nat)
    requires AreLast(q, c, n) && q != []
    ensures AreLast(q[1..], c, n)
  {
    assert Numbered(c, n - |q|, n)[1..] == Numbered(c, n - |q| + 1, n);
  }

  lemma LastAndMore(q: seq<Token>, c: Id, n: nat, m: nat)
    requires AreLast(q, c, n) && n <= m
    ensures AreLast(q + Numbered(c, n, m), c, m)
  {
    NumberedAppend(c, n - |q|, n, m);
  }

  /** One connection and one loop, where no callback is queued. */
  lemma NoCallKeeps(w: World, w': World, l: nat, c: Id)
    requires CallsWait(w) && l < |w.server.loops| == |w'.server.loops|
    requires AddsNoCall(w.server.loops[l], w'.server.loops[l]) && QueuedOn(w', l, c) == QueuedOn(w, l, c)
    ensures AreLast(CallsOf(Waiting(w'.server.loops[l]), c), c, QueuedOn(w', l, c))
  {
    NoCallAdded(w.server.loops[l], w'.server.loops[l], c);
  }

  /** Where a connection lives never changes. */
  lemma LoopIsFixed(s: Server, t: Token, c: Id)
    ensures c in Execute(s, t).conns <==> c in s.conns
    ensures c in s.conns ==> Execute(s, t).conns[c].loop == s.conns[c].loop
  {
    hide SetEvents, RemoveChannel;
  }

  lemma TodoIsEmpty(s: Server, l: nat)
    requires TcpServerInvariant.Inv(s) && l < |s.loops| && s.loops[l].activity == Dispatching
    ensures s.loops[l].todo == []
  {
    assert TcpServerInvariant.LoopOk(s.conns, l, s.loops[l], TcpServerInvariant.NoFlight);
  }

  lemma PlainCalls(cfg: Connections.Config, w: World, step: Step)
    requires Together(cfg, w) && CallsWait(w) && CanDo(w, Plain(step)) && !step.Accept? && !step.RunToken?
    ensures CallsWait(Do(cfg, w, Plain(step)))
  {
    hide Reachable, Joined, CallsWait, AreLast, AddsNoCall, CallsOf, Waiting, Next, Enabled, TcpServerInvariant.Inv;
    var w' := Do(cfg, w, Plain(step));
    StepReachable(w.server, step);
    PlainSame(w.server, step);
    forall l, c: Id | 0 <= l < |w'.server.loops|
      ensures AreLast(CallsOf(Waiting(w'.server.loops[l]), c), c, QueuedOn(w', l, c))
    {
      if w.server.loops[l].activity == Dispatching {
        TodoIsEmpty(w.server, l);
      }
      PlainAddsNoCall(w.server, step, l);
      NoCallKeeps(w, w', l, c);
    }
    CallsWaitHolds(w');
  }

  lemma CallsWaitHolds(w: World)
    requires forall l, c: Id :: 0 <= l < |w.server.loops| ==>
      AreLast(CallsOf(Waiting(w.server.loops[l]), c), c, QueuedOn(w, l, c))
    ensures CallsWait(w)
  {
  }

  lemma RunTokenCalls(cfg: Connections.Config, w: World, l: nat)
    requires CallsWait(w) && CanDo(w, Plain(RunToken(l)))
    ensures CallsWait(Do(cfg, w, Plain(RunToken(l))))
  {
    hide CallsWait, AreLast, AddsNoCall, CallsOf, Waiting, Execute, Connections.Step;
    var s, t, w' := w.server, w.server.loops[l].todo[0], Do(cfg, w, Plain(RunToken(l)));
    var s1 := WithLoop(s, l, Popped(s.loops[l]));
    ExecuteKeepsLoops(s1, t);
    forall m, c: Id | 0 <= m < |w'.server.loops|
      ensures AreLast(CallsOf(Waiting(w'.server.loops[m]), c), c, QueuedOn(w', m, c))
    {
      ExecuteAddsNoCall(s1, t, m);
      NoCallAdded(s1.loops[m], w'.server.loops[m], c);
      PoppedCalls(w, l, m, c);
      LoopIsFixed(s1, t, c);
      FunctorQueuesNothing(cfg, w.(server := w'.server), t, c);
    }
    CallsWaitHolds(w');
  }

  lemma ExecuteKeepsLoops(s: Server, t: Token)
    ensures |Execute(s, t).loops| == |s.loops|
  {
    hide SetEvents, RemoveChannel;
  }

  lemma FunctorQueuesNothing(cfg: Connections.Config, w: World, t: Token, c: Id)
    ensures var w' := TakeFunctor(cfg, w, t);
            && w'.server == w.server && (c in w'.conns <==> c in w.conns)
            && (c in w.conns ==> w'.conns[c].queued == w.conns[c].queued)
  {
    hide Connections.Step;
    if t.c in w.conns {
      QueuedGrows(cfg, w.conns[t.c], Connections.Establish);
      QueuedGrows(cfg, w.conns[t.c], Connections.Destroy);
    }
  }

  /** Taking a functor off the batch leaves the callbacks after it. */
  lemma PoppedCalls(w: World, l: nat, m: nat, c: Id)
    requires CallsWait(w) && l < |w.server.loops| && m < |w.server.loops| && w.server.loops[l].todo != []
    ensures var s1 := WithLoop(w.server, l, Popped(w.server.loops[l]));
            AreLast(CallsOf(Waiting(s1.loops[m]), c), c, QueuedOn(w, m, c))
  {
    hide AreLast;
    var loop := w.server.loops[m];
    assert AreLast(CallsOf(Waiting(loop), c), c, QueuedOn(w, m, c));
    if m == l {
      var t := loop.todo[0];
      assert Waiting(loop) == [t] + Waiting(Popped(loop)) by {
        assert loop.todo == [t] + loop.todo[1..];
      }
      assert Waiting(loop)[1..] == Waiting(Popped(loop));
      var calls := CallsOf(Waiting(loop), c);
      if t.UserCall? && t.c == c {
        assert calls[1..] == CallsOf(Waiting(Popped(loop)), c);
        LastAfterOne(calls, c, QueuedOn(w, m, c));
      } else {
        assert calls == CallsOf(Waiting(Popped(loop)), c);
      }
    }
  }

  lemma AcceptCalls(cfg: Connections.Config, w: World, fd: int)
    requires Together(cfg, w) && CallsWait(w) && CanDo(w, Plain(Step.Accept(fd)))
    ensures CallsWait(Do(cfg, w, Plain(Step.Accept(fd))))
  {
    hide Reachable, Joined, CallsWait, AreLast, AddsNoCall, CallsOf, Waiting, Connections.Step, NewConnection, Alive;
    hide TcpServerInvariant.Inv;
    var s, step := w.server, Step.Accept(fd);
    var w' := Do(cfg, w, Plain(step));
    ReachableInv(s);
    AcceptingSame(s);
    NewKeepsLoops(Accepting(s), fd);
    forall l, c: Id | 0 <= l < |w'.server.loops|
      ensures AreLast(CallsOf(Waiting(w'.server.loops[l]), c), c, QueuedOn(w', l, c))
    {
      if s.loops[l].activity == Dispatching {
        TodoIsEmpty(s, l);
      }
      PlainAddsNoCall(s, step, l);
      NewIsFixed(Accepting(s), fd, c);
      NewQueuesNothing(cfg, w.(server := w'.server), s.nextId, NewRec(s, fd).loop == 0, c);
      NoCallKeeps(w, w', l, c);
    }
    CallsWaitHolds(w');
  }

  lemma NewKeepsLoops(s: Server, fd: int)
    requires |s.loops| > 0
    ensures |NewConnection(s, fd).loops| == |s.loops|
  {
    hide SetEvents;
  }

  lemma NewIsFixed(s: Server, fd: int, c: Id)
    requires |s.loops| > 0
    ensures c in NewConnection(s, fd).conns <==> c in s.conns || c == s.nextId
    ensures c in s.conns && c != s.nextId ==> NewConnection(s, fd).conns[c].loop == s.conns[c].loop
  {
    hide SetEvents;
  }

  lemma NewQueuesNothing(cfg: Connections.Config, w: World, id: Id, atOnce: bool, c: Id)
    ensures var w' := TakeNew(cfg, w, id, atOnce);
            && w'.server == w.server && (c in w'.conns <==> c in w.conns || c == id)
            && (c in w'.conns ==> w'.conns[c].queued == if c == id then [] else w.conns[c].queued)
  {
    hide Connections.Step;
    QueuedGrows(cfg, Connections.FRESH, Connections.Establish);
  }

  lemma DispatchCalls(cfg: Connections.Config, w: World, a: Action)
    requires Together(cfg, w) && CallsWait(w) && a.Dispatch? && CanDo(w, a)
    ensures CallsWait(Do(cfg, w, a))
  {
    hide Reachable, Joined, CallsWait, AreLast, AddsNoCall, CallsOf, Waiting, Next, Enabled, TcpServerInvariant.Inv;
    var s, step, w' := w.server, Handle(a.l, a.r == Got([])), Do(cfg, w, a);
    StepReachable(s, step);
    HandleSame(s, a.l, a.r == Got([]));
    forall l, c: Id | 0 <= l < |w'.server.loops|
      ensures AreLast(CallsOf(Waiting(w'.server.loops[l]), c), c, QueuedOn(w', l, c))
    {
      if s.loops[l].activity == Dispatching {
        TodoIsEmpty(s, l);
      }
      PlainAddsNoCall(s, step, l);
      NoCallKeeps(w, w', l, c);
    }
    CallsWaitHolds(w');
  }

  /** An event that does not close, as the server mirrors it. */
  lemma MirrorCalls(cfg: Connections.Config, w: World, w': World, c: Id, e: Connections.Event)
    requires CallsWait(w) && Known(w.server, c) && c in w.conns && c in w.events
    requires var w1 := Take(cfg, w, c, e);
             w'.conns == w1.conns && w'.server == Mirror(w.server, c, w.conns[c], w1.conns[c])
    ensures CallsWait(w')
  {
    hide CallsWait, AreLast, CallsOf, Waiting, Mirror, Connections.Step;
    var before, after := w.conns[c], Connections.Step(cfg, w.conns[c], e);
    QueuedGrows(cfg, before, e);
    MirrorKeepsLoops(w.server, c, before, after);
    forall m, d: Id | 0 <= m < |w'.server.loops|
      ensures AreLast(CallsOf(Waiting(w'.server.loops[m]), d), d, QueuedOn(w', m, d))
    {
      MirrorWaiting(w.server, c, before, after, m);
      CallsWaitFor(w, m, d);
      var more := if m == w.server.conns[c].loop then Numbered(c, |before.queued|, |after.queued|) else [];
      CallsAppend(Waiting(w.server.loops[m]), more, d);
      CallsOfNumbered(c, d, |before.queued|, |after.queued|);
      NoneOfNothing(d);
      var calls := CallsOf(Waiting(w.server.loops[m]), d);
      if d == c && m == w.server.conns[c].loop {
        LastAndMore(calls, c, |before.queued|, |after.queued|);
      } else {
        assert calls + [] == calls;
      }
    }
    CallsWaitHolds(w');
  }

  lemma NoneOfNothing(c: Id)
    ensures CallsOf([], c) == []
  {
  }

  lemma CallsWaitFor(w: World, l: nat, c: Id)
    requires CallsWait(w) && l < |w.server.loops|
    ensures AreLast(CallsOf(Waiting(w.server.loops[l]), c), c, QueuedOn(w, l, c))
  {
  }

  lemma MirrorKeepsLoops(s: Server, c: Id, before: Connections.Conn, after: Connections.Conn)
    requires Known(s, c) && |before.queued| <= |after.queued|
    ensures var s' := Mirror(s, c, before, after);
            && |s'.loops| == |s.loops| && s'.conns.Keys == s.conns.Keys
            && forall d :: d in s.conns ==> s'.conns[d].loop == s.conns[d].loop
  {
    MirrorWaiting(s, c, before, after, s.conns[c].loop);
    var s1 := if after.state != before.state then WithConn(s, c, s.conns[c].(state := after.state)) else s;
    var s2 := if after.events != before.events then ChangeMask(s1, c, after.events) else s1;
    OtherChansStay(s1.loops[s.conns[c].loop].reg, c, after.events);
    PushCallsConns(s2, s.conns[c].loop, c, |before.queued|, |after.queued|);
  }

  lemma {:induction false} PushCallsConns(s: Server, l: nat, c: Id, n: nat, end: nat)
    requires l < |s.loops|
    ensures PushCalls(s, l, c, n, end).conns == s.conns
    decreases end - n
  {
    if n < end {
      PushCallsConns(Push(s, l, UserCall(c, n)), l, c, n + 1, end);
    }
  }

  lemma ClosingCalls(cfg: Connections.Config, w: World, l: nat)
    requires Together(cfg, w) && CallsWait(w) && CanDo(w, Handler(l)) && Closes(w.work[l][0])
    ensures CallsWait(Do(cfg, w, Handler(l)))
  {
    hide Reachable, CallsWait, AreLast, AddsNoCall, CallsOf, Waiting, ConnOk, CloseIn, Connections.Step;
    var c, w' := w.server.loops[l].frame.c, Do(cfg, w, Handler(l));
    HandlerIsLive(cfg, w, l);
    ConnIsKnown(cfg, w, c);
    CloseSame(w.server, l);
    QueuedGrows(cfg, w.conns[c], w.work[l][0]);
    CloseIsFixed(w.server, l);
    forall m, d: Id | 0 <= m < |w'.server.loops|
      ensures AreLast(CallsOf(Waiting(w'.server.loops[m]), d), d, QueuedOn(w', m, d))
    {
      CloseAddsNoCall(w.server, l, m);
      NoCallKeeps(w, w', m, d);
    }
    CallsWaitHolds(w');
  }

  lemma CloseIsFixed(s: Server, l: nat)
    requires l < |s.loops| && s.loops[l].frame.Handling?
    ensures var s' := CloseIn(s, l);
            && (forall d :: d in s'.conns <==> d in s.conns)
            && forall d :: d in s.conns ==> s'.conns[d].loop == s.conns[d].loop
  {
    hide SetEvents;
  }

  lemma ConnIsKept(cfg: Connections.Config, w: World, c: Id)
    requires Together(cfg, w) && c in w.server.conns
    ensures Known(w.server, c) && c in w.conns && c in w.events
  {
    assert ConnOk(cfg, w, c);
  }

  lemma DoCalls(cfg: Connections.Config, w: World, a: Action)
    requires Together(cfg, w) && CallsWait(w) && CanDo(w, a)
    ensures CallsWait(Do(cfg, w, a))
  {
    hide Together, CallsWait, Mirror, CloseIn;
    match a {
      case Plain(step) =>
        if step.Accept? {
          AcceptCalls(cfg, w, step.fd);
        } else if step.RunToken? {
          RunTokenCalls(cfg, w, step.l);
        } else {
          PlainCalls(cfg, w, step);
        }
      case Dispatch(_, _, _, _) => DispatchCalls(cfg, w, a);
      case Handler(l) =>
        if Closes(w.work[l][0]) {
          ClosingCalls(cfg, w, l);
        } else {
          HandlerCalls(cfg, w, l);
        }
      case AppCall(l, c, e) =>
        ConnIsKept(cfg, w, c);
        MirrorCalls(cfg, w, Do(cfg, w, a), c, e);
    }
  }

  lemma HandlerCalls(cfg: Connections.Config, w: World, l: nat)
    requires Together(cfg, w) && CallsWait(w) && CanDo(w, Handler(l)) && !Closes(w.work[l][0])
    ensures CallsWait(Do(cfg, w, Handler(l)))
  {
    hide Together, CallsWait, Mirror, Connections.Step, TcpServerInvariant.LiveOn, ConnOk;
    var c := w.server.loops[l].frame.c;
    HandlerIsLive(cfg, w, l);
    LiveIsConn(w.server, c, l);
    ConnIsKept(cfg, w, c);
    MirrorCalls(cfg, w, Do(cfg, w, Handler(l)), c, w.work[l][0]);
  }

  lemma LiveIsConn(s: Server, c: Id, l: nat)
    requires TcpServerInvariant.LiveOn(s.conns, c, l)
    ensures c in s.conns
  {
  }

  /** In every run of server and connections, the callbacks of a connection that wait in its loop's queue
      are the last of those it has queued, numbered in order; no other loop has any. */
  lemma {:induction false} CallbacksWaitInOrder(cfg: Connections.Config, w: World, actions: seq<Action>)
    requires Together(cfg, w) && CallsWait(w) && AllCanBeDone(cfg, w, actions)
    ensures CallsWait(DoAll(cfg, w, actions))
    decreases |actions|
  {
    hide Together, CallsWait;
    if actions != [] {
      DoTogether(cfg, w, actions[0]);
      DoCalls(cfg, w, actions[0]);
      CallbacksWaitInOrder(cfg, Do(cfg, w, actions[0]), actions[1..]);
    }
  }

  lemma StartedCalls(name: string, address: ConnNames.Address, subLoops: nat)
    ensures CallsWait(StartedWorld(name, address, subLoops))
  {
  }

  /** The same from the start of the server, spelled out. */
  lemma CallbacksOfRun(cfg: Connections.Config, name: string, address: ConnNames.Address, subLoops: nat,
                       actions: seq<Action>, l: nat, c: Id)
    requires ConnNames.ValidAddress(address) && AllCanBeDone(cfg, StartedWorld(name, address, subLoops), actions)
    requires l < |DoAll(cfg, StartedWorld(name, address, subLoops), actions).server.loops|
    ensures var w := DoAll(cfg, StartedWorld(name, address, subLoops), actions);
            var calls := CallsOf(w.server.loops[l].todo + w.server.loops[l].queue, c);
            var n := if c in w.conns && c in w.server.conns && w.server.conns[c].loop == l
                     then |w.conns[c].queued| else 0;
            |calls| <= n && calls == Numbered(c, n - |calls|, n)
  {
    hide Together, CallsWait, CallsOf, StartedWorld, DoAll, AllCanBeDone;
    var w := StartedWorld(name, address, subLoops);
    StartedTogether(cfg, name, address, subLoops);
    StartedCalls(name, address, subLoops);
    CallbacksWaitInOrder(cfg, w, actions);
    CallsWaitFor(DoAll(cfg, w, actions), l, c);
  }
}
