/** What the connection life cycle promises in every interleaving of the loop threads, with no sub-loops
    or any number of them, from the moment the server has started. */
module TcpServerRuns {
  import opened Kernel
  import opened Registration
  import opened TcpServers
  import opened TcpServerInvariant
  import opened TcpServerSteps
  import ConnNames
  import Connections
  import ConnectionRuns

  predicate AllCalm(steps: seq<Step>) {
    forall i :: 0 <= i < |steps| ==> Calm(steps[i])
  }

  lemma {:induction false} RunInv(s: Server, steps: seq<Step>)
    requires Inv(s) && Legal(s, steps) && AllCalm(steps)
    ensures Inv(Run(s, steps))
    decreases |steps|
  {
    hide Inv;
    if steps != [] {
      StepInv(s, steps[0]);
      RunInv(Next(s, steps[0]), steps[1..]);
    }
  }

  /** A state some interleaving without urgent hang-ups reaches. */
  ghost predicate Reachable(s: Server) {
    exists name, address, subLoops: nat, steps ::
      && ConnNames.ValidAddress(address)
      && Legal(Started(name, address, subLoops), steps) && AllCalm(steps)
      && s == Run(Started(name, address, subLoops), steps)
  }

  lemma ReachableInv(s: Server)
    requires Reachable(s)
    ensures Inv(s)
  {
    hide Inv;
    var name, address, subLoops: nat, steps :|
      && ConnNames.ValidAddress(address)
      && Legal(Started(name, address, subLoops), steps) && AllCalm(steps)
      && s == Run(Started(name, address, subLoops), steps);
    StartedInv(name, address, subLoops);
    RunInv(Started(name, address, subLoops), steps);
  }

  /** A channel waiting in a loop's activeChannels_ belongs to a connection that is alive and established
      on that loop, so taking the guard never fails, and it never has. */
  lemma ActiveChannelsAreAlive(s: Server)
    requires Reachable(s)
    ensures s.misses == 0
    ensures forall l, i :: 0 <= l < |s.loops| && 0 <= i < |s.loops[l].active| && s.loops[l].active[i].ConnItem? ==>
      var c := s.loops[l].active[i].c;
      c in s.conns && s.conns[c].loop == l && s.conns[c].established == 1 && s.conns[c].closes == 0 && Alive(s, c)
  {
    ReachableInv(s);
    forall l, i | 0 <= l < |s.loops| && 0 <= i < |s.loops[l].active| && s.loops[l].active[i].ConnItem?
      ensures LiveOn(s.conns, s.loops[l].active[i].c, l)
      ensures Alive(s, s.loops[l].active[i].c)
      ensures RecOk(s, s.loops[l].active[i].c, s.conns[s.loops[l].active[i].c])
    {
      assert LoopOk(s.conns, l, s.loops[l], NoFlight);
      assert LiveOn(s.conns, s.loops[l].active[i].c, l);
      PhaseAlive(s, NoFlight, s.loops[l].active[i].c);
    }
  }

  /** What the two counters record: a dispatch whose connection is gone, and a name already in the map. */
  lemma CountersRecord(s: Server, l: nat, eof: bool, fd: int)
    ensures Enabled(s, Handle(l, eof)) ==>
      Next(s, Handle(l, eof)).misses == s.misses + One(!Alive(s, s.loops[l].active[0].c))
    ensures |s.loops| > 0 ==>
      Admitted(s, fd).overwrites == s.overwrites + One(NewRec(s, fd).name in s.connections)
  {
    hide HeldByLoop;
  }

  function One(b: bool): nat {
    if b then 1 else 0
  }

  /** Conservation: an accepted connection waits for exactly one of its functors, on the right loop, or
      is live, or gone; no other loop has a functor for it; and the functors already run are those that
      lead to where it is. */
  lemma TokenConservation(s: Server, c: Id)
    requires Reachable(s)
    ensures c in s.conns ==>
      var r := s.conns[c];
      && |s.loops| > 0 && r.loop < |s.loops|
      && (r.loop == 0 <==> |s.loops| == 1)
      && Pending(s.loops[r.loop])[Established(c)] + Pending(s.loops[0])[RemoveInLoop(c)]
         + Pending(s.loops[r.loop])[Destroyed(c)]
         + One(r.established == 1 && r.closes == 0) + One(r.destroyed == 1) == 1
      && (Pending(s.loops[r.loop])[Established(c)] == 1 <==> r.established == 0)
      && r.destroyed <= r.closes <= r.established <= 1
      && r.ups == r.established && r.downs == r.closes
    ensures forall l :: 0 <= l < |s.loops| ==>
      && (c !in s.conns || l != s.conns[c].loop ==>
           Pending(s.loops[l])[Established(c)] == 0 && Pending(s.loops[l])[Destroyed(c)] == 0)
      && (c !in s.conns || l != 0 ==> Pending(s.loops[l])[RemoveInLoop(c)] == 0)
  {
    hide Inv;
    ReachableInv(s);
    forall l | 0 <= l < |s.loops|
      ensures WaitingAre(s, l, c)
    {
      Waiting(s, l, Established(c));
      Waiting(s, l, RemoveInLoop(c));
      Waiting(s, l, Destroyed(c));
    }
    if c in s.conns {
      RecIsOk(s, c);
      assert WaitingAre(s, s.conns[c].loop, c) && WaitingAre(s, 0, c);
    }
    forall l | 0 <= l < |s.loops|
      ensures c !in s.conns || l != s.conns[c].loop ==>
        Pending(s.loops[l])[Established(c)] == 0 && Pending(s.loops[l])[Destroyed(c)] == 0
      ensures c !in s.conns || l != 0 ==> Pending(s.loops[l])[RemoveInLoop(c)] == 0
    {
      assert WaitingAre(s, l, c);
    }
  }

  lemma RecIsOk(s: Server, c: Id)
    requires Inv(s) && c in s.conns
    ensures RecOk(s, c, s.conns[c])
  {
  }

  predicate WaitingAre(s: Server, l: nat, c: Id)
    requires l < |s.loops|
  {
    && Pending(s.loops[l])[Established(c)] == Expected(s.conns, l, Established(c))
    && Pending(s.loops[l])[RemoveInLoop(c)] == Expected(s.conns, l, RemoveInLoop(c))
    && Pending(s.loops[l])[Destroyed(c)] == Expected(s.conns, l, Destroyed(c))
  }

  lemma Waiting(s: Server, l: nat, t: Token)
    requires Inv(s) && l < |s.loops| && Carries(t)
    ensures Pending(s.loops[l])[t] == Expected(s.conns, l, t)
  {
    assert LoopOk(s.conns, l, s.loops[l], NoFlight);
    assert Pending(s.loops[l])[t] + InFlight(NoFlight, l, t) == Expected(s.conns, l, t);
  }

  /** connections_ never lost an entry to a new connection, and holds exactly the connections that have
      not closed or whose removal still waits on the base loop, each under its own name; so erasing a
      name removes exactly that connection. */
  lemma ConnectionMapIsExact(s: Server)
    requires Reachable(s)
    ensures s.overwrites == 0 && |s.loops| > 0
    ensures forall c :: c in s.conns ==>
      var r := s.conns[c];
      (r.name in s.connections && s.connections[r.name] == c <==>
        r.closes == 0 || Pending(s.loops[0])[RemoveInLoop(c)] == 1)
    ensures forall n :: n in s.connections ==> s.connections[n] in s.conns && s.conns[s.connections[n]].name == n
  {
    ReachableInv(s);
    forall c | c in s.conns
      ensures var r := s.conns[c];
        (r.name in s.connections && s.connections[r.name] == c <==>
          r.closes == 0 || Pending(s.loops[0])[RemoveInLoop(c)] == 1)
    {
      EntryIsExact(s, c);
    }
  }

  lemma EntryIsExact(s: Server, c: Id)
    requires Inv(s) && c in s.conns && |s.loops| > 0
    ensures var r := s.conns[c];
      (r.name in s.connections && s.connections[r.name] == c <==>
        r.closes == 0 || Pending(s.loops[0])[RemoveInLoop(c)] == 1)
  {
    hide LoopsOk, FdsOk, Pending;
    RecIsOk(s, c);
    Waiting(s, 0, RemoveInLoop(c));
  }

  /** Descriptors may be reused as soon as a connection is destroyed, and still never collide: two live
      connections differ, a connection about to register finds its descriptor free, every table entry
      belongs to a connection that is alive, and no epoll_ctl call was ever refused. */
  lemma FdReuseIsSafe(s: Server)
    requires Reachable(s)
    ensures forall c, d :: c in s.conns && d in s.conns && c != d && Alive(s, c) && Alive(s, d) ==>
      s.conns[c].fd != s.conns[d].fd
    ensures forall c :: c in s.conns && Alive(s, c) ==> Known(s, c) && FdFree(s.loops[s.conns[c].loop].reg, c)
    ensures forall l :: 0 <= l < |s.loops| ==> TablesAgree(s, l)
  {
    ReachableInv(s);
    forall c | c in s.conns && Alive(s, c)
      ensures Known(s, c) && FdFree(s.loops[s.conns[c].loop].reg, c)
    {
      FdIsFree(s, NoFlight, c);
    }
    forall l | 0 <= l < |s.loops| ensures TablesAgree(s, l) {
      EntriesAlive(s, l);
    }
  }

  /** The poller of loop `l` agrees with its channels and the kernel, and knows only connections alive. */
  ghost predicate TablesAgree(s: Server, l: nat)
    requires l < |s.loops|
  {
    var reg := s.loops[l].reg;
    && Agreement(reg)
    && forall fd :: fd in reg.channels ==>
         var c := reg.channels[fd];
         c in s.conns && s.conns[c].fd == fd && s.conns[c].loop == l && Alive(s, c)
  }

  lemma EntriesAlive(s: Server, l: nat)
    requires Inv(s) && l < |s.loops|
    ensures TablesAgree(s, l)
  {
    assert LoopOk(s.conns, l, s.loops[l], NoFlight);
    var reg := s.loops[l].reg;
    forall fd | fd in reg.channels ensures Alive(s, reg.channels[fd]) {
      var c := reg.channels[fd];
      assert c in reg.chans && ChanAgrees(reg, c) && ChanOk(s.conns[c], reg.chans[c]);
      PhaseAlive(s, NoFlight, c);
    }
  }

  /** The handleClose calls a step of this model makes in one dispatch are those the connection makes. */
  lemma CloseCallsAreDispatched(cfg: Connections.Config, c: Connections.Conn, revents: Mask, k: WriteChoice,
                                r: ReadResult, app: seq<Connections.Event>)
    requires Connections.Inv(c) && Connections.Active(c) && ConnectionRuns.AppCalls(app)
    ensures ConnectionRuns.Dispatch(cfg, c, revents, k, r, app).closes ==
      c.closes + CloseCalls(revents, r == Got([]))
  {
    hide Connections.Inv, Connections.HandleWrite, ConnectionRuns.DispatchRead;
    ConnectionRuns.DispatchWriteIsRun(cfg, c, revents, k);
    var c1 := if Out in revents then Connections.HandleWrite(cfg, c, k) else c;
    ActiveHasNotClosed(c);
    ActiveHasNotClosed(c1);
    ReadCloses(cfg, c1, revents, r, app);
  }

  lemma ActiveHasNotClosed(c: Connections.Conn)
    requires Connections.Inv(c) && Connections.Active(c)
    ensures c.closes == 0
  {
  }

  lemma ReadCloses(cfg: Connections.Config, c: Connections.Conn, revents: Mask, r: ReadResult,
                   app: seq<Connections.Event>)
    requires Connections.Inv(c) && Connections.Active(c) && ConnectionRuns.AppCalls(app)
    ensures ConnectionRuns.DispatchRead(cfg, c, revents, r, app).closes ==
      c.closes + One((In in revents || Pri in revents) && r == Got([]))
  {
    Connections.ReadAndConsumeInv(c, r, 0);
    if r.Got? && r.bytes != [] {
      ConnectionRuns.AppKeepsActive(cfg, Connections.HandleRead(c, r), app);
    }
  }

  // ----- urgent hang-ups ----------------------------------------------------------------------------

  lemma CloseReportsDown(s: Server, l: nat)
    requires Enabled(s, Close(l)) && Known(s, s.loops[l].frame.c)
    ensures var f, s' := s.loops[l].frame, Next(s, Close(l));
            && |s'.loops| == |s.loops| && s'.loops[l].frame == Handling(f.c, f.closes - 1)
            && Known(s', f.c) && s'.conns[f.c].downs == s.conns[f.c].downs + 1
  {
    hide SetEvents;
    var c := s.loops[l].frame.c;
    OtherChansStay(s.loops[s.conns[c].loop].reg, c, NONE_EVENT);
  }

  lemma TwoClosesReportTwoDowns(s: Server, l: nat)
    requires l < |s.loops| && s.loops[l].frame.Handling? && s.loops[l].frame.closes == 2
    requires Known(s, s.loops[l].frame.c)
    ensures Legal(s, [Close(l), Close(l)])
    ensures var c, s' := s.loops[l].frame.c, Run(s, [Close(l), Close(l)]);
            c in s'.conns && s'.conns[c].downs == s.conns[c].downs + 2
  {
    var s1 := Next(s, Close(l));
    CloseReportsDown(s, l);
    CloseReportsDown(s1, l);
    var steps: seq<Step> := [Close(l), Close(l)];
    assert steps[1..] == [Close(l)] && [Close(l)][1..] == [];
    assert Run(s, steps) == Run(s1, [Close(l)]) == Next(s1, Close(l));
  }

  predicate DownAtMostOnce(s: Server, c: Id) {
    c in s.conns ==> s.conns[c].downs <= 1
  }

  lemma ReportedIsLive(s: Server, l: nat, revents: Mask, c: Id)
    requires Inv(s) && Enabled(s, Poll(l, [ConnItem(revents, c)]))
    ensures LiveOn(s.conns, c, l) && Known(s, c) && Alive(s, c) && s.loops[l].frame == NoFrame
  {
    assert [ConnItem(revents, c)][0].c == c;
    assert LoopOk(s.conns, l, s.loops[l], NoFlight);
    assert ChanAgrees(s.loops[l].reg, c) && ChanOk(s.conns[c], s.loops[l].reg.chans[c]);
    PhaseAlive(s, NoFlight, c);
  }

  /** What a wait reports for a live connection lets it be closed twice, whatever else the threads do,
      exactly when it is an urgent hang-up. */
  lemma ReportClosesOnce(s: Server, l: nat, revents: Mask, c: Id)
    requires Reachable(s) && Enabled(s, Poll(l, [ConnItem(revents, c)]))
    ensures var polled := Next(s, Poll(l, [ConnItem(revents, c)]));
            (forall steps :: Legal(polled, steps) && AllCalm(steps) ==> DownAtMostOnce(Run(polled, steps), c))
            <==> !ConnectionRuns.UrgentHangUp(revents)
  {
    hide Inv;
    ReachableInv(s);
    var poll := Poll(l, [ConnItem(revents, c)]);
    var polled := Next(s, poll);
    if ConnectionRuns.UrgentHangUp(revents) {
      ReportedIsLive(s, l, revents, c);
      RecIsOk(s, c);
      DispatchOfUrgentHangUp(s, l, revents, c);
    } else {
      StepInv(s, poll);
      forall steps | Legal(polled, steps) && AllCalm(steps) ensures DownAtMostOnce(Run(polled, steps), c) {
        RunInv(polled, steps);
        if c in Run(polled, steps).conns {
          RecIsOk(Run(polled, steps), c);
        }
      }
    }
  }

  lemma DispatchOfUrgentHangUp(s: Server, l: nat, revents: Mask, c: Id)
    requires Enabled(s, Poll(l, [ConnItem(revents, c)])) && ConnectionRuns.UrgentHangUp(revents)
    requires Known(s, c) && Alive(s, c) && s.loops[l].frame == NoFrame
    ensures var polled := Next(s, Poll(l, [ConnItem(revents, c)]));
            exists steps :: Legal(polled, steps) && AllCalm(steps) && !DownAtMostOnce(Run(polled, steps), c)
  {
    var polled := Next(s, Poll(l, [ConnItem(revents, c)]));
    assert Alive(polled, c) by {
      if HeldByMap(s, c) {
        assert HeldByMap(polled, c);
      } else if c !in s.held {
        var m :| 0 <= m < |s.loops| && HeldByLoop(s.loops[m], c);
        assert HeldByLoop(polled.loops[m], c);
      }
    }
    var handled := Next(polled, Handle(l, true));
    assert handled.loops[l].frame == Handling(c, 2);
    TwoClosesReportTwoDowns(handled, l);
    var steps := [Handle(l, true)] + [Close(l), Close(l)];
    assert steps[1..] == [Close(l), Close(l)];
    assert Legal(polled, steps) && AllCalm(steps) && !DownAtMostOnce(Run(polled, steps), c);
  }

  // ----- at rest ------------------------------------------------------------------------------------

  /** Every loop waits in its poll with nothing queued. */
  predicate AtRest(s: Server) {
    forall l :: 0 <= l < |s.loops| ==> s.loops[l].activity == Polling && s.loops[l].queue == []
  }

  lemma NothingPending(s: Server, l: nat)
    requires Inv(s) && AtRest(s) && l < |s.loops|
    ensures s.loops[l].todo == [] && s.loops[l].done == [] && s.loops[l].frame == NoFrame
    ensures forall t :: Pending(s.loops[l])[t] == 0
  {
    assert LoopOk(s.conns, l, s.loops[l], NoFlight);
  }

  /** At rest every closed connection was destroyed exactly once and, unless the application keeps it, no
      pointer to it is left, its descriptor is closed and no poller mentions it. */
  lemma NothingLeaksAtRest(s: Server, c: Id)
    requires Reachable(s) && AtRest(s) && c in s.conns
    ensures s.conns[c].established == 1
    ensures s.conns[c].closes == s.conns[c].destroyed
    ensures s.conns[c].closes == 1 ==>
      && (Alive(s, c) <==> c in s.held)
      && forall l, fd :: 0 <= l < |s.loops| && fd in s.loops[l].reg.channels ==> s.loops[l].reg.channels[fd] != c
  {
    hide Inv;
    ReachableInv(s);
    var r := s.conns[c];
    RecIsOk(s, c);
    NothingPending(s, r.loop);
    NothingPending(s, 0);
    Waiting(s, r.loop, Established(c));
    Waiting(s, 0, RemoveInLoop(c));
    Waiting(s, r.loop, Destroyed(c));
    if r.phase == Gone {
      GoneLeavesNothing(s, c);
    }
  }

  lemma GoneLeavesNothing(s: Server, c: Id)
    requires Inv(s) && AtRest(s) && c in s.conns && s.conns[c].phase == Gone
    ensures Alive(s, c) <==> c in s.held
    ensures forall l, fd :: 0 <= l < |s.loops| && fd in s.loops[l].reg.channels ==> s.loops[l].reg.channels[fd] != c
  {
    forall l | 0 <= l < |s.loops| ensures !HeldByLoop(s.loops[l], c) {
      NothingPending(s, l);
    }
    forall l, fd | 0 <= l < |s.loops| && fd in s.loops[l].reg.channels
      ensures s.loops[l].reg.channels[fd] != c
    {
      assert LoopOk(s.conns, l, s.loops[l], NoFlight);
      var d := s.loops[l].reg.channels[fd];
      assert ChanAgrees(s.loops[l].reg, d) && ChanOk(s.conns[d], s.loops[l].reg.chans[d]);
    }
  }
}
