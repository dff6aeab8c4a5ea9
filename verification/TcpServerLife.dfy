/** One whole life of a connection, on a server with sub-loops: accepted, established, reported, closed,
    destroyed and released.  So the steps of the server model can all be taken in their turn. */
module TcpServerLife {
  import opened Kernel
  import opened Registration
  import opened TcpServers
  import opened TcpServerInvariant
  import opened TcpServerRuns
  import opened TcpServerProgress
  import opened TcpServerRace
  import ConnNames
  import ThreadPools

  lemma ReachesReachable(s: Server, s': Server)
    requires Reachable(s) && Reaches(s, s')
    ensures Reachable(s')
  {
    var steps :| Legal(s, steps) && AllCalm(steps) && Run(s, steps) == s';
    StaysReachable(s, steps);
  }

  lemma ReachesOn(s: Server, s1: Server, s2: Server)
    requires Reaches(s, s1) && Reaches(s1, s2)
    ensures Reaches(s, s2)
  {
    var p :| Legal(s, p) && AllCalm(p) && Run(s, p) == s1;
    var q :| Legal(s1, q) && AllCalm(q) && Run(s1, q) == s2;
    RunAppend(s, p, q);
    assert AllCalm(p + q);
  }

  lemma StartedIsReachable(name: string, address: ConnNames.Address, subLoops: nat)
    requires ConnNames.ValidAddress(address)
    ensures Reachable(Started(name, address, subLoops))
  {
    var s := Started(name, address, subLoops);
    assert Legal(s, []) && AllCalm([]) && Run(s, []) == s;
  }

  /** The accept channel is reported and a descriptor accepted: the connection waits on sub-loop 1. */
  lemma IsAccepted(name: string, address: ConnNames.Address, subLoops: nat, fd: int) returns (s: Server)
    requires ConnNames.ValidAddress(address) && subLoops > 0
    ensures Reaches(Started(name, address, subLoops), s) && |s.loops| == subLoops + 1
    ensures 1 in s.conns && s.conns[1].fd == fd && s.conns[1].loop == 1 && s.conns[1].established == 0
    ensures s.loops[1].queue == [Established(1)] && s.loops[1].activity == Polling && s.loops[1].todo == []
    ensures s.loops[1].active == [] && s.loops[1].frame == NoFrame && Known(s, 1)
  {
    hide Reaches;
    var s0 := Started(name, address, subLoops);
    ReachesItself(s0);
    ReachesNext(s0, s0, Poll(0, [AcceptItem]));
    var s1 := Next(s0, Poll(0, [AcceptItem]));
    assert ThreadPools.LoopOfCall(subLoops, 0) == 1;
    ReachesNext(s0, s1, Step.Accept(fd));
    s := Next(s1, Step.Accept(fd));
  }

  /** Sub-loop 1 runs connectEstablished. */
  lemma IsEstablished(s: Server) returns (s': Server)
    requires |s.loops| > 1 && Known(s, 1) && s.conns[1].loop == 1
    requires s.loops[1].queue == [Established(1)] && s.loops[1].activity == Polling && s.loops[1].todo == []
    requires s.loops[1].active == [] && s.loops[1].frame == NoFrame
    ensures Reaches(s, s') && |s'.loops| == |s.loops| && Known(s', 1) && s'.conns[1].loop == 1
    ensures s'.conns[1] == EstablishedRec(s.conns[1])
    ensures s'.loops[1].activity == Polling && s'.loops[1].active == [] && s'.loops[1].frame == NoFrame
  {
    hide Reaches, SetEvents;
    OtherChansStay(s.loops[1].reg, 1, s.loops[1].reg.chans[1].events + READ_EVENT);
    ReachesItself(s);
    ReachesNext(s, s, Poll(1, []));
    var s1 := Next(s, Poll(1, []));
    ReachesNext(s, s1, Swap(1));
    var s2 := Next(s1, Swap(1));
    ReachesNext(s, s2, RunToken(1));
    var s3 := Next(s2, RunToken(1));
    ReachesNext(s, s3, EndBatch(1));
    s' := Next(s3, EndBatch(1));
  }

  /** Bytes, or the end of the stream, are reported for it. */
  lemma IsReported(s: Server) returns (s': Server)
    requires Reachable(s) && |s.loops| > 1 && Known(s, 1) && s.conns[1].loop == 1 && s.conns[1].established == 1
    requires s.conns[1].closes == 0
    requires s.loops[1].activity == Polling && s.loops[1].active == [] && s.loops[1].frame == NoFrame
    ensures Reaches(s, s') && |s'.loops| == |s.loops| && Known(s', 1) && s'.conns == s.conns && Alive(s', 1)
    ensures s'.loops[1].activity == Dispatching && s'.loops[1].active == [ConnItem({In}, 1)]
    ensures s'.loops[1].frame == NoFrame
  {
    hide Reaches, Inv, Alive;
    ReachableInv(s);
    LiveIsReported(s, 1);
    ReachesItself(s);
    ReachesNext(s, s, Poll(1, [ConnItem({In}, 1)]));
    s' := Next(s, Poll(1, [ConnItem({In}, 1)]));
    ReachesReachable(s, s');
    ActiveChannelsAreAlive(s');
    assert s'.loops[1].active[0] == ConnItem({In}, 1);
  }

  /** The read finds the end of the stream and handleClose runs; the application keeps a pointer. */
  lemma IsClosed(s: Server) returns (s': Server)
    requires |s.loops| > 1 && Known(s, 1) && s.conns[1].loop == 1 && s.conns[1].closes == 0 && Alive(s, 1)
    requires s.loops[1].activity == Dispatching && s.loops[1].active == [ConnItem({In}, 1)]
    requires s.loops[1].frame == NoFrame
    ensures Reaches(s, s') && 1 in s'.conns && s'.conns[1].closes == 1 && 1 in s'.held
    ensures s'.conns[1].fd == s.conns[1].fd
  {
    hide Reaches, SetEvents;
    ReachesItself(s);
    ReachesNext(s, s, Handle(1, true));
    var s1 := Next(s, Handle(1, true));
    assert s1.loops[1].frame == Handling(1, 1);
    assert HeldByLoop(s1.loops[1], 1);
    ReachesNext(s, s1, Hold(1));
    var s2 := Next(s1, Hold(1));
    ReachesNext(s, s2, Close(1));
    s' := Next(s2, Close(1));
  }

  lemma LiveIsReported(s: Server, c: Id)
    requires Inv(s) && Known(s, c) && s.conns[c].established == 1 && s.conns[c].closes == 0
    ensures Reported(s.loops[s.conns[c].loop].reg, {In}, c)
  {
    var l := s.conns[c].loop;
    assert RecOk(s, c, s.conns[c]);
    assert LoopOk(s.conns, l, s.loops[l], NoFlight);
    assert ChanOk(s.conns[c], s.loops[l].reg.chans[c]) && ChanAgrees(s.loops[l].reg, c);
  }

  lemma LivesUntilClosed(name: string, address: ConnNames.Address, subLoops: nat, fd: int) returns (s: Server)
    requires ConnNames.ValidAddress(address) && subLoops > 0
    ensures Reaches(Started(name, address, subLoops), s) && Reachable(s)
    ensures 1 in s.conns && s.conns[1].closes == 1 && 1 in s.held && s.conns[1].fd == fd
  {
    hide Reaches, Reachable, Alive, EstablishedRec;
    var s0 := Started(name, address, subLoops);
    StartedIsReachable(name, address, subLoops);
    var s1 := IsAccepted(name, address, subLoops, fd);
    ReachesReachable(s0, s1);
    var s2 := IsEstablished(s1);
    ReachesReachable(s1, s2);
    TokenConservation(s1, 1);
    EstablishedOnce(s1.conns[1]);
    var s3 := IsReported(s2);
    s := IsClosed(s3);
    ReachesOn(s0, s1, s2);
    ReachesOn(s0, s2, s3);
    ReachesOn(s0, s3, s);
    ReachesReachable(s0, s);
  }

  lemma EstablishedOnce(r: Rec)
    ensures EstablishedRec(r).established == r.established + 1
    ensures EstablishedRec(r).closes == r.closes && EstablishedRec(r).fd == r.fd
  {
  }

  /** From the start of the server with sub-loops, for any descriptor: a connection is accepted, closed once
      and destroyed once, and the application holds the last pointer to it until it drops that. */
  lemma WholeLife(name: string, address: ConnNames.Address, subLoops: nat, fd: int) returns (s: Server, s': Server)
    requires ConnNames.ValidAddress(address) && subLoops > 0
    ensures Reaches(Started(name, address, subLoops), s)
    ensures 1 in s.conns && s.conns[1].fd == fd && AtRest(s)
    ensures s.conns[1].established == s.conns[1].closes == s.conns[1].destroyed == 1
    ensures Alive(s, 1) && Enabled(s, Drop(1)) && s' == Next(s, Drop(1)) && !Alive(s', 1)
  {
    hide Reaches, Reachable, Alive;
    var closed := LivesUntilClosed(name, address, subLoops, fd);
    s := IsFinished(closed);
    ReachesOn(Started(name, address, subLoops), closed, s);
    ReachesReachable(closed, s);
    NothingLeaksAtRest(s, 1);
    ReachesItself(s);
    ReachesNext(s, s, Drop(1));
    s' := Next(s, Drop(1));
    ReachesReachable(s, s');
    NothingLeaksAtRest(s', 1);
  }

  lemma {:induction false} HeldStays(s: Server, steps: seq<Step>)
    requires Legal(s, steps) && AllQuiet(steps)
    ensures Run(s, steps).held == s.held
    decreases |steps|
  {
    if steps != [] {
      assert Quiet(steps[0]);
      assert forall i :: 0 <= i < |steps[1..]| ==> steps[1..][i] == steps[i + 1];
      StepKeepsHeld(s, steps[0]);
      HeldStays(Next(s, steps[0]), steps[1..]);
    }
  }

  lemma StepKeepsHeld(s: Server, step: Step)
    requires Enabled(s, step) && Quiet(step)
    ensures Next(s, step).held == s.held
  {
    hide SetEvents, RemoveChannel, Alive;
  }

  /** Where the loops have come to rest after a close. */
  lemma IsFinished(s: Server) returns (s': Server)
    requires Reachable(s) && 1 in s.conns && s.conns[1].closes == 1 && 1 in s.held
    ensures Reaches(s, s') && AtRest(s') && 1 in s'.conns && 1 in s'.held
    ensures s'.conns[1].established == s'.conns[1].closes == s'.conns[1].destroyed == 1
    ensures s'.conns[1].fd == s.conns[1].fd
  {
    hide Inv, Alive;
    ReachableInv(s);
    var steps := RestIsReached(s);
    BusyRunsEnd(s, steps);
    QuietIsCalm(steps);
    s' := Run(s, steps);
    assert Reaches(s, s');
    ReachesReachable(s, s');
    HistoryGrows(s, steps, 1);
    HeldStays(s, steps);
    FdStays(s, steps, 1);
    TokenConservation(s', 1);
    NothingLeaksAtRest(s', 1);
  }

  lemma {:induction false} FdStays(s: Server, steps: seq<Step>, c: Id)
    requires Legal(s, steps) && AllQuiet(steps) && c in s.conns
    ensures c in Run(s, steps).conns && Run(s, steps).conns[c].fd == s.conns[c].fd
    decreases |steps|
  {
    if steps != [] {
      assert Quiet(steps[0]);
      assert forall i :: 0 <= i < |steps[1..]| ==> steps[1..][i] == steps[i + 1];
      StepKeepsFd(s, steps[0], c);
      FdStays(Next(s, steps[0]), steps[1..], c);
    }
  }

  lemma StepKeepsFd(s: Server, step: Step, c: Id)
    requires Enabled(s, step) && Quiet(step) && c in s.conns
    ensures c in Next(s, step).conns && Next(s, step).conns[c].fd == s.conns[c].fd
  {
    hide EstablishNow, CloseNow, RemoveNow, DestroyNow, Alive;
    match step
    case RunToken(l) => ExecuteKeepsFd(WithLoop(s, l, Popped(s.loops[l])), s.loops[l].todo[0], c);
    case Close(l) =>
      var f := s.loops[l].frame;
      var s1 := WithLoop(s, l, s.loops[l].(frame := Handling(f.c, f.closes - 1)));
      CloseKeepsFd(s1, f.c, c);
      CloseGrows(s1, f.c, c);
      ExecuteKeepsFd(CloseNow(s1, f.c), RemoveInLoop(f.c), c);
    case _ =>
  }

  lemma CloseKeepsFd(s: Server, d: Id, c: Id)
    requires c in s.conns
    ensures c in CloseNow(s, d).conns && CloseNow(s, d).conns[c].fd == s.conns[c].fd
  {
    hide SetEvents;
  }

  lemma ExecuteKeepsFd(s: Server, t: Token, c: Id)
    requires c in s.conns
    ensures c in Execute(s, t).conns && Execute(s, t).conns[c].fd == s.conns[c].fd
  {
    hide SetEvents, RemoveChannel;
  }
}
