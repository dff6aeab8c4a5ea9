/** What the race in shutdown() does to the server: a state set back after the close lets a queued send
    register the closed channel again, and the connection is closed a second time. */
module TcpServerRace {
  import opened Kernel
  import opened Registration
  import opened TcpServers
  import opened TcpServerInvariant
  import opened TcpServerRuns
  import opened TcpServerProgress
  import Connections

  /** `s'` is reached from `s` without the race and without urgent hang-ups. */
  ghost predicate Reaches(s: Server, s': Server) {
    exists steps :: Legal(s, steps) && AllCalm(steps) && Run(s, steps) == s'
  }

  lemma ReachesNext(s: Server, s1: Server, step: Step)
    requires Reaches(s, s1) && Enabled(s1, step) && Calm(step)
    ensures Reaches(s, Next(s1, step))
  {
    hide Next, Enabled;
    var steps :| Legal(s, steps) && AllCalm(steps) && Run(s, steps) == s1;
    OneStep(s1, step);
    RunAppend(s, steps, [step]);
    assert AllCalm(steps + [step]);
  }

  lemma ReachesItself(s: Server)
    ensures Reaches(s, s)
  {
    assert Legal(s, []) && AllCalm([]) && Run(s, []) == s;
  }

  /** The channel of a closed connection, its state set back, after enableWriting. */
  lemma ReopenedIsReported(reg: Registry<Id>, c: Id)
    requires Agreement(reg) && c in reg.chans && reg.chans[c].index == Deleted && reg.chans[c].events == NONE_EVENT
    ensures Reported(SetEvents(reg, c, WithWriting(NONE_EVENT, true)), {Hup}, c)
  {
    assert ChanAgrees(reg, c);
    assert Out in WithWriting(NONE_EVENT, true);
    SetEventsAgrees(reg, c, WithWriting(NONE_EVENT, true));
    OtherChansStay(reg, c, WithWriting(NONE_EVENT, true));
    assert ChanAgrees(SetEvents(reg, c, WithWriting(NONE_EVENT, true)), c);
  }

  /** A connection that handleClose has closed and connectDestroyed has yet to destroy, with its loop at
      the end of a batch. */
  ghost predicate ClosedAtEndOfBatch(s: Server, c: Id) {
    && Known(s, c) && s.conns[c].closes == 1 && s.conns[c].destroyed == 0 && c in s.held
    && s.loops[s.conns[c].loop].activity == Running && s.loops[s.conns[c].loop].todo == []
  }

  lemma ClosedIsUnregistered(s: Server, c: Id)
    requires Inv(s) && ClosedAtEndOfBatch(s, c)
    ensures var r, loop := s.conns[c], s.loops[s.conns[c].loop];
            && r.state == Connections.Disconnected && r.downs == 1
            && Agreement(loop.reg) && loop.reg.chans[c].index == Deleted && loop.reg.chans[c].events == NONE_EVENT
            && loop.active == [] && loop.frame == NoFrame
  {
    assert RecOk(s, c, s.conns[c]);
    assert LoopOk(s.conns, s.conns[c].loop, s.loops[s.conns[c].loop], NoFlight);
    assert ChanOk(s.conns[c], s.loops[s.conns[c].loop].reg.chans[c]);
  }

  /** From the set on: the queued send asks for room, the batch ends, and the wait reports a hang-up. */
  lemma SetBackIsReported(s: Server, c: Id) returns (s': Server)
    requires ClosedAtEndOfBatch(s, c) && s.conns[c].state == Connections.Disconnecting && s.conns[c].downs == 1
    requires var loop := s.loops[s.conns[c].loop];
             && Agreement(loop.reg) && loop.reg.chans[c].index == Deleted && loop.reg.chans[c].events == NONE_EVENT
             && loop.active == [] && loop.frame == NoFrame
    ensures Reaches(s, s') && Known(s', c) && s'.conns[c] == s.conns[c] && c in s'.held
    ensures var loop := s'.loops[s.conns[c].loop];
            loop.activity == Dispatching && loop.active == [ConnItem({Hup}, c)] && loop.frame == NoFrame
  {
    hide SetEvents, Agreement, Reported, Reaches;
    var l := s.conns[c].loop;
    ReachesItself(s);
    ReopenedIsReported(s.loops[l].reg, c);
    OtherChansStay(s.loops[l].reg, c, WithWriting(NONE_EVENT, true));
    ReachesNext(s, s, SetWriting(l, c, true));
    var s1 := Next(s, SetWriting(l, c, true));
    ReachesNext(s, s1, EndBatch(l));
    var s2 := Next(s1, EndBatch(l));
    ReachesNext(s, s2, Poll(l, [ConnItem({Hup}, c)]));
    s' := Next(s2, Poll(l, [ConnItem({Hup}, c)]));
  }

  lemma ReportedIsClosed(s: Server, c: Id) returns (s': Server)
    requires Known(s, c) && c in s.held
    requires var loop := s.loops[s.conns[c].loop];
             loop.activity == Dispatching && loop.active == [ConnItem({Hup}, c)] && loop.frame == NoFrame
    ensures Reaches(s, s') && c in s'.conns && s'.conns[c].downs == s.conns[c].downs + 1
  {
    hide Reaches;
    var l := s.conns[c].loop;
    ReachesItself(s);
    ReachesNext(s, s, Handle(l, false));
    var s1 := Next(s, Handle(l, false));
    assert s1.loops[l].frame == Handling(c, 1);
    CloseReportsDown(s1, l);
    ReachesNext(s, s1, Close(l));
    s' := Next(s1, Close(l));
  }

  /** As it stands, a closed connection reports DOWN once in every continuation; with its state set back,
      it may do so again. */
  lemma LateSetClosesTwice(s: Server, c: Id)
    requires Reachable(s) && ClosedAtEndOfBatch(s, c)
    ensures forall steps :: Legal(s, steps) && AllCalm(steps) ==> DownAtMostOnce(Run(s, steps), c)
    ensures Enabled(s, LateSet(c))
    ensures exists steps :: Legal(Next(s, LateSet(c)), steps) && AllCalm(steps)
                            && !DownAtMostOnce(Run(Next(s, LateSet(c)), steps), c)
  {
    hide Inv, Agreement;
    ReachableInv(s);
    forall steps | Legal(s, steps) && AllCalm(steps) ensures DownAtMostOnce(Run(s, steps), c) {
      RunInv(s, steps);
      if c in Run(s, steps).conns {
        RecIsOk(Run(s, steps), c);
      }
    }
    ClosedIsUnregistered(s, c);
    var setBack := Next(s, LateSet(c));
    var reported := SetBackIsReported(setBack, c);
    var closed := ReportedIsClosed(reported, c);
    var p :| Legal(setBack, p) && AllCalm(p) && Run(setBack, p) == reported;
    var q :| Legal(reported, q) && AllCalm(q) && Run(reported, q) == closed;
    RunAppend(setBack, p, q);
    assert AllCalm(p + q) && !DownAtMostOnce(Run(setBack, p + q), c);
  }
}
