/** Every step of the connection life cycle keeps the invariant. */
module TcpServerSteps {
  import opened Kernel
  import opened Registration
  import opened TcpServers
  import opened TcpServerInvariant
  import Connections
  import ConnectionRuns
  import ConnNames

  // ----- steps that change one loop only --------------------------------------------------------------

  lemma HoldersStay(s: Server, l: nat, loop: Loop)
    requires l < |s.loops|
    requires forall c :: HeldByLoop(loop, c) ==> HeldByLoop(s.loops[l], c)
    ensures HoldersAlive(s, loop)
  {
  }

  lemma PollInv(s: Server, l: nat, items: seq<Item>)
    requires Inv(s) && Enabled(s, Poll(l, items)) && Calm(Poll(l, items))
    ensures Inv(Next(s, Poll(l, items)))
  {
    var loop := s.loops[l].(activity := Dispatching, active := items);
    var reg := s.loops[l].reg;
    assert LoopOk(s.conns, l, s.loops[l], NoFlight);
    forall i | 0 <= i < |items| && items[i].ConnItem? ensures LiveOn(s.conns, items[i].c, l) {
      assert Reported(reg, items[i].revents, items[i].c);
      assert ChanAgrees(reg, items[i].c) && ChanOk(s.conns[items[i].c], reg.chans[items[i].c]);
    }
    assert ActiveOk(s.conns, l, loop);
    HoldersStay(s, l, loop);
    ChangeLoop(s, NoFlight, l, loop, NoFlight);
  }

  lemma NextItemIsLive(s: Server, l: nat)
    requires Inv(s) && l < |s.loops| && s.loops[l].activity == Dispatching
    requires s.loops[l].active != [] && s.loops[l].active[0].ConnItem?
    ensures var item := s.loops[l].active[0];
            LiveOn(s.conns, item.c, l) && !ConnectionRuns.UrgentHangUp(item.revents) && Alive(s, item.c)
  {
    assert LoopOk(s.conns, l, s.loops[l], NoFlight);
    assert LiveOn(s.conns, s.loops[l].active[0].c, l);
    PhaseAlive(s, NoFlight, s.loops[l].active[0].c);
  }

  lemma ActiveHandled(conns: Conns, l: nat, loop: Loop, eof: bool)
    requires ActiveOk(conns, l, loop) && loop.activity == Dispatching
    requires loop.active != [] && loop.active[0].ConnItem?
    ensures ActiveOk(conns, l, loop.(active := loop.active[1..],
                                     frame := Handling(loop.active[0].c, CloseCalls(loop.active[0].revents, eof))))
  {
    assert LiveOn(conns, loop.active[0].c, l);
  }

  lemma HandleLocal(conns: Conns, l: nat, loop: Loop, eof: bool)
    requires LoopOk(conns, l, loop, NoFlight) && loop.activity == Dispatching
    requires loop.active != [] && loop.active[0].ConnItem?
    ensures LoopOk(conns, l, loop.(active := loop.active[1..],
                                   frame := Handling(loop.active[0].c, CloseCalls(loop.active[0].revents, eof))),
                   NoFlight)
  {
    hide ActiveOk, RegOk;
    ActiveHandled(conns, l, loop, eof);
  }

  lemma LoopIsOk(s: Server, l: nat)
    requires Inv(s) && l < |s.loops|
    ensures LoopOk(s.conns, l, s.loops[l], NoFlight)
  {
  }

  lemma HandleInv(s: Server, l: nat, eof: bool)
    requires Inv(s) && Enabled(s, Handle(l, eof))
    ensures Inv(Next(s, Handle(l, eof)))
  {
    hide Inv, InvWith, LoopOk;
    var item := s.loops[l].active[0];
    NextItemIsLive(s, l);
    LoopIsOk(s, l);
    HandleLocal(s.conns, l, s.loops[l], eof);
    var loop := s.loops[l].(active := s.loops[l].active[1..],
                            frame := Handling(item.c, CloseCalls(item.revents, eof)));
    forall c | c in s.conns && HeldByLoop(loop, c) ensures Alive(s, c) {
      assert c != item.c ==> HeldByLoop(s.loops[l], c);
    }
    InvIsInvWith(s);
    ChangeLoop(s, NoFlight, l, loop, NoFlight);
    InvIsInvWith(WithLoop(s, l, loop));
  }

  lemma InvIsInvWith(s: Server)
    ensures Inv(s) <==> InvWith(s, NoFlight)
  {
  }

  lemma EndHandleInv(s: Server, l: nat)
    requires Inv(s) && Enabled(s, EndHandle(l))
    ensures Inv(Next(s, EndHandle(l)))
  {
    var loop := s.loops[l].(frame := NoFrame);
    assert LoopOk(s.conns, l, s.loops[l], NoFlight);
    HoldersStay(s, l, loop);
    ChangeLoop(s, NoFlight, l, loop, NoFlight);
  }

  lemma SwapInv(s: Server, l: nat)
    requires Inv(s) && Enabled(s, Swap(l))
    ensures Inv(Next(s, Swap(l)))
  {
    var loop := s.loops[l].(activity := Running, todo := s.loops[l].queue, queue := []);
    assert LoopOk(s.conns, l, s.loops[l], NoFlight);
    assert Pending(loop) == Pending(s.loops[l]);
    HoldersStay(s, l, loop);
    ChangeLoop(s, NoFlight, l, loop, NoFlight);
  }

  lemma EndBatchInv(s: Server, l: nat)
    requires Inv(s) && Enabled(s, EndBatch(l))
    ensures Inv(Next(s, EndBatch(l)))
  {
    var loop := s.loops[l].(activity := Polling, done := []);
    assert LoopOk(s.conns, l, s.loops[l], NoFlight);
    HoldersStay(s, l, loop);
    ChangeLoop(s, NoFlight, l, loop, NoFlight);
  }

  lemma PushLocal(conns: Conns, l: nat, loop: Loop, f: Flight, t: Token)
    requires LoopOk(conns, l, loop, f)
    requires if Carries(t) then f == Flight(l, t) else f == NoFlight
    ensures LoopOk(conns, l, loop.(queue := loop.queue + [t]), NoFlight)
  {
    var loop' := loop.(queue := loop.queue + [t]);
    assert Pending(loop') == Pending(loop) + multiset{t};
    assert TokensOk(conns, l, loop', NoFlight);
  }

  /** Queueing a functor: a user callback, or the one in flight. */
  lemma PushInv(s: Server, f: Flight, l: nat, t: Token)
    requires InvWith(s, f) && l < |s.loops| && (t.OffLoopCall? || Alive(s, t.c))
    requires if Carries(t) then f == Flight(l, t) else f == NoFlight
    ensures Inv(Push(s, l, t))
  {
    var loop := s.loops[l].(queue := s.loops[l].queue + [t]);
    PushLocal(s.conns, l, s.loops[l], f, t);
    forall c | c in s.conns && HeldByLoop(loop, c) ensures Alive(s, c) {
      assert c != t.c ==> HeldByLoop(s.loops[l], c);
    }
    ChangeLoop(s, f, l, loop, NoFlight);
  }

  lemma UserCallInv(s: Server, l: nat, c: Id, n: nat)
    requires Inv(s) && l < |s.loops| && Alive(s, c)
    ensures Inv(Push(s, l, UserCall(c, n)))
  {
    PushInv(s, NoFlight, l, UserCall(c, n));
  }

  lemma OffLoopCallInv(s: Server, c: Id)
    requires Inv(s) && Known(s, c)
    ensures Inv(Push(s, s.conns[c].loop, OffLoopCall(c)))
  {
    PushInv(s, NoFlight, s.conns[c].loop, OffLoopCall(c));
  }

  function PopFlight(l: nat, t: Token): Flight {
    if Carries(t) then Flight(l, t) else NoFlight
  }

  lemma PopLocal(conns: Conns, l: nat, loop: Loop)
    requires LoopOk(conns, l, loop, NoFlight) && loop.todo != []
    ensures LoopOk(conns, l, Popped(loop), PopFlight(l, loop.todo[0]))
    ensures Carries(loop.todo[0]) ==> loop.todo[0].c in conns
    ensures !loop.todo[0].OffLoopCall? ==> HeldByLoop(Popped(loop), loop.todo[0].c)
    ensures forall c :: HeldByLoop(Popped(loop), c) ==> HeldByLoop(loop, c)
  {
    var t := loop.todo[0];
    assert loop.todo == [t] + Popped(loop).todo;
    assert Pending(loop) == Pending(Popped(loop)) + multiset{t};
    assert TokensOk(conns, l, Popped(loop), PopFlight(l, t));
    if Carries(t) {
      assert Expected(conns, l, t) >= 1;
    }
    assert t in Popped(loop).done;
  }

  /** Taking the next functor of the batch puts it in flight; the batch still holds its connection. */
  lemma PopInv(s: Server, l: nat)
    requires Inv(s) && l < |s.loops| && s.loops[l].todo != []
    ensures InvWith(WithLoop(s, l, Popped(s.loops[l])), PopFlight(l, s.loops[l].todo[0]))
  {
    var loop := Popped(s.loops[l]);
    PopLocal(s.conns, l, s.loops[l]);
    HoldersStay(s, l, loop);
    assert WithLoop(s, l, loop).loops[l] == loop;
    ChangeLoop(s, NoFlight, l, loop, PopFlight(l, s.loops[l].todo[0]));
  }

  lemma MaskLocal(conns: Conns, l: nat, loop: Loop, c: Id, events: Mask)
    requires LoopOk(conns, l, loop, NoFlight) && LiveOn(conns, c, l) && READ_EVENT <= events
    ensures LoopOk(conns, l, loop.(reg := SetEvents(loop.reg, c, events)), NoFlight)
  {
    assert In in events;
    assert ChanOk(conns[c], loop.reg.chans[c]);
    OtherChansStay(loop.reg, c, events);
    RegAfterMask(conns, l, loop.reg, c, events, conns[c]);
    assert conns[c := conns[c]] == conns;
  }

  lemma SetWritingInv(s: Server, l: nat, c: Id, events: Mask)
    requires Inv(s) && l < |s.loops| && LiveOn(s.conns, c, l) && Known(s, c) && READ_EVENT <= events
    ensures Inv(ChangeMask(s, c, events))
  {
    var loop := s.loops[l].(reg := SetEvents(s.loops[l].reg, c, events));
    MaskLocal(s.conns, l, s.loops[l], c, events);
    HoldersStay(s, l, loop);
    ChangeLoop(s, NoFlight, l, loop, NoFlight);
  }

  // ----- steps outside the loops ----------------------------------------------------------------------

  lemma HoldDropInv(s: Server, step: Step)
    requires Inv(s) && (step.Hold? || step.Drop?) && Enabled(s, step)
    ensures Inv(Next(s, step))
  {
    var s' := Next(s, step);
    forall c | c in s.conns && Alive(s', c) ensures Alive(s, c) {
      if HeldByMap(s', c) {
        assert HeldByMap(s, c);
      }
    }
    FdsKept(s, s');
    SameRecs(s, s');
  }

  // ----- steps of one connection ------------------------------------------------------------------------

  lemma MapUnchanged(conns: Conns, connections: map<string, Id>, c: Id, r: Rec)
    requires MapOk(conns, connections) && c in conns && r.name == conns[c].name
    requires InMap(r) <==> InMap(conns[c])
    ensures MapOk(conns[c := r], connections)
  {
  }

  lemma MapAfterErase(conns: Conns, connections: map<string, Id>, c: Id, r: Rec)
    requires MapOk(conns, connections) && c in conns && r.name == conns[c].name
    requires InMap(conns[c]) && !InMap(r)
    ensures MapOk(conns[c := r], connections - {r.name})
    ensures (connections - {r.name}).Items <= connections.Items
  {
  }

  lemma RecAndMap(s: Server, f: Flight, c: Id)
    requires InvWith(s, f) && c in s.conns
    ensures RecOk(s, c, s.conns[c]) && MapOk(s.conns, s.connections)
  {
  }

  /** A change of a connection that leaves its loop as it is. */
  lemma RecOnly(s: Server, f: Flight, c: Id, r: Rec, f': Flight)
    requires InvWith(s, f) && c in s.conns && r.loop == s.conns[c].loop && r.fd == s.conns[c].fd
    requires RecOk(s, c, r) && r.name == s.conns[c].name && (InMap(r) <==> InMap(s.conns[c]))
    requires LoopOk(s.conns[c := r], r.loop, s.loops[r.loop], f') && OwedElsewhere(c, s.conns[c], r, f, f')
    requires FlightOk(Changed(s, c, r, s.loops[r.loop], s.connections), f')
    ensures InvWith(Changed(s, c, r, s.loops[r.loop], s.connections), f')
  {
    MapUnchanged(s.conns, s.connections, c, r);
    HoldersStay(s, r.loop, s.loops[r.loop]);
    ChangeConn(s, f, c, r, s.loops[r.loop], s.connections, f');
  }

  // HalfClose: shutdown() sets the state.

  lemma HalfCloseLocal(conns: Conns, l: nat, loop: Loop, c: Id)
    requires LoopOk(conns, l, loop, NoFlight) && LiveOn(conns, c, l)
    ensures LoopOk(conns[c := HalfClosed(conns[c])], l, loop, NoFlight)
    ensures OwedElsewhere(c, conns[c], HalfClosed(conns[c]), NoFlight, NoFlight)
  {
    TokensAfter(conns, c, HalfClosed(conns[c]), l, loop, NoFlight, NoFlight);
    ActiveAfter(conns, c, HalfClosed(conns[c]), l, loop);
    assert ChanOk(conns[c], loop.reg.chans[c]);
  }

  lemma HalfCloseInv(s: Server, c: Id)
    requires Inv(s) && c in s.conns && s.conns[c].state == Connections.Connected
    ensures Inv(WithConn(s, c, HalfClosed(s.conns[c])))
  {
    var r := HalfClosed(s.conns[c]);
    var loop := s.loops[r.loop];
    assert RecOk(s, c, s.conns[c]);
    LoopKept(s, c, r, s.connections);
    HalfCloseLocal(s.conns, r.loop, loop, c);
    RecOnly(s, NoFlight, c, r, NoFlight);
  }

  // connectEstablished.

  function EstablishedLoop(loop: Loop, c: Id): Loop
    requires c in loop.reg.chans
  {
    loop.(reg := SetEvents(loop.reg, c, loop.reg.chans[c].events + READ_EVENT))
  }

  lemma EstablishLocal(conns: Conns, l: nat, loop: Loop, c: Id)
    requires LoopOk(conns, l, loop, Flight(l, Established(c)))
    requires c in loop.reg.chans && FdFree(loop.reg, c)
    ensures c in conns && conns[c].phase == EstablishQueued && conns[c].loop == l
    ensures LoopOk(conns[c := EstablishedRec(conns[c])], l, EstablishedLoop(loop, c), NoFlight)
    ensures OwedElsewhere(c, conns[c], EstablishedRec(conns[c]), Flight(l, Established(c)), NoFlight)
  {
    var f := Flight(l, Established(c));
    assert Expected(conns, l, Established(c)) >= 1;
    var r := EstablishedRec(conns[c]);
    var events := loop.reg.chans[c].events + READ_EVENT;
    assert In in events;
    assert ChanOk(conns[c], loop.reg.chans[c]);
    TokensAfter(conns, c, r, l, loop, f, NoFlight);
    ActiveAfter(conns, c, r, l, EstablishedLoop(loop, c));
    OtherChansStay(loop.reg, c, events);
    RegAfterMask(conns, l, loop.reg, c, events, r);
    assert TokensOk(conns[c := r], l, EstablishedLoop(loop, c), NoFlight);
  }

  lemma EstablishIsChange(s: Server, c: Id)
    requires Known(s, c)
    ensures var r0 := s.conns[c];
            EstablishNow(s, c) ==
              Changed(s, c, EstablishedRec(r0), EstablishedLoop(s.loops[r0.loop], c), s.connections)
  {
  }

  /** The part of the proof that needs the whole server. */
  lemma EstablishGlobal(s: Server, l: nat, c: Id)
    requires InvWith(s, Flight(l, Established(c)))
    requires Known(s, c) && s.conns[c].loop == l && s.conns[c].phase == EstablishQueued
    requires LoopOk(s.conns[c := EstablishedRec(s.conns[c])], l, EstablishedLoop(s.loops[l], c), NoFlight)
    requires OwedElsewhere(c, s.conns[c], EstablishedRec(s.conns[c]), Flight(l, Established(c)), NoFlight)
    ensures Inv(Changed(s, c, EstablishedRec(s.conns[c]), EstablishedLoop(s.loops[l], c), s.connections))
  {
    hide InvWith, LoopOk, MapOk, OwedElsewhere;
    var r, loop := EstablishedRec(s.conns[c]), EstablishedLoop(s.loops[l], c);
    RecAndMap(s, Flight(l, Established(c)), c);
    MapUnchanged(s.conns, s.connections, c, r);
    HoldersStay(s, l, loop);
    ChangeConn(s, Flight(l, Established(c)), c, r, loop, s.connections, NoFlight);
  }

  /** connectEstablished runs on a connection that waits for it and for nothing else. */
  lemma EstablishInv(s: Server, l: nat, c: Id)
    requires InvWith(s, Flight(l, Established(c)))
    ensures s.conns[c].phase == EstablishQueued && s.conns[c].loop == l
    ensures Inv(EstablishNow(s, c))
  {
    var f := Flight(l, Established(c));
    FdIsFree(s, f, c);
    assert LoopOk(s.conns, l, s.loops[l], f);
    assert s.conns[c].loop == l by {
      assert Expected(s.conns, l, Established(c)) >= 1;
    }
    EstablishLocal(s.conns, l, s.loops[l], c);
    EstablishGlobal(s, l, c);
    EstablishIsChange(s, c);
  }

  // removeConnectionInLoop.

  lemma RemoveLocal(conns: Conns, loop: Loop, c: Id)
    requires c in conns && conns[c].phase == RemoveQueued
    requires LoopOk(conns, conns[c].loop, loop, Flight(0, RemoveInLoop(c)))
    ensures LoopOk(conns[c := conns[c].(phase := DestroyQueued)], conns[c].loop, loop,
                   Flight(conns[c].loop, Destroyed(c)))
    ensures OwedElsewhere(c, conns[c], conns[c].(phase := DestroyQueued),
                          Flight(0, RemoveInLoop(c)), Flight(conns[c].loop, Destroyed(c)))
  {
    var l := conns[c].loop;
    var r := conns[c].(phase := DestroyQueued);
    TokensAfter(conns, c, r, l, loop, Flight(0, RemoveInLoop(c)), Flight(l, Destroyed(c)));
    ActiveAfter(conns, c, r, l, loop);
    assert ChanOk(conns[c], loop.reg.chans[c]);
  }

  lemma EraseGlobal(s: Server, c: Id, r: Rec)
    requires InvWith(s, Flight(0, RemoveInLoop(c)))
    requires c in s.conns && s.conns[c].phase == RemoveQueued && r == s.conns[c].(phase := DestroyQueued)
    requires r.loop < |s.loops|
    requires LoopOk(s.conns[c := r], r.loop, s.loops[r.loop], Flight(r.loop, Destroyed(c)))
    requires OwedElsewhere(c, s.conns[c], r, Flight(0, RemoveInLoop(c)), Flight(r.loop, Destroyed(c)))
    requires FlightOk(Changed(s, c, r, s.loops[r.loop], s.connections - {r.name}), Flight(r.loop, Destroyed(c)))
    ensures InvWith(Changed(s, c, r, s.loops[r.loop], s.connections - {r.name}), Flight(r.loop, Destroyed(c)))
  {
    hide InvWith, LoopOk, MapOk, OwedElsewhere;
    RecAndMap(s, Flight(0, RemoveInLoop(c)), c);
    MapAfterErase(s.conns, s.connections, c, r);
    HoldersStay(s, r.loop, s.loops[r.loop]);
    ChangeConn(s, Flight(0, RemoveInLoop(c)), c, r, s.loops[r.loop], s.connections - {r.name},
               Flight(r.loop, Destroyed(c)));
  }

  /** The first half: the entry is erased, and connectDestroyed is owed to the connection's loop. */
  lemma EraseInv(s: Server, c: Id)
    requires InvWith(s, Flight(0, RemoveInLoop(c))) && c in s.conns && s.conns[c].phase == RemoveQueued
    ensures var r := s.conns[c].(phase := DestroyQueued);
            InvWith(WithConn(s, c, r).(connections := s.connections - {r.name}), Flight(r.loop, Destroyed(c)))
  {
    var r := s.conns[c].(phase := DestroyQueued);
    var s' := WithConn(s, c, r).(connections := s.connections - {r.name});
    assert RecOk(s, c, s.conns[c]);
    LoopKept(s, c, r, s.connections - {r.name});
    assert LoopOk(s.conns, r.loop, s.loops[r.loop], Flight(0, RemoveInLoop(c)));
    RemoveLocal(s.conns, s.loops[r.loop], c);
    assert FlightOk(s', Flight(r.loop, Destroyed(c))) by {
      assert HeldByLoops(s, c) && s'.loops == s.loops;
    }
    EraseGlobal(s, c, r);
  }

  /** removeConnectionInLoop runs on a connection that waits for it, finds it in connections_, erases
      only its own entry and queues connectDestroyed on its own loop. */
  lemma RemoveInv(s: Server, c: Id)
    requires InvWith(s, Flight(0, RemoveInLoop(c)))
    ensures c in s.conns && s.conns[c].phase == RemoveQueued
    ensures s.conns[c].name in s.connections && s.connections[s.conns[c].name] == c
    ensures Inv(RemoveNow(s, c))
  {
    var f := Flight(0, RemoveInLoop(c));
    var l := s.conns[c].loop;
    assert s.conns[c].phase == RemoveQueued by {
      assert LoopOk(s.conns, 0, s.loops[0], f);
      assert Expected(s.conns, 0, RemoveInLoop(c)) >= 1;
    }
    FdIsFree(s, f, c);
    EraseInv(s, c);
    var r := s.conns[c].(phase := DestroyQueued);
    PushInv(WithConn(s, c, r).(connections := s.connections - {r.name}), Flight(l, Destroyed(c)), l, Destroyed(c));
  }

  // connectDestroyed.

  function DestroyedLoop(loop: Loop, c: Id): Loop
    requires c in loop.reg.chans
  {
    loop.(reg := RemoveChannel(loop.reg, c))
  }

  lemma DestroyLocal(conns: Conns, l: nat, loop: Loop, c: Id)
    requires LoopOk(conns, l, loop, Flight(l, Destroyed(c))) && c in loop.reg.chans
    ensures c in conns && conns[c].phase == DestroyQueued && conns[c].loop == l
    ensures LoopOk(conns[c := DestroyedRec(conns[c])], l, DestroyedLoop(loop, c), NoFlight)
    ensures OwedElsewhere(c, conns[c], DestroyedRec(conns[c]), Flight(l, Destroyed(c)), NoFlight)
  {
    var f := Flight(l, Destroyed(c));
    assert Expected(conns, l, Destroyed(c)) >= 1;
    var r := DestroyedRec(conns[c]);
    assert ChanOk(conns[c], loop.reg.chans[c]);
    TokensAfter(conns, c, r, l, loop, f, NoFlight);
    ActiveAfter(conns, c, r, l, DestroyedLoop(loop, c));
    OtherChansStay(loop.reg, c, NONE_EVENT);
    RegAfterRemove(conns, l, loop.reg, c, r);
    assert TokensOk(conns[c := r], l, DestroyedLoop(loop, c), NoFlight);
  }

  lemma DestroyGlobal(s: Server, l: nat, c: Id)
    requires InvWith(s, Flight(l, Destroyed(c)))
    requires Known(s, c) && s.conns[c].loop == l && s.conns[c].phase == DestroyQueued
    requires LoopOk(s.conns[c := DestroyedRec(s.conns[c])], l, DestroyedLoop(s.loops[l], c), NoFlight)
    requires OwedElsewhere(c, s.conns[c], DestroyedRec(s.conns[c]), Flight(l, Destroyed(c)), NoFlight)
    ensures Inv(Changed(s, c, DestroyedRec(s.conns[c]), DestroyedLoop(s.loops[l], c), s.connections))
  {
    hide InvWith, LoopOk, MapOk, OwedElsewhere;
    var r, loop := DestroyedRec(s.conns[c]), DestroyedLoop(s.loops[l], c);
    RecAndMap(s, Flight(l, Destroyed(c)), c);
    MapUnchanged(s.conns, s.connections, c, r);
    HoldersStay(s, l, loop);
    ChangeConn(s, Flight(l, Destroyed(c)), c, r, loop, s.connections, NoFlight);
  }

  lemma DestroyIsChange(s: Server, c: Id)
    requires Known(s, c) && s.conns[c].state == Connections.Disconnected
    ensures var r0 := s.conns[c];
            DestroyNow(s, c) == Changed(s, c, DestroyedRec(r0), DestroyedLoop(s.loops[r0.loop], c), s.connections)
  {
  }

  /** connectDestroyed runs on a closed connection of its own loop that waits for it, whose DOWN has been
      reported by handleClose. */
  lemma DestroyInv(s: Server, l: nat, c: Id)
    requires InvWith(s, Flight(l, Destroyed(c)))
    ensures s.conns[c].phase == DestroyQueued && s.conns[c].loop == l && s.conns[c].state == Connections.Disconnected
    ensures Inv(DestroyNow(s, c))
  {
    FdIsFree(s, Flight(l, Destroyed(c)), c);
    assert LoopOk(s.conns, l, s.loops[l], Flight(l, Destroyed(c)));
    assert s.conns[c].loop == l && s.conns[c].phase == DestroyQueued by {
      assert Expected(s.conns, l, Destroyed(c)) >= 1;
    }
    assert RecOk(s, c, s.conns[c]);
    DestroyLocal(s.conns, l, s.loops[l], c);
    DestroyGlobal(s, l, c);
    DestroyIsChange(s, c);
  }

  // handleClose.

  function ClosedLoop(loop: Loop, c: Id): Loop
    requires c in loop.reg.chans
  {
    loop.(reg := SetEvents(loop.reg, c, NONE_EVENT))
  }

  lemma CloseLocal(conns: Conns, l: nat, loop: Loop, c: Id)
    requires LoopOk(conns, l, loop, NoFlight) && LiveOn(conns, c, l) && loop.frame == Handling(c, 0)
    ensures c in loop.reg.chans
    ensures LoopOk(conns[c := ClosedRec(conns[c])], l, ClosedLoop(loop, c), Flight(0, RemoveInLoop(c)))
    ensures OwedElsewhere(c, conns[c], ClosedRec(conns[c]), NoFlight, Flight(0, RemoveInLoop(c)))
  {
    var r := ClosedRec(conns[c]);
    assert ChanOk(conns[c], loop.reg.chans[c]);
    TokensAfter(conns, c, r, l, loop, NoFlight, Flight(0, RemoveInLoop(c)));
    ActiveAfter(conns, c, r, l, ClosedLoop(loop, c));
    OtherChansStay(loop.reg, c, NONE_EVENT);
    RegAfterMask(conns, l, loop.reg, c, NONE_EVENT, r);
    assert TokensOk(conns[c := r], l, ClosedLoop(loop, c), Flight(0, RemoveInLoop(c)));
  }

  lemma CloseGlobal(s: Server, l: nat, c: Id)
    requires Inv(s) && Known(s, c) && LiveOn(s.conns, c, l) && s.loops[l].frame == Handling(c, 0)
    requires LoopOk(s.conns[c := ClosedRec(s.conns[c])], l, ClosedLoop(s.loops[l], c), Flight(0, RemoveInLoop(c)))
    requires OwedElsewhere(c, s.conns[c], ClosedRec(s.conns[c]), NoFlight, Flight(0, RemoveInLoop(c)))
    ensures InvWith(Changed(s, c, ClosedRec(s.conns[c]), ClosedLoop(s.loops[l], c), s.connections),
                    Flight(0, RemoveInLoop(c)))
  {
    hide InvWith, LoopOk, MapOk, OwedElsewhere;
    var r, loop := ClosedRec(s.conns[c]), ClosedLoop(s.loops[l], c);
    RecAndMap(s, NoFlight, c);
    MapUnchanged(s.conns, s.connections, c, r);
    HoldersStay(s, l, loop);
    assert HeldByLoop(Changed(s, c, r, loop, s.connections).loops[l], c);
    ChangeConn(s, NoFlight, c, r, loop, s.connections, Flight(0, RemoveInLoop(c)));
  }

  lemma CloseIsChange(s: Server, c: Id)
    requires Known(s, c)
    ensures var r0 := s.conns[c];
            CloseNow(s, c) == Changed(s, c, ClosedRec(r0), ClosedLoop(s.loops[r0.loop], c), s.connections)
  {
  }

  /** handleClose puts the removal in flight. */
  lemma CloseNowInv(s: Server, l: nat, c: Id)
    requires Inv(s) && l < |s.loops| && LiveOn(s.conns, c, l) && s.loops[l].frame == Handling(c, 0)
    ensures InvWith(CloseNow(s, c), Flight(0, RemoveInLoop(c)))
  {
    assert LoopOk(s.conns, l, s.loops[l], NoFlight);
    CloseLocal(s.conns, l, s.loops[l], c);
    CloseGlobal(s, l, c);
    CloseIsChange(s, c);
  }

  lemma FrameInv(s: Server, l: nat)
    requires Inv(s) && Enabled(s, Close(l))
    ensures var c := s.loops[l].frame.c;
            && LiveOn(s.conns, c, l) && s.loops[l].frame == Handling(c, 1)
            && Inv(WithLoop(s, l, s.loops[l].(frame := Handling(c, 0))))
  {
    var loop := s.loops[l].(frame := Handling(s.loops[l].frame.c, 0));
    assert LoopOk(s.conns, l, s.loops[l], NoFlight);
    HoldersStay(s, l, loop);
    ChangeLoop(s, NoFlight, l, loop, NoFlight);
  }

  lemma FlightAlive(s: Server, f: Flight)
    requires InvWith(s, f) && f.Flight?
    ensures f.l < |s.loops| && f.t.c in s.conns && Alive(s, f.t.c)
  {
  }

  /** The removal leaves flight: run at once on the base loop, queued to it from any other. */
  lemma RemoveConnectionInv(s: Server, l: nat, c: Id)
    requires InvWith(s, Flight(0, RemoveInLoop(c)))
    ensures |s.loops| > 0 && Inv(RemoveConnection(s, l, c))
  {
    FlightAlive(s, Flight(0, RemoveInLoop(c)));
    if l == 0 {
      RemoveInv(s, c);
    } else {
      PushInv(s, Flight(0, RemoveInLoop(c)), 0, RemoveInLoop(c));
    }
  }

  lemma CloseInv(s: Server, l: nat)
    requires Inv(s) && Enabled(s, Close(l))
    ensures Inv(Next(s, Close(l)))
  {
    hide InvWith, Facts, Inv;
    var c := s.loops[l].frame.c;
    FrameInv(s, l);
    var s1 := WithLoop(s, l, s.loops[l].(frame := Handling(c, 0)));
    CloseNowInv(s1, l, c);
    RemoveConnectionInv(CloseNow(s1, c), l, c);
  }

  lemma RunTokenInv(s: Server, l: nat)
    requires Inv(s) && Enabled(s, RunToken(l))
    ensures Inv(Next(s, RunToken(l)))
  {
    var t := s.loops[l].todo[0];
    PopInv(s, l);
    var s1 := WithLoop(s, l, Popped(s.loops[l]));
    match t
    case Established(c) => EstablishInv(s1, l, c);
    case RemoveInLoop(c) =>
      assert l == 0 by {
        assert LoopOk(s1.conns, l, s1.loops[l], Flight(l, t));
        assert Expected(s1.conns, l, t) >= 1;
      }
      RemoveInv(s1, c);
    case Destroyed(c) => DestroyInv(s1, l, c);
    case UserCall(_, _) =>
    case OffLoopCall(_) =>
  }

  // ----- a new connection -------------------------------------------------------------------------------

  /** Names are never used twice, so no entry of connections_ is overwritten. */
  lemma NameIsNew(s: Server, fd: int)
    requires RecsOk(s) && MapOk(s.conns, s.connections) && s.nextId !in s.conns
    ensures NewRec(s, fd).name !in s.connections
  {
    var name := NewRec(s, fd).name;
    if name in s.connections {
      var d := s.connections[name];
      assert RecOk(s, d, s.conns[d]);
      ConnNames.NamesDiffer(s.name, s.address, d, s.nextId);
    }
  }

  lemma AdmittedRecs(s: Server, fd: int)
    requires RecsOk(s) && s.nextId < ConnNames.INT_MAX && NewRec(s, fd).name !in s.connections
    ensures RecsOk(Admitted(s, fd))
  {
    var s' := Admitted(s, fd);
    forall c | c in s'.conns ensures RecOk(s', c, s'.conns[c]) {
      if c != s.nextId {
        assert RecOk(s, c, s.conns[c]);
      }
    }
  }

  lemma AdmittedMap(conns: Conns, connections: map<string, Id>, id: Id, r: Rec)
    requires MapOk(conns, connections) && id !in conns && r.name !in connections && InMap(r)
    ensures MapOk(conns[id := r], connections[r.name := id])
  {
  }

  lemma AdmittedElsewhere(conns: Conns, id: Id, r: Rec, m: nat, loop: Loop)
    requires LoopOk(conns, m, loop, NoFlight) && id !in conns && r.loop != m && r.phase == EstablishQueued
    ensures LoopOk(conns[id := r], m, loop, Flight(r.loop, Established(id)))
  {
    AdmittedTokens(conns, id, r, m, loop);
    AdmittedActive(conns, id, r, m, loop);
  }

  lemma AdmittedTokens(conns: Conns, id: Id, r: Rec, m: nat, loop: Loop)
    requires TokensOk(conns, m, loop, NoFlight) && id !in conns && r.phase == EstablishQueued
    ensures TokensOk(conns[id := r], m, loop, Flight(r.loop, Established(id)))
  {
    var conns' := conns[id := r];
    var f := Flight(r.loop, Established(id));
    forall t: Token | Carries(t) ensures Pending(loop)[t] + InFlight(f, m, t) == Expected(conns', m, t) {
      assert Pending(loop)[t] + InFlight(NoFlight, m, t) == Expected(conns, m, t);
    }
  }

  lemma AdmittedActive(conns: Conns, id: Id, r: Rec, m: nat, loop: Loop)
    requires ActiveOk(conns, m, loop) && id !in conns
    ensures ActiveOk(conns[id := r], m, loop)
  {
    forall i | 0 <= i < |loop.active| && loop.active[i].ConnItem? && LiveOn(conns, loop.active[i].c, m)
      ensures LiveOn(conns[id := r], loop.active[i].c, m)
    {
    }
  }

  lemma AdmittedLocal(conns: Conns, id: Id, r: Rec, loop: Loop)
    requires LoopOk(conns, r.loop, loop, NoFlight) && id !in conns && r.phase == EstablishQueued
    ensures LoopOk(conns[id := r], r.loop, loop.(reg := Introduce(loop.reg, id, r.fd)),
                   Flight(r.loop, Established(id)))
  {
    var loop' := loop.(reg := Introduce(loop.reg, id, r.fd));
    AdmittedTokens(conns, id, r, r.loop, loop);
    assert TokensOk(conns[id := r], r.loop, loop', Flight(r.loop, Established(id)));
    AdmittedActive(conns, id, r, r.loop, loop');
    IntroduceAgrees(loop.reg, id, r.fd);
  }

  lemma AdmittedLoops(s: Server, fd: int)
    requires |s.loops| > 0 && LoopsOk(s, NoFlight) && s.nextId !in s.conns
    ensures LoopsOk(Admitted(s, fd), Flight(NewRec(s, fd).loop, Established(s.nextId)))
  {
    var s' := Admitted(s, fd);
    var r := NewRec(s, fd);
    var f := Flight(r.loop, Established(s.nextId));
    forall m | 0 <= m < |s'.loops| ensures LoopOk(s'.conns, m, s'.loops[m], f) {
      assert LoopOk(s.conns, m, s.loops[m], NoFlight);
      if m == r.loop {
        AdmittedLocal(s.conns, s.nextId, r, s.loops[m]);
      } else {
        AdmittedElsewhere(s.conns, s.nextId, r, m, s.loops[m]);
      }
    }
  }

  lemma AdmittedRevivesNothing(s: Server, fd: int, c: Id)
    requires |s.loops| > 0 && c in s.conns && c != s.nextId && Alive(Admitted(s, fd), c)
    ensures Alive(s, c)
  {
    var s' := Admitted(s, fd);
    if HeldByMap(s', c) {
      assert HeldByMap(s, c);
    } else if c !in s.held {
      var m :| 0 <= m < |s'.loops| && HeldByLoop(s'.loops[m], c);
      assert HeldByLoop(s.loops[m], c);
    }
  }

  predicate FdUnused(s: Server, fd: int, c: Id)
    requires c in s.conns
  {
    s.conns[c].fd != fd
  }

  lemma AdmittedFds(s: Server, fd: int)
    requires |s.loops| > 0 && FdsOk(s) && s.nextId !in s.conns
    requires forall c :: c in s.conns && Alive(s, c) ==> FdUnused(s, fd, c)
    ensures FdsOk(Admitted(s, fd))
  {
    var s' := Admitted(s, fd);
    forall c, d | c in s'.conns && d in s'.conns && c != d && Alive(s', c) && Alive(s', d)
      ensures s'.conns[c].fd != s'.conns[d].fd
    {
      if c != s.nextId {
        AdmittedRevivesNothing(s, fd, c);
      }
      if d != s.nextId {
        AdmittedRevivesNothing(s, fd, d);
      }
    }
  }

  lemma NextIdIsNew(s: Server)
    requires RecsOk(s)
    ensures s.nextId !in s.conns
  {
    forall c | c in s.conns ensures c < s.nextId {
      assert RecOk(s, c, s.conns[c]);
    }
  }

  lemma AdmittedInv(s: Server, fd: int)
    requires Inv(s) && s.nextId < ConnNames.INT_MAX
    requires forall c :: c in s.conns && Alive(s, c) ==> FdUnused(s, fd, c)
    ensures InvWith(Admitted(s, fd), Flight(NewRec(s, fd).loop, Established(s.nextId)))
  {
    hide LoopsOk, FdsOk, MapOk;
    var s' := Admitted(s, fd);
    var id, r := s.nextId, NewRec(s, fd);
    NextIdIsNew(s);
    NameIsNew(s, fd);
    AdmittedRecs(s, fd);
    AdmittedMap(s.conns, s.connections, id, r);
    AdmittedFds(s, fd);
    AdmittedLoops(s, fd);
    assert HeldByMap(s', id) by {
      assert s'.connections[r.name] == id;
    }
  }

  lemma AcceptFailsInv(s: Server)
    requires Inv(s) && AcceptsNext(s)
    ensures Inv(Accepting(s)) && NothingRevived(s, Accepting(s))
  {
    var loop := s.loops[0].(active := s.loops[0].active[1..]);
    assert LoopOk(s.conns, 0, s.loops[0], NoFlight);
    HoldersStay(s, 0, loop);
    ChangeLoop(s, NoFlight, 0, loop, NoFlight);
    LoopRevivesNothing(s, 0, loop);
  }

  /** The descriptor accepted is still unused when the connection is created. */
  lemma StillUnused(s: Server, fd: int)
    requires Enabled(s, Step.Accept(fd)) && NothingRevived(s, Accepting(s))
    ensures forall c :: c in s.conns && Alive(Accepting(s), c) ==> FdUnused(s, fd, c)
  {
  }

  lemma AcceptInv(s: Server, fd: int)
    requires Inv(s) && Enabled(s, Step.Accept(fd))
    ensures Inv(Next(s, Step.Accept(fd)))
  {
    hide InvWith, Facts, Inv;
    var s1 := Accepting(s);
    var id, l := s1.nextId, NewRec(s1, fd).loop;
    AcceptFailsInv(s);
    StillUnused(s, fd);
    AdmittedInv(s1, fd);
    if l == 0 {
      EstablishInv(Admitted(s1, fd), 0, id);
    } else {
      FlightAlive(Admitted(s1, fd), Flight(l, Established(id)));
      PushInv(Admitted(s1, fd), Flight(l, Established(id)), l, Established(id));
    }
  }

  // ----- all steps --------------------------------------------------------------------------------------

  lemma LiveWhenUp(s: Server, c: Id)
    requires Inv(s) && c in s.conns
    requires s.conns[c].state == Connections.Connected || s.conns[c].state == Connections.Disconnecting
    ensures LiveOn(s.conns, c, s.conns[c].loop)
  {
    assert RecOk(s, c, s.conns[c]);
  }

  lemma LiveReads(s: Server, c: Id)
    requires Inv(s) && c in s.conns && LiveOn(s.conns, c, s.conns[c].loop) && Known(s, c)
    ensures READ_EVENT <= s.loops[s.conns[c].loop].reg.chans[c].events
  {
    var l := s.conns[c].loop;
    assert LoopOk(s.conns, l, s.loops[l], NoFlight);
    assert ChanOk(s.conns[c], s.loops[l].reg.chans[c]);
  }

  lemma StepInv(s: Server, step: Step)
    requires Inv(s) && Enabled(s, step) && Calm(step)
    ensures Inv(Next(s, step))
  {
    hide InvWith, Facts, Inv;
    match step
    case Poll(l, items) => PollInv(s, l, items);
    case Accept(fd) => AcceptInv(s, fd);
    case AcceptFails => AcceptFailsInv(s);
    case Handle(l, eof) => HandleInv(s, l, eof);
    case Close(l) => CloseInv(s, l);
    case EndHandle(l) => EndHandleInv(s, l);
    case SetWriting(l, c, writing) =>
      LiveWhenUp(s, c);
      LiveReads(s, c);
      SetWritingInv(s, l, c, WithWriting(s.loops[l].reg.chans[c].events, writing));
    case HalfClose(c) => HalfCloseInv(s, c);
    case LateSet(_) =>
    case QueueUserCall(l, c, n) => UserCallInv(s, l, c, n);
    case QueueOffLoopCall(c) => OffLoopCallInv(s, c);
    case Swap(l) => SwapInv(s, l);
    case RunToken(l) => RunTokenInv(s, l);
    case EndBatch(l) => EndBatchInv(s, l);
    case Hold(_) => HoldDropInv(s, step);
    case Drop(_) => HoldDropInv(s, step);
  }
}
