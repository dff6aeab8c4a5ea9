/** The invariant of the connection life cycle: what holds between the steps of any interleaving of the
    loop threads, and that every step keeps it. */
module TcpServerInvariant {
  import opened Kernel
  import opened Registration
  import opened TcpServers
  import Connections
  import ConnectionRuns
  import ConnNames
  import ThreadPools

  type Conns = map<Id, Rec>

  // ----- the invariant ------------------------------------------------------------------------------

  ghost predicate Placed(s: Server, c: Id, r: Rec) {
    && 1 <= c < s.nextId && |s.loops| > 0
    && r.loop == ThreadPools.LoopOfCall(|s.loops| - 1, c - 1) < |s.loops|
    && r.name == ConnNames.ConnName(s.name, ConnNames.IpPort(s.address), c)
  }

  /** connectEstablished, UP, handleClose, DOWN and connectDestroyed have run this often. */
  predicate Counts(r: Rec, ups: nat, downs: nat, destroyed: nat) {
    r.established == r.ups == ups && r.closes == r.downs == downs && r.destroyed == destroyed
  }

  /** What has happened to a connection in a phase. */
  ghost predicate RecOk(s: Server, c: Id, r: Rec) {
    match r.phase
    case EstablishQueued => Placed(s, c, r) && r.state == Connections.Connecting && Counts(r, 0, 0, 0)
    case Live =>
      && Placed(s, c, r) && Counts(r, 1, 0, 0)
      && (r.state == Connections.Connected || r.state == Connections.Disconnecting)
    case RemoveQueued => Placed(s, c, r) && r.state == Connections.Disconnected && Counts(r, 1, 1, 0)
    case DestroyQueued => Placed(s, c, r) && r.state == Connections.Disconnected && Counts(r, 1, 1, 0)
    case Gone => Placed(s, c, r) && r.state == Connections.Disconnected && Counts(r, 1, 1, 1)
  }

  ghost predicate RecsOk(s: Server) {
    && |s.loops| > 0
    && ConnNames.ValidAddress(s.address) && s.nextId <= ConnNames.INT_MAX
    && (forall c :: c in s.conns ==> RecOk(s, c, s.conns[c]))
    && s.misses == 0 && s.overwrites == 0
  }

  /** The functors a loop has still to run. */
  function Pending(l: Loop): multiset<Token> {
    multiset(l.todo) + multiset(l.queue)
  }

  /** How often a functor must be waiting on loop `l`, given how far its connection has come. */
  function Expected(conns: Conns, l: nat, t: Token): nat {
    if t.c in conns then ExpectedIn(conns[t.c], l, t) else 0
  }

  function ExpectedIn(r: Rec, l: nat, t: Token): nat {
    match t
    case Established(_) => if r.phase == EstablishQueued && r.loop == l then 1 else 0
    case RemoveInLoop(_) => if r.phase == RemoveQueued && l == 0 then 1 else 0
    case Destroyed(_) => if r.phase == DestroyQueued && r.loop == l then 1 else 0
    case UserCall(_, _) => 0
    case OffLoopCall(_) => 0
  }

  /** A functor between two queues: taken off its batch, or owed to a queue, by the running step. */
  datatype Flight = NoFlight | Flight(l: nat, t: Token)

  function InFlight(f: Flight, l: nat, t: Token): nat {
    if f == Flight(l, t) then 1 else 0
  }

  ghost predicate TokensOk(conns: Conns, l: nat, loop: Loop, f: Flight) {
    forall t: Token :: Carries(t) ==> Pending(loop)[t] + InFlight(f, l, t) == Expected(conns, l, t)
  }

  predicate InMap(r: Rec) {
    r.phase == EstablishQueued || r.phase == Live || r.phase == RemoveQueued
  }

  /** connections_ holds exactly the connections not yet removed, each under its own name. */
  ghost predicate MapOk(conns: Conns, connections: map<string, Id>) {
    && (forall c :: c in conns && InMap(conns[c]) ==>
         conns[c].name in connections && connections[conns[c].name] == c)
    && (forall n :: n in connections ==>
         && connections[n] in conns && conns[connections[n]].name == n
         && InMap(conns[connections[n]]))
  }

  predicate LiveOn(conns: Conns, c: Id, l: nat) {
    c in conns && conns[c].phase == Live && conns[c].loop == l
  }

  /** Channels waiting to be handled on a loop belong to live connections of that loop, and no connection
      waits twice; the accept channel is on the base loop. */
  ghost predicate ItemsOk(conns: Conns, l: nat, active: seq<Item>) {
    && (forall i :: 0 <= i < |active| && active[i].AcceptItem? ==> l == 0)
    && (forall i :: 0 <= i < |active| && active[i].ConnItem? ==>
         LiveOn(conns, active[i].c, l) && !ConnectionRuns.UrgentHangUp(active[i].revents))
    && (forall i, j :: 0 <= i < j < |active| && active[i].ConnItem? && active[j].ConnItem? ==>
         active[i].c != active[j].c)
  }

  /** The connection being handled is live as long as it has still to be closed, and waits no more. */
  ghost predicate FrameOk(conns: Conns, l: nat, loop: Loop) {
    match loop.frame
    case NoFrame => true
    case Handling(c, closes) =>
      && c in conns && conns[c].loop == l
      && closes <= 1 && (closes == 1 ==> LiveOn(conns, c, l))
      && forall i :: 0 <= i < |loop.active| && loop.active[i].ConnItem? ==> loop.active[i].c != c
  }

  ghost predicate ActiveOk(conns: Conns, l: nat, loop: Loop) {
    match loop.activity
    case Polling => loop.active == [] && loop.frame == NoFrame && loop.todo == [] && loop.done == []
    case Dispatching =>
      && loop.todo == [] && loop.done == []
      && ItemsOk(conns, l, loop.active) && FrameOk(conns, l, loop)
    case Running => loop.active == [] && loop.frame == NoFrame
  }

  /** The registration of a connection's channel follows its phase. */
  ghost predicate ChanOk(r: Rec, ch: Chan) {
    && ch.fd == r.fd
    && match r.phase
       case EstablishQueued => ch.index == New && ch.events == NONE_EVENT
       case Live => ch.index == Added && READ_EVENT <= ch.events
       case RemoveQueued => ch.index == Deleted && ch.events == NONE_EVENT
       case DestroyQueued => ch.index == Deleted && ch.events == NONE_EVENT
       case Gone => ch.index == New
  }

  ghost predicate RegOk(conns: Conns, l: nat, reg: Registry<Id>) {
    && Agreement(reg)
    && (forall c :: c in reg.chans <==> c in conns && conns[c].loop == l)
    && (forall c :: c in reg.chans ==> ChanOk(conns[c], reg.chans[c]))
  }

  ghost predicate LoopOk(conns: Conns, l: nat, loop: Loop, f: Flight) {
    TokensOk(conns, l, loop, f) && ActiveOk(conns, l, loop) && RegOk(conns, l, loop.reg)
  }

  ghost predicate LoopsOk(s: Server, f: Flight) {
    forall l :: 0 <= l < |s.loops| ==> LoopOk(s.conns, l, s.loops[l], f)
  }

  /** Two connections that are both alive have different descriptors. */
  ghost predicate FdsOk(s: Server) {
    forall c, d :: c in s.conns && d in s.conns && c != d && Alive(s, c) && Alive(s, d) ==>
      s.conns[c].fd != s.conns[d].fd
  }

  ghost predicate HeldByLoops(s: Server, c: Id) {
    exists l :: 0 <= l < |s.loops| && HeldByLoop(s.loops[l], c)
  }

  /** Whoever runs a functor holds its connection; the one removing it from connections_ does so from a
      batch or a frame. */
  ghost predicate FlightOk(s: Server, f: Flight) {
    match f
    case NoFlight => true
    case Flight(l, t) =>
      && l < |s.loops| && t.c in s.conns && Alive(s, t.c)
      && (t.RemoveInLoop? ==> HeldByLoops(s, t.c))
  }

  /** The invariant in the middle of a step, with a functor in flight. */
  ghost predicate InvWith(s: Server, f: Flight) {
    match f
    case NoFlight => Facts(s, f)
    case Flight(_, _) => Facts(s, f) && FlightOk(s, f)
  }

  ghost predicate Facts(s: Server, f: Flight) {
    && RecsOk(s)
    && MapOk(s.conns, s.connections)
    && FdsOk(s)
    && LoopsOk(s, f)
  }

  ghost predicate Inv(s: Server) {
    InvWith(s, NoFlight)
  }

  lemma StartedInv(name: string, address: ConnNames.Address, subLoops: nat)
    requires ConnNames.ValidAddress(address)
    ensures Inv(Started(name, address, subLoops))
  {
    var s := Started(name, address, subLoops);
    forall l | 0 <= l < |s.loops| ensures LoopOk(s.conns, l, s.loops[l], NoFlight) {
      assert s.loops[l] == IDLE_LOOP;
    }
  }

  // ----- consequences -------------------------------------------------------------------------------

  /** As long as connectDestroyed has not run, something holds the connection. */
  lemma PhaseAlive(s: Server, f: Flight, c: Id)
    requires InvWith(s, f) && c in s.conns && s.conns[c].phase != Gone
    ensures Alive(s, c)
  {
    var r := s.conns[c];
    assert RecOk(s, c, r);
    if r.phase == DestroyQueued {
      var t := Destroyed(c);
      assert LoopOk(s.conns, r.loop, s.loops[r.loop], f);
      assert Expected(s.conns, r.loop, t) == 1;
      if f != Flight(r.loop, t) {
        assert Pending(s.loops[r.loop])[t] == 1;
        assert t in s.loops[r.loop].todo || t in s.loops[r.loop].queue;
        assert HeldByLoop(s.loops[r.loop], c);
      }
    } else {
      assert HeldByMap(s, c);
    }
  }

  /** A connection about to register finds its descriptor free in its poller. */
  lemma FdIsFree(s: Server, f: Flight, c: Id)
    requires InvWith(s, f) && c in s.conns && Alive(s, c)
    ensures Known(s, c) && FdFree(s.loops[s.conns[c].loop].reg, c)
  {
    var l := s.conns[c].loop;
    assert RecOk(s, c, s.conns[c]);
    assert LoopOk(s.conns, l, s.loops[l], f);
    var reg := s.loops[l].reg;
    assert ChanOk(s.conns[c], reg.chans[c]) && ChanAgrees(reg, c);
    if reg.chans[c].index == New && reg.chans[c].fd in reg.channels {
      var d := reg.channels[reg.chans[c].fd];
      assert d in reg.chans && ChanAgrees(reg, d) && ChanOk(s.conns[d], reg.chans[d]);
      PhaseAlive(s, f, d);
    }
  }

  // ----- changing one loop --------------------------------------------------------------------------

  /** Nothing is held after a change that was not alive before it. */
  ghost predicate NothingRevived(s: Server, s': Server) {
    forall c :: c in s.conns && Alive(s', c) ==> Alive(s, c)
  }

  /** Every connection this loop would hold is alive. */
  ghost predicate HoldersAlive(s: Server, loop: Loop) {
    forall c :: c in s.conns && HeldByLoop(loop, c) ==> Alive(s, c)
  }

  lemma FdsKept(s: Server, s': Server)
    requires FdsOk(s) && NothingRevived(s, s') && s'.conns.Keys == s.conns.Keys
    requires forall c :: c in s.conns ==> s'.conns[c].fd == s.conns[c].fd
    ensures FdsOk(s')
  {
  }

  lemma LoopRevivesNothing(s: Server, l: nat, loop: Loop)
    requires l < |s.loops|
    requires HoldersAlive(s, loop)
    ensures NothingRevived(s, WithLoop(s, l, loop))
  {
    var s' := WithLoop(s, l, loop);
    forall c | c in s.conns && Alive(s', c) ensures Alive(s, c) {
      if HeldByMap(s', c) {
        assert HeldByMap(s, c);
      } else if c !in s.held {
        var m :| 0 <= m < |s'.loops| && HeldByLoop(s'.loops[m], c);
        if m != l {
          assert HeldByLoop(s.loops[m], c);
        }
      }
    }
  }

  lemma SameRecs(s: Server, s': Server)
    requires RecsOk(s)
    requires s'.conns == s.conns && s'.nextId == s.nextId && |s'.loops| == |s.loops|
    requires s'.name == s.name && s'.address == s.address && s'.misses == 0 && s'.overwrites == 0
    ensures RecsOk(s')
  {
    forall c | c in s'.conns ensures RecOk(s', c, s'.conns[c]) {
      assert RecOk(s, c, s.conns[c]);
    }
  }

  predicate SameFlightElsewhere(l: nat, f: Flight, f': Flight) {
    (f == NoFlight || f.l == l || f == f') && (f' == NoFlight || f'.l == l || f == f')
  }

  lemma ChangeLoops(s: Server, f: Flight, l: nat, loop: Loop, f': Flight)
    requires LoopsOk(s, f) && l < |s.loops| && SameFlightElsewhere(l, f, f')
    requires LoopOk(s.conns, l, loop, f')
    ensures LoopsOk(WithLoop(s, l, loop), f')
  {
    var s' := WithLoop(s, l, loop);
    forall m | 0 <= m < |s.loops| ensures LoopOk(s'.conns, m, s'.loops[m], f') {
      assert LoopOk(s.conns, m, s.loops[m], f);
    }
  }

  /** Replace a loop, by one that is in order and whose holders were alive; the functor in flight may
      change. */
  lemma ChangeLoop(s: Server, f: Flight, l: nat, loop: Loop, f': Flight)
    requires InvWith(s, f) && l < |s.loops|
    requires LoopOk(s.conns, l, loop, f')
    requires HoldersAlive(s, loop)
    requires SameFlightElsewhere(l, f, f')
    requires FlightOk(WithLoop(s, l, loop), f')
    ensures InvWith(WithLoop(s, l, loop), f')
  {
    var s' := WithLoop(s, l, loop);
    LoopRevivesNothing(s, l, loop);
    FdsKept(s, s');
    SameRecs(s, s');
    ChangeLoops(s, f, l, loop, f');
  }

  // ----- changing one connection ----------------------------------------------------------------------

  /** Connection `c` becomes `r`, and with it its loop and the map. */
  function Changed(s: Server, c: Id, r: Rec, loop: Loop, connections: map<string, Id>): Server
    requires r.loop < |s.loops|
  {
    WithLoop(WithConn(s, c, r).(connections := connections), r.loop, loop)
  }

  lemma LoopKept(s: Server, c: Id, r: Rec, connections: map<string, Id>)
    requires r.loop < |s.loops|
    ensures Changed(s, c, r, s.loops[r.loop], connections) == WithConn(s, c, r).(connections := connections)
  {
  }

  /** What is owed to loop `m` changes only by the functor in flight, when `r0` becomes `r`. */
  ghost predicate OwedAlike(c: Id, r0: Rec, r: Rec, m: nat, f: Flight, f': Flight) {
    forall t: Token ::
      if t.c == c then ExpectedIn(r, m, t) + InFlight(f, m, t) == ExpectedIn(r0, m, t) + InFlight(f', m, t)
      else InFlight(f, m, t) == InFlight(f', m, t)
  }

  lemma TokensAfter(conns: Conns, c: Id, r: Rec, m: nat, loop: Loop, f: Flight, f': Flight)
    requires c in conns && TokensOk(conns, m, loop, f)
    requires OwedAlike(c, conns[c], r, m, f, f')
    ensures TokensOk(conns[c := r], m, loop, f')
  {
    var conns' := conns[c := r];
    forall t: Token | Carries(t) ensures Pending(loop)[t] + InFlight(f', m, t) == Expected(conns', m, t) {
      assert Pending(loop)[t] + InFlight(f, m, t) == Expected(conns, m, t);
    }
  }

  ghost predicate OwedElsewhere(c: Id, r0: Rec, r: Rec, f: Flight, f': Flight) {
    forall m: nat :: m != r.loop ==> OwedAlike(c, r0, r, m, f, f')
  }

  /** A connection that stops being live must not be waiting on its loop, nor be about to be closed. */
  lemma ActiveAfter(conns: Conns, c: Id, r: Rec, m: nat, loop: Loop)
    requires c in conns && r.loop == conns[c].loop && ActiveOk(conns, m, loop)
    requires LiveOn(conns, c, m) && r.phase != Live ==>
      && loop.frame.Handling? && loop.frame.c == c && loop.frame.closes == 0
    ensures ActiveOk(conns[c := r], m, loop)
  {
    var conns' := conns[c := r];
    forall i | 0 <= i < |loop.active| && loop.active[i].ConnItem? ensures LiveOn(conns', loop.active[i].c, m) {
      assert LiveOn(conns, loop.active[i].c, m);
    }
  }

  lemma ElsewhereOk(conns: Conns, c: Id, r: Rec, m: nat, loop: Loop, f: Flight, f': Flight)
    requires c in conns && r.loop == conns[c].loop != m
    requires LoopOk(conns, m, loop, f)
    requires OwedAlike(c, conns[c], r, m, f, f')
    ensures LoopOk(conns[c := r], m, loop, f')
  {
    TokensAfter(conns, c, r, m, loop, f, f');
    ActiveAfter(conns, c, r, m, loop);
    assert RegOk(conns[c := r], m, loop.reg);
  }

  lemma ChangeRevivesNothing(s: Server, c: Id, r: Rec, loop: Loop, connections: map<string, Id>)
    requires r.loop < |s.loops| && connections.Items <= s.connections.Items
    requires HoldersAlive(s, loop)
    ensures NothingRevived(s, Changed(s, c, r, loop, connections))
  {
    var s1 := WithConn(s, c, r).(connections := connections);
    forall d: Id | Alive(s1, d) ensures Alive(s, d) {
      if HeldByMap(s1, d) {
        var n :| n in connections && connections[n] == d;
        assert (n, d) in connections.Items;
        assert HeldByMap(s, d);
      }
    }
    forall d | d in s.conns && Alive(Changed(s, c, r, loop, connections), d) ensures Alive(s, d) {
      var s' := Changed(s, c, r, loop, connections);
      if HeldByMap(s', d) {
        assert HeldByMap(s1, d);
      } else if d !in s.held {
        var m :| 0 <= m < |s'.loops| && HeldByLoop(s'.loops[m], d);
        if m != r.loop {
          assert HeldByLoop(s.loops[m], d);
        }
      }
    }
  }

  lemma ChangeRecs(s: Server, c: Id, r: Rec, loop: Loop, connections: map<string, Id>)
    requires RecsOk(s) && c in s.conns && r.loop < |s.loops| && RecOk(s, c, r)
    ensures RecsOk(Changed(s, c, r, loop, connections))
  {
    hide RecOk;
    var s' := Changed(s, c, r, loop, connections);
    forall d | d in s'.conns ensures RecOk(s', d, s'.conns[d]) {
      assert d != c ==> RecOk(s, d, s.conns[d]);
      RecOkSame(s, s', d, s'.conns[d]);
    }
  }

  /** Whether a record is in order depends on little of the server. */
  lemma RecOkSame(s: Server, s': Server, c: Id, r: Rec)
    requires s'.name == s.name && s'.address == s.address && s'.nextId == s.nextId && |s'.loops| == |s.loops|
    ensures RecOk(s', c, r) <==> RecOk(s, c, r)
  {
  }

  lemma ChangeConn(s: Server, f: Flight, c: Id, r: Rec, loop: Loop, connections: map<string, Id>, f': Flight)
    requires InvWith(s, f) && c in s.conns && r.loop == s.conns[c].loop && r.fd == s.conns[c].fd
    requires RecOk(s, c, r)
    requires LoopOk(s.conns[c := r], r.loop, loop, f')
    requires connections.Items <= s.connections.Items && MapOk(s.conns[c := r], connections)
    requires HoldersAlive(s, loop)
    requires OwedElsewhere(c, s.conns[c], r, f, f')
    requires FlightOk(Changed(s, c, r, loop, connections), f')
    ensures InvWith(Changed(s, c, r, loop, connections), f')
  {
    var s' := Changed(s, c, r, loop, connections);
    ChangeRevivesNothing(s, c, r, loop, connections);
    FdsKept(s, s');
    ChangeRecs(s, c, r, loop, connections);
    forall m | 0 <= m < |s.loops| ensures LoopOk(s'.conns, m, s'.loops[m], f') {
      if m != r.loop {
        assert LoopOk(s.conns, m, s.loops[m], f);
        ElsewhereOk(s.conns, c, r, m, s.loops[m], f, f');
      }
    }
  }

  // ----- a change of registration ---------------------------------------------------------------------

  lemma RegAfterMask(conns: Conns, l: nat, reg: Registry<Id>, c: Id, events: Mask, r: Rec)
    requires RegOk(conns, l, reg) && c in reg.chans && FdFree(reg, c)
    requires r.loop == l && ChanOk(r, SetEvents(reg, c, events).chans[c])
    ensures RegOk(conns[c := r], l, SetEvents(reg, c, events))
  {
    OtherChansStay(reg, c, events);
    SetEventsAgrees(reg, c, events);
  }

  lemma RegAfterRemove(conns: Conns, l: nat, reg: Registry<Id>, c: Id, r: Rec)
    requires RegOk(conns, l, reg) && c in reg.chans && FdFree(reg, c)
    requires r.loop == l && ChanOk(r, RemoveChannel(reg, c).chans[c])
    ensures RegOk(conns[c := r], l, RemoveChannel(reg, c))
  {
    OtherChansStay(reg, c, NONE_EVENT);
    RemoveChannelAgrees(reg, c);
  }
}
