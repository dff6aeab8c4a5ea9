/** The loops of the server model are event loops: what one loop does in a server run is a run of the
    protocol in EventLoops, with the same functors queued, in the batch and run.  So what is proved there
    about every interleaving holds for each loop of the server. */
module TcpServerLoops {
  import opened TcpServers
  import opened TcpServerInvariant
  import opened TcpServerSteps
  import opened TcpServerRuns
  import ConnNames
  import Connections
  import EventLoops

  type Protocol = EventLoops.Loop<Token>
  type ProtocolStep = EventLoops.Step<Token>

  /** Where the loop's thread is, in terms of the protocol. */
  function PcOf(a: Activity): EventLoops.Pc {
    match a
    case Polling => EventLoops.AtPoll
    case Dispatching => EventLoops.Dispatching(false)
    case Running => EventLoops.RunningBatch
  }

  /** The protocol state shows this loop, between two steps of the server. */
  predicate Shows(p: Protocol, loop: Loop) {
    && p.pc == PcOf(loop.activity) && p.pending == loop.queue && p.batch == loop.todo
    && p.calling == (loop.activity == Running)
    && !p.quit && !p.selfPushed && p.pushers == {} && p.quitters == {}
  }

  /** `p` goes to `p'` in some steps of the protocol. */
  ghost predicate Leads(p: Protocol, p': Protocol) {
    exists es :: EventLoops.Legal(p, es) && EventLoops.Run(p, es) == p'
  }

  lemma {:induction false} RunAppend(p: Protocol, es: seq<ProtocolStep>, fs: seq<ProtocolStep>)
    requires EventLoops.Legal(p, es) && EventLoops.Legal(EventLoops.Run(p, es), fs)
    ensures EventLoops.Legal(p, es + fs)
    ensures EventLoops.Run(p, es + fs) == EventLoops.Run(EventLoops.Run(p, es), fs)
    decreases |es|
  {
    if es == [] {
      assert es + fs == fs;
    } else {
      assert (es + fs)[1..] == es[1..] + fs;
      RunAppend(EventLoops.Next(p, es[0]), es[1..], fs);
    }
  }

  lemma LeadsOn(p: Protocol, q: Protocol, r: Protocol)
    requires Leads(p, q) && Leads(q, r)
    ensures Leads(p, r)
  {
    var es :| EventLoops.Legal(p, es) && EventLoops.Run(p, es) == q;
    var fs :| EventLoops.Legal(q, fs) && EventLoops.Run(q, fs) == r;
    RunAppend(p, es, fs);
  }

  lemma LeadsTo(p: Protocol, e: ProtocolStep)
    requires EventLoops.Enabled(p, e)
    ensures Leads(p, EventLoops.Next(p, e))
  {
    var es: seq<ProtocolStep> := [];
    es := EventLoops.Prepend(p, e, es);
  }

  // ----- the pieces of a server step --------------------------------------------------------------------

  /** One functor is pushed, or none; nothing else the protocol sees changes. */
  ghost predicate PushesAtMostOne(before: Loop, after: Loop) {
    && after.activity == before.activity && after.todo == before.todo
    && (after.queue == before.queue || exists t :: after.queue == before.queue + [t])
  }

  /** The thread of loop `caller` pushes onto loop `l`. */
  lemma PushLeads(p: Protocol, caller: int, l: nat, before: Loop, after: Loop) returns (p': Protocol)
    requires Shows(p, before) && PushesAtMostOne(before, after)
    requires caller == l && after.queue != before.queue ==> before.activity != Polling
    ensures Leads(p, p') && Shows(p', after) && p'.executed == p.executed
  {
    p' := p;
    if after.queue == before.queue {
      assert EventLoops.Legal(p, []) && EventLoops.Run(p, []) == p;
    } else {
      var t :| after.queue == before.queue + [t];
      var first, second := EventLoops.Step<Token>.Push(caller, t), EventLoops.Step<Token>.Wake(caller);
      if caller == l {
        first, second := EventLoops.SelfPush(t), EventLoops.SelfWake;
      }
      var q := EventLoops.Next(p, first);
      p' := EventLoops.Next(q, second);
      LeadsTo(p, first);
      LeadsTo(q, second);
      LeadsOn(p, q, p');
    }
  }

  lemma PollLeads(p: Protocol, loop: Loop, after: Loop) returns (p': Protocol)
    requires Shows(p, loop) && loop.activity == Polling
    requires after.activity == Dispatching && after.queue == loop.queue && after.todo == loop.todo
    ensures Leads(p, p') && Shows(p', after) && p'.executed == p.executed
  {
    var returned := EventLoops.Step<Token>.PollReturns(p.counter > 0);
    p' := EventLoops.Next(p, returned);
    LeadsTo(p, returned);
    if p.counter > 0 {
      var q := p';
      p' := EventLoops.Next(q, EventLoops.DrainEventfd);
      LeadsTo(q, EventLoops.DrainEventfd);
      LeadsOn(p, q, p');
    }
  }

  lemma SwapLeads(p: Protocol, loop: Loop, after: Loop) returns (p': Protocol)
    requires Shows(p, loop) && loop.activity == Dispatching
    requires after.activity == Running && after.queue == [] && after.todo == loop.queue
    ensures Leads(p, p') && Shows(p', after) && p'.executed == p.executed
  {
    var q := EventLoops.Next(p, EventLoops.EndDispatch);
    var r := EventLoops.Next(q, EventLoops.SetCalling);
    p' := EventLoops.Next(r, EventLoops.Swap);
    LeadsTo(p, EventLoops.EndDispatch);
    LeadsTo(q, EventLoops.SetCalling);
    LeadsTo(r, EventLoops.Swap);
    LeadsOn(p, q, r);
    LeadsOn(p, r, p');
  }

  lemma EndBatchLeads(p: Protocol, loop: Loop, after: Loop) returns (p': Protocol)
    requires Shows(p, loop) && loop.activity == Running && loop.todo == []
    requires after.activity == Polling && after.queue == loop.queue && after.todo == []
    ensures Leads(p, p') && Shows(p', after) && p'.executed == p.executed
  {
    var q := EventLoops.Next(p, EventLoops.EndBatch);
    p' := EventLoops.Next(q, EventLoops.Check);
    LeadsTo(p, EventLoops.EndBatch);
    LeadsTo(q, EventLoops.Check);
    LeadsOn(p, q, p');
  }

  lemma RunNextLeads(p: Protocol, loop: Loop) returns (p': Protocol)
    requires Shows(p, loop) && loop.activity == Running && loop.todo != []
    ensures Leads(p, p') && Shows(p', Popped(loop)) && p'.executed == p.executed + [loop.todo[0]]
  {
    p' := EventLoops.Next(p, EventLoops.RunNext);
    LeadsTo(p, EventLoops.RunNext);
  }

  // ----- what server steps push -------------------------------------------------------------------------

  lemma ExecutePushes(s: Server, t: Token, l: nat)
    requires l < |s.loops|
    ensures |Execute(s, t).loops| == |s.loops| && PushesAtMostOne(s.loops[l], Execute(s, t).loops[l])
  {
  }

  lemma ClosePushes(s: Server, caller: nat, c: Id, l: nat)
    requires l < |s.loops|
    ensures var s' := RemoveConnection(CloseNow(s, c), caller, c);
            |s'.loops| == |s.loops| && PushesAtMostOne(s.loops[l], s'.loops[l])
  {
    if caller == 0 {
      ExecutePushes(CloseNow(s, c), RemoveInLoop(c), l);
    }
  }

  lemma AcceptPushes(s: Server, fd: int, l: nat)
    requires l < |s.loops|
    ensures var s' := NewConnection(s, fd);
            |s'.loops| == |s.loops| && PushesAtMostOne(s.loops[l], s'.loops[l])
  {
    ExecutePushes(Admitted(s, fd), Established(s.nextId), l);
  }

  /** A thread that runs no loop. */
  const OUTSIDE: int := -1

  /** The thread that takes a step. */
  function ThreadOf(step: Step): int {
    match step
    case Close(l) => l
    case RunToken(l) => l
    case QueueUserCall(l, _, _) => l
    case QueueOffLoopCall(_) => OUTSIDE
    case _ => 0
  }

  predicate Pushes(step: Step) {
    step.Accept? || step.Close? || step.RunToken? || step.QueueUserCall? || step.QueueOffLoopCall?
  }

  /** Steps that do not move the thread of loop `l`. */
  predicate MovesElsewhere(step: Step, l: nat) {
    !(step.Poll? && step.l == l) && step != Swap(l) && step != RunToken(l) && step != EndBatch(l)
  }

  lemma ElsewherePushes(s: Server, step: Step, l: nat)
    requires Enabled(s, step) && l < |s.loops| && MovesElsewhere(step, l)
    ensures |Next(s, step).loops| == |s.loops| && PushesAtMostOne(s.loops[l], Next(s, step).loops[l])
    ensures !Pushes(step) ==> Next(s, step).loops[l].queue == s.loops[l].queue
  {
    hide Execute, RemoveConnection, CloseNow, NewConnection, Alive;
    match step
    case Accept(fd) => AcceptPushes(Accepting(s), fd, l);
    case Close(m) =>
      var f := s.loops[m].frame;
      ClosePushes(WithLoop(s, m, s.loops[m].(frame := Handling(f.c, f.closes - 1))), m, f.c, l);
    case RunToken(m) => ExecutePushes(WithLoop(s, m, Popped(s.loops[m])), s.loops[m].todo[0], l);
    case _ =>
  }

  /** Only a thread that is awake pushes onto its own loop. */
  lemma AwakeWhenPushing(s: Server, step: Step, l: nat)
    requires Inv(s) && Enabled(s, step) && l < |s.loops|
    requires Pushes(step)
    ensures ThreadOf(step) == l ==> s.loops[l].activity != Polling
  {
    assert LoopOk(s.conns, l, s.loops[l], NoFlight);
  }

  /** A call of send or shutdown from another thread waits at the end of the queue of the connection's own
      loop, and nothing else changes. */
  lemma OffLoopCallIsQueued(s: Server, c: Id)
    requires Known(s, c) && s.conns[c].state != Connections.Connecting
    ensures Enabled(s, QueueOffLoopCall(c))
    ensures var l, s' := s.conns[c].loop, Next(s, QueueOffLoopCall(c));
            && |s'.loops| == |s.loops| && s'.conns == s.conns && s'.connections == s.connections && s'.held == s.held
            && s'.loops[l].queue == s.loops[l].queue + [OffLoopCall(c)] && s'.loops[l].todo == s.loops[l].todo
            && forall m :: 0 <= m < |s.loops| && m != l ==> s'.loops[m] == s.loops[m]
  {
  }

  // ----- whole runs -------------------------------------------------------------------------------------

  /** The functors loop `l` runs in a step. */
  function RanIn(s: Server, step: Step, l: nat): seq<Token>
    requires l < |s.loops|
  {
    if step == RunToken(l) && s.loops[l].todo != [] then [s.loops[l].todo[0]] else []
  }

  /** One step of the server is some steps of the protocol of each loop. */
  lemma StepLeads(s: Server, step: Step, l: nat, p: Protocol) returns (p': Protocol)
    requires Inv(s) && Enabled(s, step) && l < |s.loops| && Shows(p, s.loops[l])
    ensures |Next(s, step).loops| == |s.loops|
    ensures Leads(p, p') && Shows(p', Next(s, step).loops[l])
    ensures p'.executed == p.executed + RanIn(s, step, l)
  {
    hide Inv, Leads, Execute, PushesAtMostOne, RemoveConnection, CloseNow, NewConnection, Alive;
    var loop, next := s.loops[l], Next(s, step);
    if MovesElsewhere(step, l) {
      ElsewherePushes(s, step, l);
      if Pushes(step) {
        AwakeWhenPushing(s, step, l);
      }
      p' := PushLeads(p, ThreadOf(step), l, loop, next.loops[l]);
    } else {
      match step {
        case Poll(_, _) => p' := PollLeads(p, loop, next.loops[l]);
        case Swap(_) => p' := SwapLeads(p, loop, next.loops[l]);
        case EndBatch(_) => p' := EndBatchLeads(p, loop, next.loops[l]);
        case RunToken(_) => p' := RunTokenLeads(s, l, p);
      }
    }
  }

  lemma RunTokenLeads(s: Server, l: nat, p: Protocol) returns (p': Protocol)
    requires Enabled(s, RunToken(l)) && Shows(p, s.loops[l])
    ensures |Next(s, RunToken(l)).loops| == |s.loops|
    ensures Leads(p, p') && Shows(p', Next(s, RunToken(l)).loops[l])
    ensures p'.executed == p.executed + [s.loops[l].todo[0]]
  {
    hide Leads, Execute, PushesAtMostOne;
    var s1 := WithLoop(s, l, Popped(s.loops[l]));
    var q := RunNextLeads(p, s.loops[l]);
    ExecutePushes(s1, s.loops[l].todo[0], l);
    p' := PushLeads(q, l, l, s1.loops[l], Next(s, RunToken(l)).loops[l]);
    LeadsOn(p, q, p');
  }

  /** The functors loop `l` has run, in order. */
  ghost function RanOn(s: Server, steps: seq<Step>, l: nat): seq<Token>
    requires Legal(s, steps)
    decreases |steps|
  {
    if steps == [] || l >= |s.loops| then [] else RanIn(s, steps[0], l) + RanOn(Next(s, steps[0]), steps[1..], l)
  }

  lemma {:induction false} RunLeads(s: Server, steps: seq<Step>, l: nat, p: Protocol) returns (p': Protocol)
    requires Inv(s) && Legal(s, steps) && AllCalm(steps) && l < |s.loops| && Shows(p, s.loops[l])
    ensures |Run(s, steps).loops| == |s.loops|
    ensures Leads(p, p') && Shows(p', Run(s, steps).loops[l])
    ensures p'.executed == p.executed + RanOn(s, steps, l)
    decreases |steps|
  {
    hide Inv, Shows, Leads, RanIn;
    if steps == [] {
      p' := p;
      LeadsNowhere(p);
    } else {
      var s1 := Next(s, steps[0]);
      StepInv(s, steps[0]);
      var q := StepLeads(s, steps[0], l, p);
      p' := RunLeads(s1, steps[1..], l, q);
      LeadsOn(p, q, p');
      assert p.executed + (RanIn(s, steps[0], l) + RanOn(s1, steps[1..], l)) ==
        (p.executed + RanIn(s, steps[0], l)) + RanOn(s1, steps[1..], l);
    }
  }

  lemma LeadsNowhere(p: Protocol)
    ensures Leads(p, p)
  {
    assert EventLoops.Legal(p, []) && EventLoops.Run(p, []) == p;
  }

  /** A loop that has entered loop() and waits for the first time. */
  function Entered(): Protocol {
    EventLoops.Next(EventLoops.Next(EventLoops.Created<Token>(), EventLoops.Enter), EventLoops.Check)
  }

  lemma EnteredIsIdle()
    ensures Leads(EventLoops.Created<Token>(), Entered())
    ensures Shows(Entered(), IDLE_LOOP) && Entered().executed == []
  {
    var created := EventLoops.Created<Token>();
    LeadsTo(created, EventLoops.Enter);
    LeadsTo(EventLoops.Next(created, EventLoops.Enter), EventLoops.Check);
    LeadsOn(created, EventLoops.Next(created, EventLoops.Enter), Entered());
  }

  /** Refinement: in every server run, each loop is where some run of the protocol from the creation of
      the loop is, with the same functors queued, in the batch and run; so none is lost, doubled or
      reordered, and a loop that waits with functors queued has a positive eventfd. */
  lemma LoopsAreEventLoops(name: string, address: ConnNames.Address, subLoops: nat, steps: seq<Step>, l: nat)
    returns (p: Protocol)
    requires ConnNames.ValidAddress(address) && l <= subLoops
    requires Legal(Started(name, address, subLoops), steps) && AllCalm(steps)
    ensures var s := Started(name, address, subLoops);
            var t := Run(s, steps);
            && |t.loops| == subLoops + 1
            && Leads(EventLoops.Created<Token>(), p) && Shows(p, t.loops[l])
            && p.executed == RanOn(s, steps, l)
            && RanOn(s, steps, l) + t.loops[l].todo + t.loops[l].queue == p.pushed
            && (t.loops[l].activity == Polling && t.loops[l].queue != [] ==> p.counter > 0)
  {
    hide Inv, Leads;
    var s := Started(name, address, subLoops);
    StartedInv(name, address, subLoops);
    EnteredIsIdle();
    p := RunLeads(s, steps, l, Entered());
    LeadsOn(EventLoops.Created<Token>(), Entered(), p);
    ProtocolPromises(p);
  }

  lemma ProtocolPromises(p: Protocol)
    requires Leads(Entered(), p)
    ensures p.executed + p.batch + p.pending == p.pushed
    ensures EventLoops.NoLostWakeup(p)
  {
    var es :| EventLoops.Legal(Entered(), es) && EventLoops.Run(Entered(), es) == p;
    var entered := EventLoops.Next(EventLoops.Created<Token>(), EventLoops.Enter);
    assert EventLoops.Inv(EventLoops.Created<Token>());
    EventLoops.StepInv(EventLoops.Created<Token>(), EventLoops.Enter);
    var fs := EventLoops.Prepend(entered, EventLoops.Check, es);
    EventLoops.RunInv(entered, fs);
    EventLoops.RunWakeInv(entered, fs);
  }
}
