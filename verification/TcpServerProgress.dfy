/** Rest is reached: from any state, when nothing new comes in, the loop threads run out of work after a
    bounded number of steps, in whatever order they take them, and then every handleClose has led to its
    connectDestroyed. */
module TcpServerProgress {
  import opened Kernel
  import opened Registration
  import opened TcpServers
  import opened TcpServerInvariant
  import opened TcpServerRuns
  import ConnNames
  import TcpServerSteps

  // ----- how much work is left --------------------------------------------------------------------------

  /** A bound on the steps a functor of the batch still causes, those of a functor it queues included. */
  function BatchWork(t: Token): nat {
    if t.RemoveInLoop? then 8 else 1
  }

  function TodoWork(q: seq<Token>): nat {
    if q == [] then 0 else BatchWork(q[0]) + TodoWork(q[1..])
  }

  /** A queued functor also needs an iteration of its loop. */
  function QueueWork(q: seq<Token>): nat {
    TodoWork(q) + 3 * |q|
  }

  function FrameWork(f: Frame): nat {
    match f
    case NoFrame => 0
    case Handling(_, closes) => 1 + 15 * closes
  }

  /** A loop with functors queued has another iteration ahead. */
  function ActivityWork(a: Activity, queued: bool): nat {
    match a
    case Polling => if queued then 3 else 0
    case Dispatching => 2
    case Running => if queued then 4 else 1
  }

  function LoopWork(l: Loop): nat {
    32 * |l.active| + FrameWork(l.frame) + TodoWork(l.todo) + QueueWork(l.queue)
    + ActivityWork(l.activity, l.queue != [])
  }

  function Work(loops: seq<Loop>): nat {
    if loops == [] then 0 else LoopWork(loops[0]) + Work(loops[1..])
  }

  lemma {:induction false} WorkUpdate(loops: seq<Loop>, l: nat, loop: Loop)
    requires l < |loops|
    ensures Work(loops[l := loop]) == Work(loops) - LoopWork(loops[l]) + LoopWork(loop)
  {
    var loops' := loops[l := loop];
    if l == 0 {
      assert loops'[1..] == loops[1..];
    } else {
      assert loops'[1..] == loops[1..][l - 1 := loop];
      WorkUpdate(loops[1..], l - 1, loop);
    }
  }

  lemma {:induction false} TodoWorkAppend(q: seq<Token>, t: Token)
    ensures TodoWork(q + [t]) == TodoWork(q) + BatchWork(t)
  {
    if q != [] {
      assert (q + [t])[1..] == q[1..] + [t];
      TodoWorkAppend(q[1..], t);
    }
  }

  lemma PushWork(s: Server, l: nat, t: Token)
    requires l < |s.loops|
    ensures Work(Push(s, l, t).loops) <= Work(s.loops) + BatchWork(t) + 6
  {
    TodoWorkAppend(s.loops[l].queue, t);
    WorkUpdate(s.loops, l, s.loops[l].(queue := s.loops[l].queue + [t]));
  }

  lemma RegWork(s: Server, l: nat, reg: Registry<Id>)
    requires l < |s.loops|
    ensures Work(s.loops[l := s.loops[l].(reg := reg)]) == Work(s.loops)
  {
    WorkUpdate(s.loops, l, s.loops[l].(reg := reg));
  }

  lemma ChangeMaskWork(s: Server, c: Id, events: Mask)
    requires Known(s, c)
    ensures Work(ChangeMask(s, c, events).loops) == Work(s.loops)
  {
    var l := s.conns[c].loop;
    RegWork(s, l, SetEvents(s.loops[l].reg, c, events));
  }

  // ----- what the functors add --------------------------------------------------------------------------

  lemma EstablishWork(s: Server, c: Id)
    ensures Work(EstablishNow(s, c).loops) == Work(s.loops)
    ensures |EstablishNow(s, c).loops| == |s.loops|
  {
    if Known(s, c) {
      ChangeMaskWork(WithConn(s, c, EstablishedRec(s.conns[c])), c,
                     s.loops[s.conns[c].loop].reg.chans[c].events + READ_EVENT);
    }
  }

  lemma RemoveWork(s: Server, c: Id)
    ensures Work(RemoveNow(s, c).loops) <= Work(s.loops) + 7
    ensures |RemoveNow(s, c).loops| == |s.loops|
  {
    if Known(s, c) {
      var r := s.conns[c];
      var s1 := WithConn(s, c, r.(phase := DestroyQueued)).(connections := s.connections - {r.name});
      PushWork(s1, r.loop, Destroyed(c));
    }
  }

  lemma DestroyWork(s: Server, c: Id)
    ensures Work(DestroyNow(s, c).loops) == Work(s.loops)
    ensures |DestroyNow(s, c).loops| == |s.loops|
  {
    if Known(s, c) {
      var l := s.conns[c].loop;
      RegWork(s, l, DestroyNow(s, c).loops[l].reg);
    }
  }

  lemma CloseWork(s: Server, l: nat, c: Id)
    requires |s.loops| > 0
    ensures Work(RemoveConnection(CloseNow(s, c), l, c).loops) <= Work(s.loops) + 14
    ensures |RemoveConnection(CloseNow(s, c), l, c).loops| == |s.loops|
  {
    var s1 := CloseNow(s, c);
    if Known(s, c) {
      ChangeMaskWork(WithConn(s, c, ClosedRec(s.conns[c])), c, NONE_EVENT);
    }
    if l == 0 {
      RemoveWork(s1, c);
    } else {
      PushWork(s1, 0, RemoveInLoop(c));
    }
  }

  // ----- every step uses up work ------------------------------------------------------------------------

  /** Nothing new comes in: waits report nothing, nobody connects, and the application stays passive. */
  predicate Quiet(step: Step) {
    match step
    case Poll(_, items) => items == []
    case Handle(_, _) => true
    case AcceptFails => true
    case Close(_) => true
    case EndHandle(_) => true
    case Swap(_) => true
    case RunToken(_) => true
    case EndBatch(_) => true
    case _ => false
  }

  predicate AllQuiet(steps: seq<Step>) {
    forall i :: 0 <= i < |steps| ==> Quiet(steps[i])
  }

  /** A quiet step that can be taken, other than a wait with nothing queued. */
  ghost predicate Busy(s: Server, step: Step) {
    Enabled(s, step) && Quiet(step) && (step.Poll? ==> s.loops[step.l].queue != [])
  }

  /** The step uses up work. */
  ghost predicate Uses(s: Server, step: Step)
    requires Enabled(s, step)
  {
    |Next(s, step).loops| == |s.loops| && Work(Next(s, step).loops) < Work(s.loops)
  }

  lemma BusyUses(s: Server, step: Step)
    requires Busy(s, step)
    ensures |Next(s, step).loops| == |s.loops| && Work(Next(s, step).loops) < Work(s.loops)
  {
    hide Next, Enabled;
    if step.Close? {
      CloseUses(s, step.l);
    } else if step.Handle? {
      HandleUses(s, step.l, step.eof);
    } else if step.RunToken? {
      TokenUses(s, step.l);
    } else {
      LoopUses(s, step);
    }
  }

  lemma CloseUses(s: Server, l: nat)
    requires Enabled(s, Close(l))
    ensures Uses(s, Close(l))
  {
    hide CloseNow, RemoveConnection;
    var f := s.loops[l].frame;
    var loop := s.loops[l].(frame := Handling(f.c, f.closes - 1));
    WorkUpdate(s.loops, l, loop);
    CloseWork(WithLoop(s, l, loop), l, f.c);
  }

  lemma HandleUses(s: Server, l: nat, eof: bool)
    requires Enabled(s, Handle(l, eof))
    ensures Uses(s, Handle(l, eof))
  {
    hide Alive, HeldByLoop;
    var item := s.loops[l].active[0];
    var rest := s.loops[l].(active := s.loops[l].active[1..]);
    WorkUpdate(s.loops, l, rest);
    WorkUpdate(s.loops, l, rest.(frame := Handling(item.c, CloseCalls(item.revents, eof))));
  }

  lemma TokenUses(s: Server, l: nat)
    requires Enabled(s, RunToken(l))
    ensures Uses(s, RunToken(l))
  {
    hide Execute;
    var loop := s.loops[l];
    var s1 := WithLoop(s, l, Popped(loop));
    assert LoopWork(Popped(loop)) + BatchWork(loop.todo[0]) == LoopWork(loop);
    WorkUpdate(s.loops, l, Popped(loop));
    ExecuteWork(s1, loop.todo[0]);
    assert Next(s, RunToken(l)) == Execute(s1, loop.todo[0]);
  }

  /** The steps that change one loop and nothing else. */
  lemma LoopUses(s: Server, step: Step)
    requires Busy(s, step) && !step.Close? && !step.Handle? && !step.RunToken?
    ensures Uses(s, step)
  {
    var l := if step.AcceptFails? then 0 else step.l;
    var loop := Next(s, step).loops[l];
    assert Next(s, step).loops == s.loops[l := loop];
    WorkUpdate(s.loops, l, loop);
  }

  /** A functor adds less work than it took from the batch. */
  lemma ExecuteWork(s: Server, t: Token)
    ensures Work(Execute(s, t).loops) < Work(s.loops) + BatchWork(t)
    ensures |Execute(s, t).loops| == |s.loops|
  {
    hide EstablishNow, RemoveNow, DestroyNow, Work;
    match t
    case Established(c) => EstablishWork(s, c);
    case RemoveInLoop(c) => RemoveWork(s, c);
    case Destroyed(c) => DestroyWork(s, c);
    case UserCall(_, _) =>
    case OffLoopCall(_) =>
  }

  // ----- until rest -------------------------------------------------------------------------------------

  /** A run of busy steps, in any order of the loops. */
  ghost predicate BusyRun(s: Server, steps: seq<Step>)
    decreases |steps|
  {
    steps != [] ==> Busy(s, steps[0]) && BusyRun(Next(s, steps[0]), steps[1..])
  }

  /** No schedule runs for ever: every busy run is at most Work(s.loops) steps long. */
  lemma {:induction false} BusyRunsEnd(s: Server, steps: seq<Step>)
    requires BusyRun(s, steps)
    ensures Legal(s, steps) && AllQuiet(steps)
    ensures |Run(s, steps).loops| == |s.loops| && |steps| + Work(Run(s, steps).loops) <= Work(s.loops)
    decreases |steps|
  {
    hide Next, Enabled, Quiet, Work;
    if steps != [] {
      BusyUses(s, steps[0]);
      BusyRunsEnd(Next(s, steps[0]), steps[1..]);
      assert AllQuiet([steps[0]] + steps[1..]) && [steps[0]] + steps[1..] == steps;
    }
  }

  /** What a loop can be doing. */
  lemma LoopIsInOrder(s: Server, l: nat)
    requires Inv(s) && l < |s.loops|
    ensures s.loops[l].activity != Dispatching ==> s.loops[l].active == [] && s.loops[l].frame == NoFrame
    ensures s.loops[l].activity == Polling ==> s.loops[l].todo == []
    ensures s.loops[l].activity == Dispatching ==>
      forall i :: 0 <= i < |s.loops[l].active| && s.loops[l].active[i].AcceptItem? ==> l == 0
  {
    assert LoopOk(s.conns, l, s.loops[l], NoFlight);
  }

  /** The next step of a loop. */
  function NextOf(loop: Loop, l: nat): Step {
    if loop.frame.Handling? then (if loop.frame.closes > 0 then Close(l) else EndHandle(l))
    else match loop.activity
      case Polling => Poll(l, [])
      case Dispatching =>
        if loop.active == [] then Swap(l)
        else if loop.active[0].AcceptItem? then AcceptFails else Handle(l, false)
      case Running => if loop.todo == [] then EndBatch(l) else RunToken(l)
  }

  /** Rest is exactly where no loop has a busy step left. */
  lemma RestOrBusy(s: Server)
    requires Inv(s)
    ensures AtRest(s) <==> forall step :: !Busy(s, step)
  {
    hide Inv, Alive;
    if AtRest(s) {
      forall step ensures !Busy(s, step) {
        RestIsNotBusy(s, step);
      }
    } else {
      var l :| 0 <= l < |s.loops| && !(s.loops[l].activity == Polling && s.loops[l].queue == []);
      LoopIsInOrder(s, l);
      assert Busy(s, NextOf(s.loops[l], l));
    }
  }

  lemma RestIsNotBusy(s: Server, step: Step)
    requires Inv(s) && AtRest(s)
    ensures !Busy(s, step)
  {
    hide Inv, Alive;
    if Quiet(step) && !step.AcceptFails? && step.l < |s.loops| {
      LoopIsInOrder(s, step.l);
    }
  }

  lemma QuietIsCalm(steps: seq<Step>)
    requires AllQuiet(steps)
    ensures AllCalm(steps)
  {
    forall i | 0 <= i < |steps| ensures Calm(steps[i]) {
      assert Quiet(steps[i]);
    }
  }

  lemma OneStep(s: Server, step: Step)
    requires Enabled(s, step)
    ensures Legal(s, [step]) && Run(s, [step]) == Next(s, step)
  {
    assert [step][1..] == [];
  }

  lemma {:induction false} RunAppend(s: Server, p: seq<Step>, q: seq<Step>)
    requires Legal(s, p) && Legal(Run(s, p), q)
    ensures Legal(s, p + q) && Run(s, p + q) == Run(Run(s, p), q)
    decreases |p|
  {
    if p == [] {
      assert p + q == q;
    } else {
      assert (p + q)[1..] == p[1..] + q;
      RunAppend(Next(s, p[0]), p[1..], q);
    }
  }

  /** Every schedule reaches rest: a busy run that cannot go on has, and every one that can goes on. */
  lemma RestIsNear(s: Server, steps: seq<Step>)
    requires Inv(s) && BusyRun(s, steps)
    ensures Legal(s, steps) && |steps| <= Work(s.loops)
    ensures AtRest(Run(s, steps)) <==> forall step :: !Busy(Run(s, steps), step)
  {
    hide Inv, Busy;
    BusyRunsEnd(s, steps);
    QuietIsCalm(steps);
    RunInv(s, steps);
    RestOrBusy(Run(s, steps));
  }

  /** There is such a run from every state in order. */
  lemma {:induction false} RestIsReached(s: Server) returns (steps: seq<Step>)
    requires Inv(s)
    ensures BusyRun(s, steps) && Legal(s, steps) && AtRest(Run(s, steps))
    decreases Work(s.loops)
  {
    hide Inv, Busy, AtRest;
    steps := [];
    RestOrBusy(s);
    if !AtRest(s) {
      var step :| Busy(s, step);
      BusyUses(s, step);
      BusyKeepsInv(s, step);
      var rest := RestIsReached(Next(s, step));
      steps := [step] + rest;
      assert steps[1..] == rest;
    }
  }

  lemma BusyKeepsInv(s: Server, step: Step)
    requires Inv(s) && Busy(s, step)
    ensures Enabled(s, step) && Inv(Next(s, step))
  {
    hide Inv, Next;
    TcpServerSteps.StepInv(s, step);
  }

  // ----- what that means for a connection ---------------------------------------------------------------

  lemma StaysReachable(s: Server, steps: seq<Step>)
    requires Reachable(s) && Legal(s, steps) && AllCalm(steps)
    ensures Reachable(Run(s, steps))
  {
    var name, address, subLoops: nat, before :|
      && ConnNames.ValidAddress(address)
      && Legal(Started(name, address, subLoops), before) && AllCalm(before)
      && s == Run(Started(name, address, subLoops), before);
    RunAppend(Started(name, address, subLoops), before, steps);
    assert AllCalm(before + steps);
  }

  /** Closed is closed: a connection is never forgotten, and its history only grows. */
  lemma {:induction false} HistoryGrows(s: Server, steps: seq<Step>, c: Id)
    requires Legal(s, steps) && AllQuiet(steps) && c in s.conns
    ensures c in Run(s, steps).conns && s.conns[c].closes <= Run(s, steps).conns[c].closes
    decreases |steps|
  {
    if steps != [] {
      assert Quiet(steps[0]);
      assert forall i :: 0 <= i < |steps[1..]| ==> steps[1..][i] == steps[i + 1];
      StepHistoryGrows(s, steps[0], c);
      HistoryGrows(Next(s, steps[0]), steps[1..], c);
    }
  }

  lemma StepHistoryGrows(s: Server, step: Step, c: Id)
    requires Enabled(s, step) && Quiet(step) && c in s.conns
    ensures c in Next(s, step).conns && s.conns[c].closes <= Next(s, step).conns[c].closes
  {
    hide EstablishNow, CloseNow, RemoveNow, DestroyNow, Alive;
    match step
    case RunToken(l) => ExecuteGrows(WithLoop(s, l, Popped(s.loops[l])), s.loops[l].todo[0], c);
    case Close(l) =>
      var f := s.loops[l].frame;
      var s1 := WithLoop(s, l, s.loops[l].(frame := Handling(f.c, f.closes - 1)));
      CloseGrows(s1, f.c, c);
      ExecuteGrows(CloseNow(s1, f.c), RemoveInLoop(f.c), c);
    case _ =>
  }

  lemma CloseGrows(s: Server, d: Id, c: Id)
    requires c in s.conns
    ensures c in CloseNow(s, d).conns && s.conns[c].closes <= CloseNow(s, d).conns[c].closes
    ensures |CloseNow(s, d).loops| == |s.loops|
  {
    hide SetEvents;
  }

  lemma ExecuteGrows(s: Server, t: Token, c: Id)
    requires c in s.conns
    ensures c in Execute(s, t).conns && s.conns[c].closes <= Execute(s, t).conns[c].closes
  {
    hide SetEvents, RemoveChannel;
  }

  /** In every reachable state, every schedule finishes what was begun in a bounded number of steps: where
      no busy step is left, every connection accepted has been established, every handleClose has led to
      exactly one connectDestroyed, and what was closed is released unless the application keeps it. */
  lemma EveryCloseIsFinished(s: Server, steps: seq<Step>)
    requires Reachable(s) && BusyRun(s, steps)
    ensures Legal(s, steps) && |steps| <= Work(s.loops)
    ensures var t := Run(s, steps);
            (forall step :: !Busy(t, step)) ==>
              AtRest(t) && forall c :: c in s.conns ==>
                c in t.conns && Finished(t, c) && s.conns[c].closes <= t.conns[c].closes
  {
    hide Inv, Legal, Run, AtRest, Busy;
    ReachableInv(s);
    RestIsNear(s, steps);
    BusyRunsEnd(s, steps);
    QuietIsCalm(steps);
    StaysReachable(s, steps);
    if forall step :: !Busy(Run(s, steps), step) {
      forall c | c in s.conns
        ensures c in Run(s, steps).conns && Finished(Run(s, steps), c)
        ensures s.conns[c].closes <= Run(s, steps).conns[c].closes
      {
        HistoryGrows(s, steps, c);
        NothingLeaksAtRest(Run(s, steps), c);
      }
    }
  }

  /** Established, and if closed then destroyed and held by the application alone. */
  ghost predicate Finished(s: Server, c: Id)
    requires c in s.conns
  {
    && s.conns[c].established == 1 && s.conns[c].destroyed == s.conns[c].closes
    && (s.conns[c].closes == 1 ==> (Alive(s, c) <==> c in s.held))
  }
}
