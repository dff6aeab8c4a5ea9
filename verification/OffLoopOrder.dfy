/** What send() and shutdown() from other threads keep of the order of a half-close.  Each theorem says first
    what holds in every interleaving, then what that comes to when no shutdown() is raced between its
    check of the state and its set. */
module OffLoopOrder {
  import opened Kernel
  import opened Connections
  import opened ConnectionRuns
  import opened OffLoopCalls

  /** No shutdown() elsewhere found the state changed between its check and its set. */
  ghost predicate NoRace(ws: seq<World>, steps: seq<Step>, n: nat)
    requires n <= |steps| <= |ws|
  {
    forall i :: 0 <= i < n ==> SetsInTime(ws[i], steps[i])
  }

  predicate SetsInTime(w: World, step: Step) {
    step.SetState? ==> w.conn.state == Connected
  }

  // ----- the invariant without the race -------------------------------------------------------------------

  ghost predicate ClosingInv(w: World) {
    && MaskInv(w.conn)
    && w.conn.stream.shutWr <= 2
    && Waiting(w) <= 1
    && (Waiting(w) == 1 ==> w.conn.stream.shutWr <= 1)
    && DisconnectingInv(w)
    && (w.conn.state == Disconnected <==> Closed(w.conn))
  }

  ghost predicate DisconnectingInv(w: World) {
    w.conn.state == Disconnecting ==>
      && (w.conn.stream.shutWr >= 1 ==> w.conn.output == [])
      && (Waiting(w) == 0 && w.conn.output == [] ==> w.conn.stream.shutWr >= 1)
  }

  /** `drained`: a drain has come while closing; `repeated`: shutdownInLoop ran after one. */
  ghost predicate HistoryInv(w: World, drained: bool, repeated: bool) {
    && (w.conn.state == Connecting || w.conn.state == Connected ==> !drained)
    && (Waiting(w) == 1 ==> (w.conn.stream.shutWr >= 1 <==> drained))
    && (w.conn.stream.shutWr == 2 <==> repeated)
  }

  ghost predicate OrderInv(w: World, drained: bool, repeated: bool) {
    AnyInv(w) && ClosingInv(w) && HistoryInv(w, drained, repeated)
  }

  lemma ShutdownEffect(c: Conn)
    requires MaskInv(c)
    ensures var d := ShutdownInLoop(c);
            && d == c.(stream := d.stream)
            && d.stream.shutWr == c.stream.shutWr + if Active(c) && c.output != [] then 0 else 1
  {
  }

  lemma LoopStepOrder(cfg: Config, w: World, e: Event, drained: bool, repeated: bool)
    requires OrderInv(w, drained, repeated) && Possible(w, OnLoop(e))
    ensures var w' := Next(cfg, w, OnLoop(e));
            ClosingInv(w') && HistoryInv(w', drained || DrainsClosing(w, w'), repeated)
  {
    hide SendInLoop, HandleWrite, ShutdownInLoop;
    var c := w.conn;
    match e {
      case SendCall(data, k) => if c.state == Connected { SendEffect(cfg, c, data, k); }
      case Writable(k) => WriteEffect(cfg, c, k);
      case ShutdownCall => if c.state == Connected { ShutdownEffect(c.(state := Disconnecting)); }
      case _ =>
    }
  }

  lemma RunFunctorOrder(cfg: Config, w: World, k: WriteChoice, drained: bool, repeated: bool)
    requires OrderInv(w, drained, repeated) && Possible(w, RunFunctor(k))
    ensures var w' := Next(cfg, w, RunFunctor(k));
            && ClosingInv(w')
            && HistoryInv(w', drained || DrainsClosing(w, w'), repeated || (drained && RunsShutdown(w, RunFunctor(k))))
  {
    hide SendInLoop, ShutdownInLoop;
    assert w.queue == [w.queue[0]] + w.queue[1..];
    if w.queue[0] == ShutdownFunctor {
      ShutdownEffect(w.conn);
    } else if w.conn.state != Disconnected {
      LateSendEffect(cfg, w.conn, w.queue[0].data, k);
    }
  }

  /** A queued send after SHUT_WR leaves the output empty. */
  lemma LateSendEffect(cfg: Config, c: Conn, data: seq<byte>, k: WriteChoice)
    requires MaskInv(c) && Active(c)
    ensures var d := SendInLoop(cfg, c.(accepted := c.accepted + data), data, k);
            && MaskInv(d) && d.state == c.state && d.edges == c.edges && d.stream.shutWr == c.stream.shutWr
            && (c.output != [] ==> d.output != [])
            && (c.stream.shutWr >= 1 && c.output == [] ==> d.output == [])
  {
    assert c.output == [] ==> !IsWriting(c);
  }

  lemma StepOrder(cfg: Config, w: World, step: Step, drained: bool, repeated: bool)
    requires OrderInv(w, drained, repeated) && Possible(w, step) && SetsInTime(w, step)
    ensures var w' := Next(cfg, w, step);
            OrderInv(w', drained || DrainsClosing(w, w'), repeated || (drained && RunsShutdown(w, step)))
  {
    hide OpenInv;
    StepAnyInv(cfg, w, step);
    match step {
      case OnLoop(e) => LoopStepOrder(cfg, w, e, drained, repeated);
      case RunFunctor(k) => RunFunctorOrder(cfg, w, k, drained, repeated);
      case _ => OtherStepOrder(cfg, w, step, drained, repeated);
    }
  }

  lemma OtherStepOrder(cfg: Config, w: World, step: Step, drained: bool, repeated: bool)
    requires OrderInv(w, drained, repeated) && Possible(w, step) && SetsInTime(w, step)
    requires !step.OnLoop? && !step.RunFunctor?
    ensures var w' := Next(cfg, w, step);
            ClosingInv(w') && HistoryInv(w', drained, repeated) && !DrainsClosing(w, w')
  {
  }

  /** A drain has come while closing, before step `n`. */
  ghost predicate Drained(ws: seq<World>, n: nat)
    requires n < |ws|
  {
    exists i :: 0 <= i < n && DrainsClosing(ws[i], ws[i + 1])
  }

  /** Before step `n`, shutdownInLoop ran from the queue after a drain had come. */
  ghost predicate Repeated(ws: seq<World>, steps: seq<Step>, n: nat)
    requires n <= |steps| < |ws|
  {
    exists j :: 0 <= j < n && RunsShutdown(ws[j], steps[j]) && Drained(ws, j)
  }

  lemma HistoryStep(ws: seq<World>, steps: seq<Step>, n: nat)
    requires n < |steps| < |ws|
    ensures Drained(ws, n + 1) <==> Drained(ws, n) || DrainsClosing(ws[n], ws[n + 1])
    ensures Repeated(ws, steps, n + 1) <==>
      Repeated(ws, steps, n) || (Drained(ws, n) && RunsShutdown(ws[n], steps[n]))
  {
    hide DrainsClosing, RunsShutdown;
  }

  lemma StartInOrder()
    ensures OrderInv(START, false, false)
  {
  }

  lemma {:induction false} RunOrder(cfg: Config, ws: seq<World>, steps: seq<Step>, n: nat)
    requires IsTrace(cfg, ws, steps) && n <= |steps| && NoRace(ws, steps, n)
    ensures OrderInv(ws[n], Drained(ws, n), Repeated(ws, steps, n))
  {
    hide OrderInv, Drained, Repeated, DrainsClosing, RunsShutdown, Next, Possible, SetsInTime;
    if n == 0 {
      StartInOrder();
      NothingDrainedYet(ws, steps);
    } else {
      RunOrder(cfg, ws, steps, n - 1);
      assert Follows(cfg, ws[n - 1], steps[n - 1], ws[n]) && SetsInTime(ws[n - 1], steps[n - 1]);
      StepOrder(cfg, ws[n - 1], steps[n - 1], Drained(ws, n - 1), Repeated(ws, steps, n - 1));
      HistoryStep(ws, steps, n - 1);
    }
  }

  lemma NothingDrainedYet(ws: seq<World>, steps: seq<Step>)
    requires |ws| > |steps|
    ensures !Drained(ws, 0) && !Repeated(ws, steps, 0)
  {
  }

  // ----- the promises -------------------------------------------------------------------------------------

  /** SHUT_WR is issued more than once exactly if two steps issue it.  Without the race that is at most
      twice, and twice exactly when a drain half-closed before the queued shutdownInLoop ran. */
  lemma HalfCloseRepeats(cfg: Config, ws: seq<World>, steps: seq<Step>, n: nat)
    requires IsTrace(cfg, ws, steps) && n <= |steps|
    ensures ws[n].conn.stream.shutWr >= 2 <==>
      exists i, j :: 0 <= i < j < n && IssuesAt(ws, steps, i) && IssuesAt(ws, steps, j)
    ensures NoRace(ws, steps, n) ==>
      ws[n].conn.stream.shutWr <= 2 && (ws[n].conn.stream.shutWr == 2 <==> Repeated(ws, steps, n))
  {
    HalfClosesAreIssued(cfg, ws, steps, n);
    if NoRace(ws, steps, n) {
      RunOrder(cfg, ws, steps, n);
    }
  }

  /** The queued shutdownInLoop issues SHUT_WR again exactly if writing is off and an earlier step issued
      it.  Without the race that step is a drain, and with none and nothing queued it issues the first. */
  lemma LateShutdownRepeats(cfg: Config, ws: seq<World>, steps: seq<Step>, n: nat)
    requires IsTrace(cfg, ws, steps) && n <= |steps|
    requires ws[n].queue != [] && ws[n].queue[0] == ShutdownFunctor
    ensures var c := ws[n].conn;
            ShutdownInLoop(c).stream.shutWr > c.stream.shutWr >= 1 <==>
              !IsWriting(c) && exists i :: 0 <= i < n && IssuesAt(ws, steps, i)
    ensures var c := ws[n].conn;
            NoRace(ws, steps, n) ==>
              && (ShutdownInLoop(c).stream.shutWr == 2 <==> Drained(ws, n))
              && (ShutdownInLoop(c).stream.shutWr == 1 <==> !Drained(ws, n) && !IsWriting(c))
  {
    HalfClosesAreIssued(cfg, ws, steps, n);
    if NoRace(ws, steps, n) {
      RunOrder(cfg, ws, steps, n);
      ShutdownEffect(ws[n].conn);
      assert multiset(ws[n].queue)[ShutdownFunctor] >= 1 by {
        assert ws[n].queue == [ShutdownFunctor] + ws[n].queue[1..];
      }
    }
  }

  /** The send would find the connection closed, or the socket half-closed or broken. */
  predicate ComesTooLate(c: Conn) {
    c.state == Disconnected || (TriesSocket(c) && (c.stream.shutWr > 0 || c.stream.broken))
  }

  /** A queued send is given up, whatever the kernel does, exactly when it comes too late, and otherwise
      only a reset makes it be given up.  Without the race and a reset, and with the shutdownInLoop of
      that shutdown() still to run, too late means that a drain has come since the state was set. */
  lemma LateSendIsDropped(cfg: Config, ws: seq<World>, steps: seq<Step>, n: nat, data: seq<byte>)
    requires IsTrace(cfg, ws, steps) && n <= |steps| && data != []
    ensures var w := ws[n];
            && ((forall k :: NothingTaken(w, RunSend(cfg, w, data, k))) <==> ComesTooLate(w.conn))
            && ((forall k :: k != PeerReset ==> !NothingTaken(w, RunSend(cfg, w, data, k))) <==> !ComesTooLate(w.conn))
    ensures NoRace(ws, steps, n) && NoReset(steps, n) && ws[n].conn.state == Disconnecting && Waiting(ws[n]) == 1 ==>
      (ComesTooLate(ws[n].conn) <==> Drained(ws, n))
  {
    hide RunSend, NothingTaken;
    var w := ws[n];
    forall k ensures NothingTaken(w, RunSend(cfg, w, data, k)) <==>
      ComesTooLate(w.conn) || (TriesSocket(w.conn) && k == PeerReset)
    {
      SendIsGivenUp(cfg, w, data, k);
    }
    assert NothingTaken(w, RunSend(cfg, w, data, WouldBlock)) <==> ComesTooLate(w.conn);
    if NoRace(ws, steps, n) && NoReset(steps, n) && w.conn.state == Disconnecting && Waiting(w) == 1 {
      RunOrder(cfg, ws, steps, n);
      WhatIsGivenUp(cfg, ws, steps, n);
    }
  }

  lemma StepForward(cfg: Config, w: World, step: Step)
    requires Possible(w, step) && SetsInTime(w, step) && ClosingInv(w) && ClosingInv(Next(cfg, w, step))
    ensures Rank(w.conn.state) <= Rank(Next(cfg, w, step).conn.state)
    ensures !Reopens(w, Next(cfg, w, step))
  {
    hide Next;
    StateGoesBack(cfg, w, step);
  }

  lemma {:induction false} RunForward(cfg: Config, ws: seq<World>, steps: seq<Step>, n: nat)
    requires IsTrace(cfg, ws, steps) && n <= |steps| && NoRace(ws, steps, n)
    ensures NeverReopens(ws, n)
    ensures forall m :: 0 <= m <= n ==> Rank(ws[m].conn.state) <= Rank(ws[n].conn.state)
  {
    hide Next, Possible, AnyInv, ClosingInv, HistoryInv, SetsInTime, Reopens;
    if n > 0 {
      RunForward(cfg, ws, steps, n - 1);
      RunOrder(cfg, ws, steps, n - 1);
      RunOrder(cfg, ws, steps, n);
      assert Follows(cfg, ws[n - 1], steps[n - 1], ws[n]) && SetsInTime(ws[n - 1], steps[n - 1]);
      StepForward(cfg, ws[n - 1], steps[n - 1]);
    }
  }

  /** The life cycle.  As long as no closed channel asks for events again: UP then DOWN, at most one close,
      and no interest after it.  Without the race that never happens, the mask follows state and output,
      and the state only moves forward. */
  lemma LifeCycleWithOtherThreads(cfg: Config, ws: seq<World>, steps: seq<Step>, n: nat)
    requires IsTrace(cfg, ws, steps) && n <= |steps|
    ensures NeverReopens(ws, n) ==> ReportsInv(ws[n].conn)
    ensures NoRace(ws, steps, n) ==>
      && NeverReopens(ws, n) && MaskInv(ws[n].conn)
      && forall m :: 0 <= m <= n ==> Rank(ws[m].conn.state) <= Rank(ws[n].conn.state)
  {
    hide AnyInv, HistoryInv, Reopens, ReportsInv;
    if NeverReopens(ws, n) {
      ReportsUntilReopened(cfg, ws, steps, n);
    }
    if NoRace(ws, steps, n) {
      RunOrder(cfg, ws, steps, n);
      RunForward(cfg, ws, steps, n);
    }
  }

  lemma {:induction false} DroppedComesLast(cfg: Config, ws: seq<World>, steps: seq<Step>, n: nat)
    requires IsTrace(cfg, ws, steps) && n <= |steps| && NoRace(ws, steps, n)
    ensures Handed(ws, steps, n) == Taken(ws, steps, n) + Dropped(ws, steps, n)
    ensures ws[n].conn.state != Disconnected ==> Dropped(ws, steps, n) == []
  {
    hide Next, Possible, HandedBy;
    if n > 0 {
      DroppedComesLast(cfg, ws, steps, n - 1);
      assert Follows(cfg, ws[n - 1], steps[n - 1], ws[n]) && SetsInTime(ws[n - 1], steps[n - 1]);
      StateGoesBack(cfg, ws[n - 1], steps[n - 1]);
    }
  }

  /** The wire and everything handed over.  What was handed over is what was taken on and what was dropped,
      and the wire is a prefix of the first.  Without the race a send is dropped only behind all that was
      taken on, so the wire is a prefix of everything handed over. */
  lemma WireIsInOrder(cfg: Config, ws: seq<World>, steps: seq<Step>, n: nat)
    requires IsTrace(cfg, ws, steps) && n <= |steps|
    ensures ws[n].conn.stream.wire <= Taken(ws, steps, n)
    ensures multiset(Handed(ws, steps, n)) == multiset(Taken(ws, steps, n)) + multiset(Dropped(ws, steps, n))
    ensures NoRace(ws, steps, n) ==>
      && Handed(ws, steps, n) == Taken(ws, steps, n) + Dropped(ws, steps, n)
      && ws[n].conn.stream.wire <= Handed(ws, steps, n)
  {
    hide Next, Handed, Taken, Dropped;
    StreamWithOtherThreads(cfg, ws, steps, n);
    if NoRace(ws, steps, n) {
      DroppedComesLast(cfg, ws, steps, n);
    }
  }
}
