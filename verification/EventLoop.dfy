/** src/EventLoop.cpp as a protocol between the loop's own thread and any number of other threads.

    Every line another thread can observe is a step of its own: the push under the lock and the write to
    the eventfd are two steps, as are setting quit_ and waking the loop, setting
    callingPendingFunctors_, the swap, and resetting the flag.  Functors are opaque values of type F. */
module EventLoops {

  /** Where the loop's own thread is. */
  datatype Pc =
    | BeforeLoop              // loop() has not been entered
    | CheckQuit               // while (!quit_)
    | AtPoll                  // about to wait in epoll_wait
    | Dispatching(wake: bool) // handling active channels; `wake`: the wakeup channel is still to come
    | BeforeCalling           // about to set callingPendingFunctors_
    | BeforeSwap              // about to swap the queue out
    | RunningBatch            // executing the functors swapped out
    | Exited

  /** `pushed`, `executed`, `swaps`, `pushedAt`, `ranAt` and `pollsSinceQuit` are history: all functors
      pushed in the order the lock was taken, all functors run, the number of swaps so far, that number
      at each push and at each run, and the polls that returned since quit_ was last set. */
  datatype Loop<F> = Loop(
    pc: Pc,
    quit: bool,
    calling: bool,
    pending: seq<F>,
    batch: seq<F>,            // what is left of the functors swapped out
    counter: nat,             // of the eventfd
    selfPushed: bool,         // the loop thread is inside queueInLoop, between push and wake decision
    pushers: set<int>,        // other threads between their push and their write
    quitters: set<int>,       // other threads between setting quit_ and their write
    pushed: seq<F>,
    executed: seq<F>,
    swaps: nat,
    pushedAt: seq<nat>,
    ranAt: seq<nat>,
    pollsSinceQuit: nat)

  const EVENTFD_MAX: nat := 0xffff_ffff_ffff_fffe

  /** wakeup(): adds one to the eventfd, or fails when it is already at its maximum. */
  function Wakeup(counter: nat): nat {
    if counter < EVENTFD_MAX then counter + 1 else counter
  }

  function Wakeups(counter: nat, n: nat): nat {
    if n == 0 then counter else Wakeup(Wakeups(counter, n - 1))
  }

  /** The eventfd counts the writes since it was last read, up to its maximum of 2^64 - 2. */
  lemma {:induction false} WakeupsAreCounted(n: nat)
    ensures Wakeups(0, n) == if n < 18446744073709551614 then n else 18446744073709551614
  {
    if n > 0 {
      WakeupsAreCounted(n - 1);
    }
  }

  datatype Step<F> =
    | Push(t: int, f: F)      // queueInLoop on another thread: the push
    | Wake(t: int)            // ... and its write
    | Quit(t: int)            // quit() on another thread: setting quit_
    | QuitWake(t: int)        // ... and its write
    | SelfPush(f: F)          // queueInLoop on the loop thread: the push
    | SelfWake                // ... and the decision whether to write
    | SelfQuit                // quit() on the loop thread
    | Enter                   // loop() resets quit_
    | Check                   // the loop condition
    | PollReturns(wake: bool) // epoll_wait returns, reporting the wakeup channel or not
    | DrainEventfd            // handleRead of the wakeup channel
    | EndDispatch
    | SetCalling
    | Swap
    | RunNext
    | EndBatch

  /** User code runs on the loop thread before loop(), in handlers and in functors. */
  predicate InUserCode(pc: Pc) {
    pc == BeforeLoop || pc.Dispatching? || pc == RunningBatch
  }

  predicate Enabled<F>(s: Loop<F>, step: Step<F>) {
    match step
    case Push(t, _) => t !in s.pushers && t !in s.quitters
    case Wake(t) => t in s.pushers
    case Quit(t) => t !in s.pushers && t !in s.quitters
    case QuitWake(t) => t in s.quitters
    case SelfPush(_) => InUserCode(s.pc) && !s.selfPushed
    case SelfWake => s.selfPushed
    case SelfQuit => InUserCode(s.pc) && !s.selfPushed
    case Enter => s.pc == BeforeLoop && !s.selfPushed
    case Check => s.pc == CheckQuit
    case PollReturns(wake) => s.pc == AtPoll && (wake ==> s.counter > 0)
    case DrainEventfd => s.pc == Dispatching(true) && !s.selfPushed
    case EndDispatch => s.pc == Dispatching(false) && !s.selfPushed
    case SetCalling => s.pc == BeforeCalling
    case Swap => s.pc == BeforeSwap
    case RunNext => s.pc == RunningBatch && s.batch != [] && !s.selfPushed
    case EndBatch => s.pc == RunningBatch && s.batch == [] && !s.selfPushed
  }

  function Enqueue<F>(s: Loop<F>, f: F): Loop<F> {
    s.(pending := s.pending + [f], pushed := s.pushed + [f], pushedAt := s.pushedAt + [s.swaps])
  }

  function SetQuit<F>(s: Loop<F>): Loop<F> {
    s.(quit := true, pollsSinceQuit := if s.quit then s.pollsSinceQuit else 0)
  }

  function Next<F>(s: Loop<F>, step: Step<F>): Loop<F>
    requires Enabled(s, step)
  {
    match step
    case Push(t, f) => Enqueue(s, f).(pushers := s.pushers + {t})
    case Wake(t) => s.(counter := Wakeup(s.counter), pushers := s.pushers - {t})
    case Quit(t) => SetQuit(s).(quitters := s.quitters + {t})
    case QuitWake(t) => s.(counter := Wakeup(s.counter), quitters := s.quitters - {t})
    case SelfPush(f) => Enqueue(s, f).(selfPushed := true)
    case SelfWake =>
      s.(selfPushed := false, counter := if s.calling then Wakeup(s.counter) else s.counter)
    case SelfQuit => SetQuit(s)
    case Enter => s.(pc := CheckQuit, quit := false)
    case Check => s.(pc := if s.quit then Exited else AtPoll)
    case PollReturns(wake) =>
      s.(pc := Dispatching(wake), pollsSinceQuit := s.pollsSinceQuit + 1)
    case DrainEventfd => s.(pc := Dispatching(false), counter := 0)
    case EndDispatch => s.(pc := BeforeCalling)
    case SetCalling => s.(pc := BeforeSwap, calling := true)
    case Swap => s.(pc := RunningBatch, batch := s.pending, pending := [], swaps := s.swaps + 1)
    case RunNext =>
      s.(batch := s.batch[1..], executed := s.executed + [s.batch[0]], ranAt := s.ranAt + [s.swaps])
    case EndBatch => s.(pc := CheckQuit, calling := false)
  }

  function Run<F>(s: Loop<F>, steps: seq<Step<F>>): Loop<F>
    requires Legal(s, steps)
    decreases |steps|
  {
    if steps == [] then s else Run(Next(s, steps[0]), steps[1..])
  }

  predicate Legal<F>(s: Loop<F>, steps: seq<Step<F>>)
    decreases |steps|
  {
    steps != [] ==> Enabled(s, steps[0]) && Legal(Next(s, steps[0]), steps[1..])
  }

  /** A loop object just created. */
  function Created<F>(): Loop<F> {
    Loop(BeforeLoop, false, false, [], [], 0, false, {}, {}, [], [], 0, [], [], 0)
  }

  lemma Prepend<F>(s: Loop<F>, step: Step<F>, rest: seq<Step<F>>) returns (steps: seq<Step<F>>)
    requires Enabled(s, step) && Legal(Next(s, step), rest)
    ensures steps == [step] + rest && Legal(s, steps) && Run(s, steps) == Run(Next(s, step), rest)
  {
    steps := [step] + rest;
    assert steps[1..] == rest;
  }

  // ----- what holds from creation on ----------------------------------------------------------------

  /** The queue: what was pushed is what ran, what is left of the batch and what is pending, in order;
      and a functor runs in the batch after the one in progress when it was pushed. */
  ghost predicate QueueInv<F>(s: Loop<F>) {
    && s.executed + s.batch + s.pending == s.pushed
    && |s.pushedAt| == |s.pushed| && |s.ranAt| == |s.executed|
    && (forall i :: 0 <= i < |s.executed| ==> s.ranAt[i] == s.pushedAt[i] + 1)
    && (forall i :: |s.executed| <= i < |s.executed| + |s.batch| ==> s.pushedAt[i] + 1 == s.swaps)
    && (forall i :: |s.executed| + |s.batch| <= i < |s.pushed| ==> s.pushedAt[i] == s.swaps)
  }

  /** Control: the flag is up from before the swap to the end of the batch, only a running batch has
      functors left, and the wakeup channel is only dispatched on a positive counter. */
  ghost predicate ControlInv<F>(s: Loop<F>) {
    && (s.calling <==> s.pc == BeforeSwap || s.pc == RunningBatch)
    && (s.batch != [] ==> s.pc == RunningBatch)
    && (s.selfPushed ==> InUserCode(s.pc))
    && (s.pc == Dispatching(true) ==> s.counter > 0)
  }

  /** Once quit_ is set the loop polls at most once more, and not if it has yet to be woken for it. */
  ghost predicate QuitInv<F>(s: Loop<F>) {
    && (s.quit && s.pc == AtPoll ==> s.pollsSinceQuit == 0 && (s.counter > 0 || s.quitters != {}))
    && (s.quit && s.pc != BeforeLoop ==> s.pollsSinceQuit <= 1)
  }

  ghost predicate Inv<F>(s: Loop<F>) {
    QueueInv(s) && ControlInv(s) && QuitInv(s)
  }

  /** The loop thread will swap the queue before it polls again. */
  predicate SwapsFirst(pc: Pc) {
    pc.Dispatching? || pc == BeforeCalling || pc == BeforeSwap
  }

  /** Whenever something is pending it is going to be noticed: by the swap ahead, by a positive counter,
      or by a write some thread still owes. */
  ghost predicate WakeInv<F>(s: Loop<F>) {
    s.pending != [] ==>
      || SwapsFirst(s.pc)
      || s.counter > 0
      || s.pushers != {}
      || (s.selfPushed && s.calling)
      || s.pc == Exited
  }

  /** No lost wakeup: at the poll, pending functors imply a positive counter or a write still owed. */
  ghost predicate NoLostWakeup<F>(s: Loop<F>) {
    s.pc == AtPoll && s.pending != [] ==> s.counter > 0 || s.pushers != {}
  }

  lemma EnqueueKeepsQueue<F>(s: Loop<F>, f: F)
    requires QueueInv(s)
    ensures QueueInv(Enqueue(s, f))
  {
    var s' := Enqueue(s, f);
    assert s.executed + s.batch + (s.pending + [f]) == (s.executed + s.batch + s.pending) + [f];
  }

  lemma StepQueueInv<F>(s: Loop<F>, step: Step<F>)
    requires QueueInv(s) && ControlInv(s) && Enabled(s, step)
    ensures QueueInv(Next(s, step))
  {
    match step
    case Push(_, f) => EnqueueKeepsQueue(s, f);
    case SelfPush(f) => EnqueueKeepsQueue(s, f);
    case Swap =>
      assert s.executed + s.pending + [] == s.executed + [] + s.pending;
    case RunNext =>
      assert s.executed + [s.batch[0]] + s.batch[1..] == s.executed + s.batch;
    case _ =>
  }

  lemma StepInv<F>(s: Loop<F>, step: Step<F>)
    requires Inv(s) && Enabled(s, step)
    ensures Inv(Next(s, step))
  {
    StepQueueInv(s, step);
    if step.Quit? {
      assert step.t in Next(s, step).quitters;
    }
  }

  lemma StepWakeInv<F>(s: Loop<F>, step: Step<F>)
    requires Inv(s) && WakeInv(s) && s.pc != BeforeLoop && Enabled(s, step)
    ensures WakeInv(Next(s, step)) && Next(s, step).pc != BeforeLoop
  {
    if step.Push? {
      assert step.t in Next(s, step).pushers;
    }
  }

  lemma {:induction false} RunInv<F>(s: Loop<F>, steps: seq<Step<F>>)
    requires Inv(s) && Legal(s, steps)
    ensures Inv(Run(s, steps))
    decreases |steps|
  {
    if steps != [] {
      StepInv(s, steps[0]);
      RunInv(Next(s, steps[0]), steps[1..]);
    }
  }

  lemma {:induction false} RunWakeInv<F>(s: Loop<F>, steps: seq<Step<F>>)
    requires Inv(s) && WakeInv(s) && s.pc != BeforeLoop && Legal(s, steps)
    ensures WakeInv(Run(s, steps))
    decreases |steps|
  {
    if steps != [] {
      StepInv(s, steps[0]);
      StepWakeInv(s, steps[0]);
      RunWakeInv(Next(s, steps[0]), steps[1..]);
    }
  }

  // ----- the promises -------------------------------------------------------------------------------

  /** Exactly once and first in, first out, in every interleaving: what ran is a prefix of what was
      pushed, the rest is in the batch or pending in order, and each functor ran in the batch right
      after the one in progress when it was pushed. */
  lemma FunctorsRunInOrder<F>(steps: seq<Step<F>>)
    requires Legal(Created<F>(), steps)
    ensures var s := Run(Created<F>(), steps);
            && s.executed + s.batch + s.pending == s.pushed
            && |s.ranAt| == |s.executed| <= |s.pushedAt|
            && forall i :: 0 <= i < |s.executed| ==> s.ranAt[i] == s.pushedAt[i] + 1
  {
    RunInv(Created<F>(), steps);
  }

  /** loop() has just been entered, from a state the loop can be in. */
  ghost predicate JustEntered<F>(s: Loop<F>) {
    Inv(s) && s.pc == CheckQuit && !s.quit
  }

  /** No lost wakeup in any interleaving, exactly when, on entering loop(), whatever is pending has
      been or is about to be announced on the eventfd.  What the loop thread itself queued before
      loop() is not, because queueInLoop writes only when callingPendingFunctors_ is set. */
  lemma NoLostWakeupExactly<F>(s: Loop<F>)
    requires JustEntered(s)
    ensures (forall steps :: Legal(s, steps) ==> NoLostWakeup(Run(s, steps)))
      <==> (s.pending != [] ==> s.counter > 0 || s.pushers != {})
  {
    if s.pending != [] ==> s.counter > 0 || s.pushers != {} {
      forall steps | Legal(s, steps) ensures NoLostWakeup(Run(s, steps)) {
        RunInv(s, steps);
        RunWakeInv(s, steps);
      }
    } else {
      var steps: seq<Step<F>> := [Check];
      steps := Prepend(s, Check, []);
      assert !NoLostWakeup(Run(s, steps));
    }
  }

  lemma StepBeforeEntry<F>(s: Loop<F>, step: Step<F>)
    requires ControlInv(s) && s.pc == BeforeLoop && Enabled(s, step) && !step.Enter?
    ensures var s' := Next(s, step);
            && ControlInv(s') && s'.pc == BeforeLoop
            && (s'.pending != [] <==> s.pending != [] || IsPush(step))
            && (s'.counter > 0 || s'.pushers != {} <==> s.counter > 0 || s.pushers != {} || Announces(step))
  {
    assert step.Push? ==> step.t in Next(s, step).pushers;
  }

  /** What was queued before loop(), and whether the eventfd was told. */
  lemma {:induction false} BeforeEntry<F>(s: Loop<F>, steps: seq<Step<F>>)
    requires ControlInv(s) && s.pc == BeforeLoop && Legal(s, steps) && Run(s, steps).pc == BeforeLoop
    ensures var t := Run(s, steps);
            && (t.pending != [] <==> s.pending != [] || exists i :: 0 <= i < |steps| && IsPush(steps[i]))
            && (t.counter > 0 || t.pushers != {} <==>
                 s.counter > 0 || s.pushers != {} || exists i :: 0 <= i < |steps| && Announces(steps[i]))
    decreases |steps|
  {
    hide ControlInv, IsPush, Announces;
    if steps != [] {
      var s1 := Next(s, steps[0]);
      if steps[0].Enter? {
        NeverBeforeAgain(s1, steps[1..]);
      } else {
        StepBeforeEntry(s, steps[0]);
        BeforeEntry(s1, steps[1..]);
        assert forall i :: 1 <= i < |steps| ==> steps[i] == steps[1..][i - 1];
      }
    }
  }

  predicate IsPush<F>(step: Step<F>) {
    step.Push? || step.SelfPush?
  }

  /** Another thread queues a functor, or wakes the loop to quit. */
  predicate Announces<F>(step: Step<F>) {
    step.Push? || step.QuitWake?
  }

  /** The same from the creation of the loop object on: once loop() is entered no interleaving loses a
      wakeup, exactly when the loop thread had queued nothing itself, or some other thread had queued a
      functor or woken the loop as well. */
  lemma NoLostWakeupFromCreation<F>(before: seq<Step<F>>)
    requires Legal(Created<F>(), before) && Enabled(Run(Created<F>(), before), Enter)
    ensures var s := Next(Run(Created<F>(), before), Enter);
            (forall steps :: Legal(s, steps) ==> NoLostWakeup(Run(s, steps)))
            <==> ((exists i :: 0 <= i < |before| && before[i].SelfPush?)
                  ==> exists i :: 0 <= i < |before| && Announces(before[i]))
  {
    RunInv(Created<F>(), before);
    BeforeEntry(Created<F>(), before);
    NoLostWakeupExactly(Next(Run(Created<F>(), before), Enter));
    forall i | 0 <= i < |before| ensures IsPush(before[i]) <==> before[i].SelfPush? || before[i].Push? {
    }
    forall i | 0 <= i < |before| && before[i].Push? ensures Announces(before[i]) {
    }
    forall i | 0 <= i < |before| && before[i].SelfPush? ensures IsPush(before[i]) {
    }
  }

  /** The shortest run that loses a wakeup: the loop waits with a functor pending, nobody owes a write,
      and the eventfd is zero. */
  lemma EarlyPushIsNotNoticed<F>(f: F)
    ensures var s: Loop<F> := Created();
            && Legal(s, [SelfPush(f), SelfWake, Enter, Check])
            && var t := Run(s, [SelfPush(f), SelfWake, Enter, Check]);
               t.pc == AtPoll && t.pending == [f] && t.counter == 0 && t.pushers == {} && !NoLostWakeup(t)
  {
    var s1: Loop<F> := Next(Created(), SelfPush(f));
    var s2 := Next(s1, SelfWake);
    var s3 := Next(s2, Enter);
    var steps := Prepend(s3, Check, []);
    steps := Prepend(s2, Enter, steps);
    steps := Prepend(s1, SelfWake, steps);
    steps := Prepend(Created(), SelfPush(f), steps);
    assert steps == [SelfPush(f), SelfWake, Enter, Check];
  }

  /** The poll blocks only on a zero counter, so with every writer done the loop cannot sleep on
      pending functors, nor on a quit request. */
  lemma NeverSleepsOnWork<F>(s: Loop<F>, steps: seq<Step<F>>)
    requires JustEntered(s) && (s.pending != [] ==> s.counter > 0 || s.pushers != {}) && Legal(s, steps)
    ensures var t := Run(s, steps);
            t.pc == AtPoll && t.pushers == {} && t.quitters == {} && t.counter == 0 ==> t.pending == [] && !t.quit
  {
    RunInv(s, steps);
    RunWakeInv(s, steps);
  }

  /** No lost quit, in any interleaving after loop() was entered: once quit_ is set, at most one more
      poll returns, a poll entered with quit_ set is going to be woken, and the next check leaves the
      loop. */
  lemma QuitIsHonoured<F>(s: Loop<F>, steps: seq<Step<F>>)
    requires JustEntered(s) && Legal(s, steps)
    ensures var t := Run(s, steps);
            && (t.quit ==> t.pollsSinceQuit <= 1)
            && (t.quit && t.pc == AtPoll ==> t.counter > 0 || t.quitters != {})
            && (t.quit && t.pc == CheckQuit ==> Next(t, Check).pc == Exited)
  {
    RunInv(s, steps);
    NeverBeforeAgain(s, steps);
  }

  lemma {:induction false} NeverBeforeAgain<F>(s: Loop<F>, steps: seq<Step<F>>)
    requires s.pc != BeforeLoop && Legal(s, steps)
    ensures Run(s, steps).pc != BeforeLoop
    ensures s.quit ==> Run(s, steps).quit
    decreases |steps|
  {
    if steps != [] {
      NeverBeforeAgain(Next(s, steps[0]), steps[1..]);
    }
  }

  function PollsReturned<F>(steps: seq<Step<F>>): nat {
    if steps == [] then 0 else (if steps[0].PollReturns? then 1 else 0) + PollsReturned(steps[1..])
  }

  /** Once quit_ is set inside loop(), the poll that is waiting returns, if there is one, and no other does,
      in any interleaving. */
  lemma {:induction false} QuitEndsPolling<F>(s: Loop<F>, steps: seq<Step<F>>)
    requires s.quit && s.pc != BeforeLoop && Legal(s, steps)
    ensures PollsReturned(steps) <= if s.pc == AtPoll then 1 else 0
    decreases |steps|
  {
    if steps != [] {
      QuitEndsPolling(Next(s, steps[0]), steps[1..]);
    }
  }

  predicate IsQuit<F>(step: Step<F>) {
    step.Quit? || step.SelfQuit?
  }

  /** A quit was requested and loop() has not been entered since. */
  predicate QuitStands<F>(steps: seq<Step<F>>) {
    exists i :: 0 <= i < |steps| && IsQuit(steps[i]) && !Enters(steps[i + 1..])
  }

  predicate Enters<F>(steps: seq<Step<F>>) {
    exists i :: 0 <= i < |steps| && steps[i].Enter?
  }

  /** A quit requested before loop() is entered is overwritten, and one requested after it stays: in every
      run quit_ is set exactly if it was requested with no entry into loop() after it. */
  lemma QuitCountsFromEntry<F>(steps: seq<Step<F>>)
    requires Legal(Created<F>(), steps)
    ensures Run(Created<F>(), steps).quit <==> QuitStands(steps)
  {
    QuitAfter(Created<F>(), steps);
  }

  lemma {:induction false} QuitAfter<F>(s: Loop<F>, steps: seq<Step<F>>)
    requires Legal(s, steps)
    ensures Run(s, steps).quit <==> (s.quit && !Enters(steps)) || QuitStands(steps)
    decreases |steps|
  {
    if steps != [] {
      QuitAfter(Next(s, steps[0]), steps[1..]);
      StandsFromFirst(steps);
    }
  }

  lemma StandsFromFirst<F>(steps: seq<Step<F>>)
    requires steps != []
    ensures Enters(steps) <==> steps[0].Enter? || Enters(steps[1..])
    ensures QuitStands(steps) <==> (IsQuit(steps[0]) && !Enters(steps[1..])) || QuitStands(steps[1..])
  {
    var rest := steps[1..];
    if Enters(rest) {
      var i :| 0 <= i < |rest| && rest[i].Enter?;
      assert steps[i + 1].Enter?;
    }
    if QuitStands(steps) {
      var i :| 0 <= i < |steps| && IsQuit(steps[i]) && !Enters(steps[i + 1..]);
      if i > 0 {
        assert rest[i - 1] == steps[i] && rest[i..] == steps[i + 1..];
      }
    }
    if QuitStands(rest) {
      var i :| 0 <= i < |rest| && IsQuit(rest[i]) && !Enters(rest[i + 1..]);
      assert steps[i + 1] == rest[i] && steps[i + 2..] == rest[i + 1..];
    }
  }

  /** The shortest run that loses a quit. */
  lemma EarlyQuitIsLost<F>()
    ensures var s: Loop<F> := Created();
            && Legal(s, [SelfQuit, Enter])
            && Next(s, SelfQuit).quit
            && Run(s, [SelfQuit, Enter]).quit == false
  {
    var steps := Prepend(Next(Created<F>(), SelfQuit), Enter, []);
    steps := Prepend(Created<F>(), SelfQuit, steps);
    assert steps == [SelfQuit, Enter];
  }

  // ----- progress of the loop thread ------------------------------------------------------------------

  /** The steps the loop thread takes on its own to run the rest of a batch. */
  function RunBatchSteps<F>(n: nat): (steps: seq<Step<F>>)
    ensures |steps| == n
  {
    if n == 0 then [] else [RunNext] + RunBatchSteps(n - 1)
  }

  lemma {:induction false} BatchTerminates<F>(s: Loop<F>)
    requires s.pc == RunningBatch && !s.selfPushed
    ensures var steps := RunBatchSteps<F>(|s.batch|);
            && Legal(s, steps)
            && Run(s, steps).batch == [] && Run(s, steps).pc == RunningBatch
            && Run(s, steps).executed == s.executed + s.batch
            && Run(s, steps).pending == s.pending
    decreases |s.batch|
  {
    if s.batch != [] {
      var s1 := Next(s, RunNext);
      BatchTerminates(s1);
      assert RunBatchSteps<F>(|s.batch|)[1..] == RunBatchSteps<F>(|s1.batch|);
      assert s.executed + s.batch == s1.executed + s1.batch;
    }
  }

  predicate EndsBatch<F>(steps: seq<Step<F>>) {
    exists i :: 0 <= i < |steps| && steps[i].EndBatch?
  }

  function FunctorsRun<F>(steps: seq<Step<F>>): nat {
    if steps == [] then 0 else (if steps[0].RunNext? then 1 else 0) + FunctorsRun(steps[1..])
  }

  lemma StepInBatch<F>(s: Loop<F>, step: Step<F>)
    requires s.pc == RunningBatch && Enabled(s, step) && !step.EndBatch?
    ensures var s' := Next(s, step);
            && s'.pc == RunningBatch && s'.swaps == s.swaps
            && s'.executed + s'.batch == s.executed + s.batch
            && |s'.batch| + (if step.RunNext? then 1 else 0) == |s.batch|
  {
    if step.RunNext? {
      assert (s.executed + [s.batch[0]]) + s.batch[1..] == s.executed + s.batch;
    }
  }

  /** In every interleaving, a batch runs the functors swapped out and no others, however many are queued
      meanwhile: until it ends, each functor run is one fewer left. */
  lemma {:induction false} BatchIsBounded<F>(s: Loop<F>, steps: seq<Step<F>>)
    requires s.pc == RunningBatch && Legal(s, steps) && !EndsBatch(steps)
    ensures var t := Run(s, steps);
            && t.pc == RunningBatch && t.swaps == s.swaps
            && t.executed + t.batch == s.executed + s.batch
            && |t.batch| + FunctorsRun(steps) == |s.batch|
    decreases |steps|
  {
    hide Next, Enabled;
    if steps != [] {
      assert !steps[0].EndBatch?;
      assert forall i :: 0 <= i < |steps[1..]| ==> steps[1..][i] == steps[i + 1];
      StepInBatch(s, steps[0]);
      BatchIsBounded(Next(s, steps[0]), steps[1..]);
    }
  }

  /** `due` was pushed by now, and has run once the batch of this iteration is over. */
  ghost predicate IsDue<F>(due: seq<F>, s: Loop<F>) {
    match s.pc
    case RunningBatch => due <= s.executed + s.batch
    case AtPoll => due <= s.pushed
    case Dispatching(_) => due <= s.pushed
    case BeforeCalling => due <= s.pushed
    case BeforeSwap => due <= s.pushed
    case _ => due <= s.executed
  }

  lemma StepKeepsDue<F>(due: seq<F>, s: Loop<F>, step: Step<F>)
    requires Inv(s) && s.pc != BeforeLoop && Enabled(s, step) && IsDue(due, s)
    ensures IsDue(due, Next(s, step)) && Next(s, step).pc != BeforeLoop
  {
    var s' := Next(s, step);
    StepInv(s, step);
    assert s.executed <= s.pushed && s.executed + s.batch <= s.pushed;
    if step.RunNext? {
      assert s'.executed + s'.batch == s.executed + s.batch;
    }
  }

  lemma {:induction false} RunKeepsDue<F>(due: seq<F>, s: Loop<F>, steps: seq<Step<F>>)
    requires Inv(s) && s.pc != BeforeLoop && Legal(s, steps) && IsDue(due, s)
    ensures IsDue(due, Run(s, steps))
    decreases |steps|
  {
    if steps != [] {
      StepInv(s, steps[0]);
      StepKeepsDue(due, s, steps[0]);
      RunKeepsDue(due, Next(s, steps[0]), steps[1..]);
    }
  }

  /** In every interleaving, whatever had been pushed when the loop thread was at the poll has run when it
      next checks quit_, or has left the loop. */
  lemma EveryIterationRunsAll<F>(s: Loop<F>, steps: seq<Step<F>>)
    requires Inv(s) && s.pc == AtPoll && Legal(s, steps)
    ensures var t := Run(s, steps);
            t.pc == CheckQuit || t.pc == Exited ==> s.pushed <= t.executed
  {
    RunKeepsDue(s.pushed, s, steps);
  }

  /** The loop thread alone, from the end of its dispatch to the last functor of the batch. */
  lemma RunsBatch<F>(s: Loop<F>) returns (steps: seq<Step<F>>)
    requires s.pc.Dispatching? && !s.pc.wake && !s.selfPushed
    ensures |steps| == |s.pending| + 3 && Legal(s, steps)
    ensures Run(s, steps).executed == s.executed + s.pending && Run(s, steps).pending == []
  {
    hide Legal, Run;
    var dispatched := Next(s, EndDispatch);
    var calling := Next(dispatched, SetCalling);
    var swapped := Next(calling, Swap);
    BatchTerminates(swapped);
    steps := RunBatchSteps(|swapped.batch|);
    steps := Prepend(calling, Swap, steps);
    steps := Prepend(dispatched, SetCalling, steps);
    steps := Prepend(s, EndDispatch, steps);
  }

  /** From the poll, |pending| + 4 or 5 steps of the loop thread run everything that was pushed so far. */
  lemma OneIterationRunsAll<F>(s: Loop<F>, wake: bool) returns (steps: seq<Step<F>>)
    requires Inv(s) && s.pc == AtPoll && (wake ==> s.counter > 0)
    ensures |steps| == |s.pending| + if wake then 5 else 4
    ensures Legal(s, steps) && Run(s, steps).executed == s.pushed && Run(s, steps).pending == []
  {
    hide Legal, Run, QuitInv;
    var polled := Next(s, PollReturns(wake));
    var drained := if wake then Next(polled, DrainEventfd) else polled;
    steps := RunsBatch(drained);
    if wake {
      steps := Prepend(polled, DrainEventfd, steps);
    }
    steps := Prepend(s, PollReturns(wake), steps);
    assert s.executed + [] + s.pending == s.executed + s.pending;
  }
}
