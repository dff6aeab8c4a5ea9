/** src/EventLoop.cpp in its own form: an object whose fields loop() and its callers update line by line.
    Between any two lines other threads may run; `others` is their schedule.  Every execution is a run
    of the protocol in EventLoops, so what is proved there about all interleavings holds here. */
module EventLoopObjects {
  import opened EventLoops

  /** What one handler or functor does on the loop thread. */
  datatype UserOp<F> = Queue(f: F) | RequestQuit

  datatype Caller = LoopThread | Other(t: int)

  lemma {:induction false} RunSnoc<F>(s: Loop<F>, steps: seq<Step<F>>, step: Step<F>)
    requires Legal(s, steps) && Enabled(Run(s, steps), step)
    ensures Legal(s, steps + [step]) && Run(s, steps + [step]) == Next(Run(s, steps), step)
    decreases |steps|
  {
    if steps == [] {
      assert [step][1..] == [] && [] + [step] == [step];
    } else {
      assert (steps + [step])[1..] == steps[1..] + [step];
      RunSnoc(Next(s, steps[0]), steps[1..], step);
    }
  }

  /** A thread other than the caller can take this step, given which threads still owe a write. */
  predicate CanInterfere<F>(step: Step<F>, pushers: set<int>, quitters: set<int>, caller: Caller) {
    match step
    case Push(t, _) => t !in pushers && t !in quitters && caller != Other(t)
    case Wake(t) => t in pushers && caller != Other(t)
    case Quit(t) => t !in pushers && t !in quitters && caller != Other(t)
    case QuitWake(t) => t in quitters && caller != Other(t)
    case _ => false
  }

  /** Which of `steps` other threads take, in turn, given who owes a write. */
  function Interference<F>(steps: seq<Step<F>>, pushers: set<int>, quitters: set<int>, caller: Caller): seq<Step<F>> {
    if steps == [] then []
    else if !CanInterfere(steps[0], pushers, quitters, caller) then
      Interference(steps[1..], pushers, quitters, caller)
    else
      [steps[0]] + match steps[0]
        case Push(t, _) => Interference(steps[1..], pushers + {t}, quitters, caller)
        case Wake(t) => Interference(steps[1..], pushers - {t}, quitters, caller)
        case Quit(t) => Interference(steps[1..], pushers, quitters + {t}, caller)
        case QuitWake(t) => Interference(steps[1..], pushers, quitters - {t}, caller)
        case _ => []
  }

  /** What the first `n` scripts do, one after the other, and what is left of them. */
  function Ops<F>(scripts: seq<seq<UserOp<F>>>, n: nat): seq<UserOp<F>> {
    if n == 0 || scripts == [] then [] else scripts[0] + Ops(scripts[1..], n - 1)
  }

  function Rest<T>(s: seq<T>, n: nat): seq<T> {
    if n < |s| then s[n..] else []
  }

  lemma {:induction false} OpsSplit<F>(scripts: seq<seq<UserOp<F>>>, m: nat, n: nat)
    ensures Ops(scripts, m + n) == Ops(scripts, m) + Ops(Rest(scripts, m), n)
    ensures Rest(scripts, m + n) == Rest(Rest(scripts, m), n)
  {
    if m > 0 && scripts != [] {
      OpsSplit(scripts[1..], m - 1, n);
    }
  }

  /** A poll that returned: whether it reported the wakeup channel, whether the eventfd was positive, and
      how many functors had been pushed. */
  datatype Poll = Poll(wake: bool, ready: bool, pushed: nat)

  /** What a step adds to the polls, and to what user code on the loop thread has done. */
  function PollOf<F>(s: Loop<F>, step: Step<F>): seq<Poll> {
    if step.PollReturns? then [Poll(step.wake, s.counter > 0, |s.pushed|)] else []
  }

  function OpOf<F>(step: Step<F>): seq<UserOp<F>> {
    match step
    case SelfPush(f) => [Queue(f)]
    case SelfQuit => [RequestQuit]
    case _ => []
  }

  /** The two steps of queueInLoop, on whatever thread. */
  function PushOf<F>(caller: Caller, f: F): Step<F> {
    match caller
    case LoopThread => SelfPush(f)
    case Other(t) => Push(t, f)
  }

  function WakeOf<F>(caller: Caller): Step<F> {
    match caller
    case LoopThread => SelfWake
    case Other(t) => Wake(t)
  }

  /** Between the two, other threads may run; the first functor queued stays where it is. */
  lemma CallIsUndisturbed<F>(s: Loop<F>, caller: Caller, f: F, s2: Loop<F>)
    requires Enabled(s, PushOf(caller, f)) && Undisturbed(Next(s, PushOf(caller, f)), s2, caller)
    ensures Enabled(s2, WakeOf(caller)) && Undisturbed(s, Next(s2, WakeOf(caller)), caller)
    ensures s.pending + [f] <= Next(s2, WakeOf(caller)).pending && s2.calling == s.calling
    ensures Next(s2, WakeOf(caller)).calling == s.calling
  {
  }

  lemma OneScript<F>(scripts: seq<seq<UserOp<F>>>)
    ensures Ops(scripts, 1) == if scripts == [] then [] else scripts[0]
  {
  }

  /** What steps of other threads leave alone. */
  ghost predicate Undisturbed<F>(s: Loop<F>, s': Loop<F>, caller: Caller) {
    && s'.pc == s.pc && s'.calling == s.calling && s'.batch == s.batch && s'.selfPushed == s.selfPushed
    && s'.executed == s.executed && s'.swaps == s.swaps
    && s.pending <= s'.pending && (s.quit ==> s'.quit) && s'.counter >= s.counter
    && (caller.Other? && caller.t in s.pushers ==> caller.t in s'.pushers)
    && (caller.Other? && caller.t in s.quitters ==> caller.t in s'.quitters)
  }

  class EventLoop<F(==)> {
    var quit: bool
    var calling: bool        // callingPendingFunctors_
    var pending: seq<F>      // pendingFunctors_
    var counter: nat         // of the eventfd
    // The rest of the world: which threads owe a write, and what other threads and user code will do.
    var pushers: set<int>
    var quitters: set<int>
    var others: seq<seq<Step<F>>>
    var scripts: seq<seq<UserOp<F>>>
    ghost var trace: seq<Step<F>>
    ghost var state: Loop<F>
    ghost var polls: seq<Poll>
    ghost var own: seq<UserOp<F>>   // what user code on the loop thread has done

    ghost predicate Valid()
      reads this
    {
      && Legal(Created<F>(), trace) && state == Run(Created<F>(), trace)
      && state.quit == quit && state.calling == calling && state.pending == pending && state.counter == counter
      && state.pushers == pushers && state.quitters == quitters
    }

    constructor (others: seq<seq<Step<F>>>, scripts: seq<seq<UserOp<F>>>)
      ensures Valid() && state == Created<F>() && polls == [] && own == []
      ensures this.others == others && this.scripts == scripts
    {
      quit, calling, pending, counter := false, false, [], 0;
      pushers, quitters := {}, {};
      this.others, this.scripts := others, scripts;
      trace, state, polls, own := [], Created<F>(), [], [];
    }

    /** Record a step of the protocol. */
    ghost method Take(step: Step<F>)
      requires Legal(Created<F>(), trace) && state == Run(Created<F>(), trace) && Enabled(state, step)
      modifies this`trace, this`state, this`polls, this`own
      ensures Legal(Created<F>(), trace) && state == Run(Created<F>(), trace)
      ensures state == Next(old(state), step) && trace == old(trace) + [step]
      ensures polls == old(polls) + PollOf(old(state), step) && own == old(own) + OpOf(step)
    {
      RunSnoc(Created<F>(), trace, step);
      polls, own := polls + PollOf(state, step), own + OpOf(step);
      trace, state := trace + [step], Next(state, step);
    }

    /** Other threads run for a while. */
    method Interfere(caller: Caller)
      requires Valid()
      modifies this
      ensures Valid() && Undisturbed(old(state), state, caller) && old(trace) <= trace
      ensures scripts == old(scripts) && polls == old(polls) && own == old(own)
      ensures others == Rest(old(others), 1)
      ensures old(others) != [] ==>
        trace == old(trace) + Interference(old(others)[0], old(pushers), old(quitters), caller)
    {
      hide Legal, Run;
      if others == [] {
        return;
      }
      var steps := others[0];
      others := others[1..];
      ghost var all := trace + Interference(steps, pushers, quitters, caller);
      while steps != []
        invariant Valid() && Undisturbed(old(state), state, caller) && old(trace) <= trace
        invariant scripts == old(scripts) && polls == old(polls) && own == old(own)
        invariant others == old(others)[1..]
        invariant trace + Interference(steps, pushers, quitters, caller) == all
        decreases |steps|
      {
        if CanInterfere(steps[0], pushers, quitters, caller) {
          ghost var before := trace;
          ghost var later := Interference(steps, pushers, quitters, caller)[1..];
          OtherStep(steps[0], caller);
          assert before + ([steps[0]] + later) == (before + [steps[0]]) + later;
        }
        steps := steps[1..];
      }
    }

    method OtherStep(step: Step<F>, caller: Caller)
      requires Valid() && CanInterfere(step, pushers, quitters, caller)
      modifies this`quit, this`pending, this`counter, this`pushers, this`quitters
      modifies this`trace, this`state, this`polls, this`own
      ensures Valid() && Undisturbed(old(state), state, caller) && trace == old(trace) + [step]
      ensures polls == old(polls) && own == old(own)
      ensures match step
        case Push(t, _) => pushers == old(pushers) + {t} && quitters == old(quitters)
        case Wake(t) => pushers == old(pushers) - {t} && quitters == old(quitters)
        case Quit(t) => pushers == old(pushers) && quitters == old(quitters) + {t}
        case QuitWake(t) => pushers == old(pushers) && quitters == old(quitters) - {t}
        case _ => true
    {
      hide Legal, Run;
      Take(step);
      match step {
        case Push(t, f) => pending, pushers := pending + [f], pushers + {t};
        case Wake(t) => counter, pushers := Wakeup(counter), pushers - {t};
        case Quit(t) => quit, quitters := true, quitters + {t};
        case QuitWake(t) => counter, quitters := Wakeup(counter), quitters - {t};
      }
    }

    method QueueInLoop(caller: Caller, f: F)
      requires Valid()
      requires if caller == LoopThread then InUserCode(state.pc) && !state.selfPushed
               else caller.t !in pushers && caller.t !in quitters
      modifies this
      ensures Valid() && old(trace) < trace && scripts == old(scripts)
      ensures Undisturbed(old(state), state, caller) && old(pending) + [f] <= pending
      ensures polls == old(polls) && own == old(own) + if caller == LoopThread then [Queue(f)] else []
      ensures caller.Other? || old(calling) ==> counter > 0
    {
      hide Legal, Run, Undisturbed, Next;
      PushFunctor(caller, f);
      ghost var pushed := state;
      Interfere(caller);
      CallIsUndisturbed(old(state), caller, f, state);
      WakeIfNeeded(caller);
    }

    /** The push, under the lock. */
    method PushFunctor(caller: Caller, f: F)
      requires Valid() && Enabled(state, PushOf(caller, f))
      modifies this`pending, this`pushers, this`trace, this`state, this`polls, this`own
      ensures Valid() && trace == old(trace) + [PushOf(caller, f)] && state == Next(old(state), PushOf(caller, f))
      ensures polls == old(polls) && own == old(own) + if caller == LoopThread then [Queue(f)] else []
      ensures pending == old(pending) + [f]
    {
      hide Legal, Run;
      pending := pending + [f];
      if caller.Other? {
        pushers := pushers + {caller.t};
      }
      Take(PushOf(caller, f));
    }

    /** The write to the eventfd, unless the caller is the loop thread outside a batch. */
    method WakeIfNeeded(caller: Caller)
      requires Valid() && Enabled(state, WakeOf<F>(caller))
      modifies this`counter, this`pushers, this`trace, this`state, this`polls, this`own
      ensures Valid() && trace == old(trace) + [WakeOf(caller)] && state == Next(old(state), WakeOf(caller))
      ensures polls == old(polls) && own == old(own)
      ensures caller.Other? || calling ==> counter > 0
    {
      hide Legal, Run;
      if caller.Other? || calling {
        counter := Wakeup(counter);
      }
      if caller.Other? {
        pushers := pushers - {caller.t};
      }
      Take(WakeOf(caller));
    }

    method Quit(caller: Caller)
      requires Valid()
      requires if caller == LoopThread then InUserCode(state.pc) && !state.selfPushed
               else caller.t !in pushers && caller.t !in quitters
      modifies this
      ensures Valid() && old(trace) < trace && scripts == old(scripts)
      ensures Undisturbed(old(state), state, caller) && quit
      ensures polls == old(polls) && own == old(own) + if caller == LoopThread then [RequestQuit] else []
      ensures caller.Other? ==> counter > 0
    {
      hide Legal, Run;
      quit := true;
      if caller.Other? {
        quitters := quitters + {caller.t};
        Take(Step.Quit(caller.t));
        Interfere(caller);
        counter := Wakeup(counter);
        quitters := quitters - {caller.t};
        Take(QuitWake(caller.t));
      } else {
        Take(SelfQuit);
      }
    }

    /** A handler or a functor: what it does is taken from the script. */
    method UserCode()
      requires Valid() && InUserCode(state.pc) && !state.selfPushed
      modifies this
      ensures Valid() && old(trace) <= trace && Undisturbed(old(state), state, LoopThread)
      ensures polls == old(polls)
      ensures own == old(own) + Ops(old(scripts), 1) && scripts == Rest(old(scripts), 1)
    {
      hide Legal, Run;
      OneScript(scripts);
      if scripts == [] {
        return;
      }
      var ops := scripts[0];
      scripts := scripts[1..];
      while ops != []
        invariant Valid() && old(trace) <= trace && Undisturbed(old(state), state, LoopThread)
        invariant polls == old(polls) && scripts == old(scripts)[1..]
        invariant own + ops == old(own) + old(scripts)[0]
        decreases |ops|
      {
        match ops[0] {
          case Queue(f) => QueueInLoop(LoopThread, f);
          case RequestQuit => Quit(LoopThread);
        }
        Interfere(LoopThread);
        ops := ops[1..];
      }
    }

    /** Runs exactly the functors pending at the swap, in order; those queued meanwhile stay pending. */
    method DoPendingFunctors() returns (functors: seq<F>)
      requires Valid() && state.pc == BeforeCalling && !state.selfPushed
      modifies this
      ensures Valid() && old(trace) <= trace && state.pc == CheckQuit && !state.selfPushed
      ensures old(pending) <= functors && state.executed == old(state.executed) + functors
      ensures polls == old(polls)
      ensures own == old(own) + Ops(old(scripts), |functors|) && scripts == Rest(old(scripts), |functors|)
    {
      hide Legal, Run;
      functors := SwapOut();
      Interfere(LoopThread);
      RunBatch(functors);
      calling := false;
      Take(EndBatch);
      Interfere(LoopThread);
    }

    method SwapOut() returns (functors: seq<F>)
      requires Valid() && state.pc == BeforeCalling && !state.selfPushed
      modifies this
      ensures Valid() && old(trace) <= trace
      ensures state.pc == RunningBatch && !state.selfPushed && pending == []
      ensures old(pending) <= functors == state.batch && state.executed == old(state.executed)
      ensures polls == old(polls) && own == old(own) && scripts == old(scripts)
    {
      hide Legal, Run;
      RaiseFlag();
      functors := SwapPending();
    }

    /** callingPendingFunctors_ is set, and other threads may run. */
    method RaiseFlag()
      requires Valid() && state.pc == BeforeCalling && !state.selfPushed
      modifies this
      ensures Valid() && old(trace) <= trace && state.pc == BeforeSwap && calling && !state.selfPushed
      ensures old(pending) <= pending && state.executed == old(state.executed)
      ensures polls == old(polls) && own == old(own) && scripts == old(scripts)
    {
      hide Legal, Run;
      calling := true;
      Take(SetCalling);
      Interfere(LoopThread);
    }

    method SwapPending() returns (functors: seq<F>)
      requires Valid() && state.pc == BeforeSwap
      modifies this`pending, this`trace, this`state, this`polls, this`own
      ensures Valid() && old(trace) <= trace && pending == []
      ensures functors == old(pending) && state == Next(old(state), Swap)
      ensures polls == old(polls) && own == old(own)
    {
      hide Legal, Run;
      functors := pending;
      pending := [];
      Take(Swap);
    }

    method RunBatch(functors: seq<F>)
      requires Valid() && state.pc == RunningBatch && !state.selfPushed && state.batch == functors
      modifies this
      ensures Valid() && old(trace) <= trace
      ensures state.pc == RunningBatch && !state.selfPushed && state.batch == []
      ensures state.executed == old(state.executed) + functors
      ensures polls == old(polls)
      ensures own == old(own) + Ops(old(scripts), |functors|) && scripts == Rest(old(scripts), |functors|)
    {
      hide Legal, Run;
      var i := 0;
      while i < |functors|
        invariant Valid() && old(trace) <= trace
        invariant state.pc == RunningBatch && !state.selfPushed
        invariant i <= |functors| && state.batch == functors[i..]
        invariant state.executed == old(state.executed) + functors[..i]
        invariant polls == old(polls)
        invariant own == old(own) + Ops(old(scripts), i) && scripts == Rest(old(scripts), i)
      {
        OpsSplit(old(scripts), i, 1);
        RunOneFunctor();
        assert functors[..i] + [functors[i]] == functors[..i + 1];
        i := i + 1;
      }
      assert functors[..i] == functors;
    }

    method RunOneFunctor()
      requires Valid() && state.pc == RunningBatch && !state.selfPushed && state.batch != []
      modifies this
      ensures Valid() && old(trace) <= trace
      ensures state.pc == RunningBatch && !state.selfPushed && state.batch == old(state.batch)[1..]
      ensures state.executed == old(state.executed) + [old(state.batch)[0]]
      ensures polls == old(polls)
      ensures own == old(own) + Ops(old(scripts), 1) && scripts == Rest(old(scripts), 1)
    {
      hide Legal, Run;
      Take(RunNext);
      UserCode();
      Interfere(LoopThread);
    }

    /** handleRead of the wakeup channel; the read succeeds, since the counter is positive. */
    method HandleRead()
      requires Valid() && state.pc == Dispatching(true) && !state.selfPushed
      modifies this`counter, this`trace, this`state, this`polls, this`own
      ensures Valid() && old(trace) <= trace && old(counter) > 0
      ensures polls == old(polls) && own == old(own)
      ensures state == old(state).(pc := Dispatching(false), counter := 0)
    {
      hide Legal, Run;
      RunInv(Created<F>(), trace);
      counter := 0;
      Take(DrainEventfd);
    }

    /** Each poll from number `n` on reported the wakeup channel exactly if that was asked for and the eventfd
        was positive, and whatever had been pushed by then has run. */
    ghost predicate PolledAsAsked(n: nat, asked: seq<(bool, nat, nat)>)
      reads this
    {
      forall i :: n <= i < |polls| && i < n + |asked| ==>
        && polls[i].wake == (asked[i - n].0 && polls[i].ready)
        && polls[i].pushed <= |state.executed|
    }

    /** loop(), for |asked| iterations or until quit_ is found set: each polls once, and the poll reports the
        wakeup channel if that is asked for and the eventfd is positive, with a number of other channels
        before and after it.  Whatever had been pushed at a poll has run when loop() is left. */
    method RunLoop(asked: seq<(bool, nat, nat)>)
      requires Valid() && state.pc == BeforeLoop && !state.selfPushed
      modifies this
      ensures Valid() && old(trace) < trace
      ensures state.pc == Exited || state.pc == CheckQuit
      ensures state.pc == Exited <==> quit
      ensures old(polls) <= polls && |polls| <= |old(polls)| + |asked|
      ensures |polls| < |old(polls)| + |asked| ==> state.pc == Exited
      ensures PolledAsAsked(|old(polls)|, asked)
      ensures |polls| > |old(polls)| ==> old(state.executed) + old(pending) <= state.executed
    {
      hide Legal, Run;
      EnterLoop();
      Iterations(asked);
      if quit {
        Take(Check);
      }
    }

    method EnterLoop()
      requires Valid() && state.pc == BeforeLoop && !state.selfPushed
      modifies this
      ensures Valid() && old(trace) < trace && state.pc == CheckQuit && !state.selfPushed
      ensures polls == old(polls) && own == old(own) && scripts == old(scripts)
      ensures state.executed == old(state.executed) && old(pending) <= pending
    {
      hide Legal, Run;
      quit := false;
      Take(Enter);
      Interfere(LoopThread);
    }

    /** The while loop of loop(). */
    method Iterations(asked: seq<(bool, nat, nat)>)
      requires Valid() && state.pc == CheckQuit && !state.selfPushed
      modifies this
      ensures Valid() && old(trace) <= trace && state.pc == CheckQuit && !state.selfPushed
      ensures old(polls) <= polls && |polls| <= |old(polls)| + |asked|
      ensures |polls| < |old(polls)| + |asked| ==> quit
      ensures PolledAsAsked(|old(polls)|, asked)
      ensures |polls| > |old(polls)| ==> old(state.executed) + old(pending) <= state.executed
    {
      hide Legal, Run, Next;
      var n := 0;
      while n < |asked| && !quit
        invariant Valid() && old(trace) <= trace && state.pc == CheckQuit && !state.selfPushed
        invariant n <= |asked| && old(polls) <= polls && |polls| == |old(polls)| + n
        invariant PolledAsAsked(|old(polls)|, asked)
        invariant n == 0 ==> state.executed == old(state.executed) && pending == old(pending)
        invariant n > 0 ==> old(state.executed) + old(pending) <= state.executed
        decreases |asked| - n
      {
        var functors := Iterate(asked[n].0, asked[n].1, asked[n].2);
        n := n + 1;
      }
    }

    /** One iteration: one poll, the handlers of the channels it reports, and the functors pending then. */
    method Iterate(ready: bool, before: nat, after: nat) returns (functors: seq<F>)
      requires Valid() && state.pc == CheckQuit && !state.selfPushed && !quit
      modifies this
      ensures Valid() && old(trace) <= trace && state.pc == CheckQuit && !state.selfPushed
      ensures |polls| == |old(polls)| + 1 && old(polls) <= polls
      ensures var poll := polls[|old(polls)|];
              poll.wake == (ready && poll.ready) && poll.pushed <= |state.executed|
      ensures state.executed == old(state.executed) + functors && old(pending) <= functors
      ensures own == old(own) + Ops(old(scripts), before + after + |functors|)
      ensures scripts == Rest(old(scripts), before + after + |functors|)
    {
      hide Legal, Run, Next, Ops, Rest;
      var wake := PollOnce(ready);
      Dispatch(wake, before, after);
      functors := DoPendingFunctors();
      OpsSplit(old(scripts), before + after, |functors|);
    }

    /** quit_ is found unset, and one wait returns. */
    method PollOnce(ready: bool) returns (wake: bool)
      requires Valid() && state.pc == CheckQuit && !state.selfPushed && !quit
      modifies this
      ensures Valid() && old(trace) <= trace && state.pc == Dispatching(wake) && !state.selfPushed
      ensures scripts == old(scripts) && own == old(own)
      ensures state.executed == old(state.executed) && old(pending) <= pending
      ensures |polls| == |old(polls)| + 1 && old(polls) <= polls
      ensures var poll := polls[|old(polls)|];
              poll.wake == wake == (ready && poll.ready) && poll.pushed <= |state.executed| + |pending|
    {
      hide Legal, Run;
      Take(Check);
      Interfere(LoopThread);
      wake := ready && counter > 0;
      AtPollNothingRuns();
      Take(PollReturns(wake));
      Interfere(LoopThread);
    }

    /** At the poll everything pushed has run or is pending. */
    lemma AtPollNothingRuns()
      requires Valid() && state.pc == AtPoll
      ensures |state.pushed| == |state.executed| + |pending|
    {
      hide Legal, Run;
      RunInv(Created<F>(), trace);
    }

    /** Handle the active channels, in the order of the report. */
    method Dispatch(wake: bool, before: nat, after: nat)
      requires Valid() && state.pc == Dispatching(wake) && !state.selfPushed
      modifies this
      ensures Valid() && old(trace) <= trace && state.pc == BeforeCalling && !state.selfPushed
      ensures polls == old(polls) && state.executed == old(state.executed) && old(pending) <= pending
      ensures own == old(own) + Ops(old(scripts), before + after) && scripts == Rest(old(scripts), before + after)
    {
      hide Legal, Run, Ops, Rest;
      OpsSplit(scripts, before, after);
      HandleChannels(before);
      if wake {
        HandleRead();
        Interfere(LoopThread);
      }
      HandleChannels(after);
      Take(EndDispatch);
    }

    /** The handlers of some channels that are active. */
    method HandleChannels(n: nat)
      requires Valid() && state.pc.Dispatching? && !state.selfPushed
      modifies this
      ensures Valid() && old(trace) <= trace && state.pc == old(state).pc && !state.selfPushed
      ensures polls == old(polls) && state.executed == old(state.executed) && old(pending) <= pending
      ensures own == old(own) + Ops(old(scripts), n) && scripts == Rest(old(scripts), n)
    {
      hide Legal, Run;
      var i := 0;
      while i < n
        invariant i <= n
        invariant Valid() && old(trace) <= trace && state.pc == old(state).pc && !state.selfPushed
        invariant polls == old(polls) && state.executed == old(state.executed) && old(pending) <= pending
        invariant own == old(own) + Ops(old(scripts), i) && scripts == Rest(old(scripts), i)
      {
        OpsSplit(old(scripts), i, 1);
        UserCode();
        Interfere(LoopThread);
        i := i + 1;
      }
    }
  }
}
