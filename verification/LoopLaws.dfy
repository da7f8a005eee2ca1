/**
 Accounts of the event loop: what goes into the wake-up pipe and what comes out of it, which functors are
 queued and run, and when loop() ends, as totals over the steps of any run.
 */
module LoopLaws {
  import opened EventLoops
  import opened Totals

  //// the pipe ////

  function ReadSteps<F>(steps: seq<Step<F>>): nat
  {
    if steps == [] then 0 else (if steps[0].ReadWakeup? then 1 else 0) + ReadSteps(steps[1..])
  }

  /** Threads between a push, or a quit, and their wakeup(). */
  function Owing<F>(s: State<F>): nat
  {
    Total(One, s.threads) + One(s.ownerMustWake)
  }

  /**
   The calls that have to write a byte: every queueInLoop and quit of another thread, and every queueInLoop
   of the loop's own thread while it runs functors.
   */
  ghost function CallsToWake<F>(s: State<F>, steps: seq<Step<F>>): nat
    requires IsRun(s, steps)
    decreases |steps|
  {
    if steps == [] then 0
    else
      One(steps[0].Pushes? || steps[0].Quits? || (steps[0].OwnerPushes? && s.phase.Running?))
      + CallsToWake(Apply(s, steps[0]), steps[1..])
  }

  /** The polls that return with a byte in the pipe. */
  ghost function PipePolls<F>(s: State<F>, steps: seq<Step<F>>): nat
    requires IsRun(s, steps)
    decreases |steps|
  {
    if steps == [] then 0
    else One(steps[0].PollReturns? && s.pipe > 0) + PipePolls(Apply(s, steps[0]), steps[1..])
  }

  /** What the pipe holds is what was written less what was read. */
  lemma {:induction false} PipeBalance<F>(s: State<F>, steps: seq<Step<F>>)
    requires IsRun(s, steps)
    ensures After(s, steps).pipe + ReadSteps(steps) == s.pipe + WakeSteps(steps)
    decreases |steps|
  {
    if steps != [] {
      PipeBalance(Apply(s, steps[0]), steps[1..]);
    }
  }

  lemma StepOwes<F>(s: State<F>, step: Step<F>)
    requires Enabled(s, step) && (s.calling <==> s.phase.Swapping? || s.phase.Running?)
    ensures Owing(Apply(s, step)) + One(step.OwnerWakes? || step.Wakes?)
         == Owing(s) + One(step.Pushes? || step.Quits? || (step.OwnerPushes? && s.phase.Running?))
  {
    if step.Pushes? || step.Quits? {
      TotalUpdate(One, s.threads, step.t, true);
    } else if step.Wakes? {
      TotalUpdate(One, s.threads, step.t, false);
    }
  }

  /** One byte for every call that has to write one, and no other. */
  lemma {:induction false} OneByteForEachCall<F>(s: State<F>, steps: seq<Step<F>>)
    requires IsRun(s, steps) && (s.calling <==> s.phase.Swapping? || s.phase.Running?)
    ensures Owing(After(s, steps)) + WakeSteps(steps) == Owing(s) + CallsToWake(s, steps)
    decreases |steps|
  {
    if steps != [] {
      StepOwes(s, steps[0]);
      OneByteForEachCall(Apply(s, steps[0]), steps[1..]);
    }
  }

  /** And one poll for every byte. */
  lemma {:induction false} OnePollForEachByte<F>(s: State<F>, steps: seq<Step<F>>)
    requires IsRun(s, steps)
    ensures PipePolls(s, steps) + One(s.phase == Handling(true))
         == ReadSteps(steps) + One(After(s, steps).phase == Handling(true))
    decreases |steps|
  {
    if steps != [] {
      OnePollForEachByte(Apply(s, steps[0]), steps[1..]);
    }
  }

  lemma NobodyOwes<F>(threads: nat)
    ensures Owing<F>(Initial(threads)) == 0
  {
    TotalZero(One, Initial<F>(threads).threads);
  }

  /**
   On every run: the pipe holds one byte for each call that had to wake the loop, less the calls still on the
   way to their wakeup() and the bytes read; and as many polls have returned for the pipe as bytes were read,
   but for one whose byte is about to be read. So no byte ends two polls.
   */
  lemma WakeupAccount<F>(threads: nat, steps: seq<Step<F>>)
    requires IsRun(Initial(threads), steps)
    ensures var start: State<F>, s := Initial(threads), After(Initial(threads), steps);
            && s.pipe + Owing(s) + ReadSteps(steps) == CallsToWake(start, steps)
            && PipePolls(start, steps) == ReadSteps(steps) + One(s.phase == Handling(true))
  {
    NobodyOwes<F>(threads);
    PipeBalance(Initial<F>(threads), steps);
    OneByteForEachCall(Initial<F>(threads), steps);
    OnePollForEachByte(Initial<F>(threads), steps);
  }

  lemma {:induction false} ReadsCompose<F>(first: seq<Step<F>>, second: seq<Step<F>>)
    ensures ReadSteps(first + second) == ReadSteps(first) + ReadSteps(second)
    ensures WaitsForOthers(first + second) <==> WaitsForOthers(first) || WaitsForOthers(second)
  {
    if first == [] {
      assert first + second == second;
    } else {
      assert (first + second)[1..] == first[1..] + second;
      ReadsCompose(first[1..], second);
    }
  }

  /**
   With nobody between push and wakeup, as many wake-ups as there are bytes bring the loop back into a poll
   that blocks, and the first of them runs what is pending.
   */
  lemma {:induction false} Drains<F>(s: State<F>) returns (steps: seq<Step<F>>)
    requires s.phase.Blocked? && Owing(s) == 0 && !s.quit
    ensures IsRun(s, steps) && !WaitsForOthers(steps) && ReadSteps(steps) == s.pipe
    ensures var s' := After(s, steps);
            && s'.phase.Blocked? && s'.pipe == 0 && !Enabled(s', PollReturns(false))
            && s'.executed == s.executed + if s.pipe > 0 then s.pending else []
    decreases s.pipe
  {
    if s.pipe == 0 {
      steps := [];
      assert s.executed + [] == s.executed;
    } else {
      var first := PollToBatch(s);
      var s1 := After(s, first);
      var s2 := Apply(s1, TestQuit);
      var rest := Drains(s2);
      OneMore(s1, TestQuit, rest);
      RunsCompose(s, first, [TestQuit] + rest);
      steps := first + ([TestQuit] + rest);
      PipeBalance(s, first);
      ReadsCompose(first, [TestQuit] + rest);
      assert ([TestQuit] + rest)[1..] == rest;
      assert s.executed + s.pending + [] == s.executed + s.pending;
    }
  }

  //// the functors ////

  function Pushed<F>(steps: seq<Step<F>>): seq<F>
  {
    if steps == [] then []
    else (if steps[0].OwnerPushes? || steps[0].Pushes? then [steps[0].f] else []) + Pushed(steps[1..])
  }

  lemma {:induction false} QueuedIsPushed<F>(s: State<F>, steps: seq<Step<F>>)
    requires IsRun(s, steps)
    ensures After(s, steps).queued == s.queued + Pushed(steps)
    ensures |After(s, steps).executed| == |s.executed| + RunSteps(steps)
    decreases |steps|
  {
    if steps == [] {
      assert s.queued + [] == s.queued;
    } else {
      var s' := Apply(s, steps[0]);
      QueuedIsPushed(s', steps[1..]);
      var first: seq<F> := if steps[0].OwnerPushes? || steps[0].Pushes? then [steps[0].f] else [];
      assert s'.queued == s.queued + first;
      Regroup(s.queued, first, Pushed(steps[1..]));
    }
  }

  lemma {:induction false} RunKeepsConserved<F>(s: State<F>, steps: seq<Step<F>>)
    requires IsRun(s, steps) && Conserved(s) && (s.batch != [] ==> s.phase.Running?)
    ensures Conserved(After(s, steps))
    decreases |steps|
  {
    if steps != [] {
      if steps[0].Swap? {
        MovedToBatch(s.executed, s.pending);
      } else if steps[0].RunNext? {
        MovedToExecuted(s.executed, s.batch, s.pending);
      }
      RunKeepsConserved(Apply(s, steps[0]), steps[1..]);
    }
  }

  lemma SplitsAt<F>(all: seq<F>, first: seq<F>, rest: seq<F>)
    requires all == first + rest
    ensures first == all[..|first|] && rest == all[|first|..]
  {}

  /** On every run the functors run one by one in the order of all pushes, and the rest waits in that order. */
  lemma RunInPushOrder<F>(threads: nat, steps: seq<Step<F>>)
    requires IsRun(Initial(threads), steps)
    ensures var s, all, k := After(Initial(threads), steps), Pushed(steps), RunSteps(steps);
            k <= |all| && s.executed == all[..k] && s.batch + s.pending == all[k..]
  {
    QueuedIsPushed(Initial<F>(threads), steps);
    RunKeepsConserved(Initial<F>(threads), steps);
    var s, all := After(Initial<F>(threads), steps), Pushed(steps);
    assert [] + all == all;
    Regroup(s.executed, s.batch, s.pending);
    SplitsAt(all, s.executed, s.batch + s.pending);
  }

  //// quit ////

  /** What quit_ is after calls of quit() by any thread, and after loop() has cleared it. */
  function QuitAfter<F>(quit: bool, steps: seq<Step<F>>): bool
    decreases |steps|
  {
    if steps == [] then quit
    else
      var next := if steps[0].EnterLoop? then false else quit || steps[0].OwnerQuits? || steps[0].Quits?;
      QuitAfter(next, steps[1..])
  }

  lemma {:induction false} QuitIsRemembered<F>(s: State<F>, steps: seq<Step<F>>)
    requires IsRun(s, steps)
    ensures After(s, steps).quit == QuitAfter(s.quit, steps)
    decreases |steps|
  {
    if steps != [] {
      QuitIsRemembered(Apply(s, steps[0]), steps[1..]);
    }
  }

  /** At the head of its loop, loop() ends if somebody called quit() since it was entered, and else polls. */
  lemma EndsWhenAsked<F>(threads: nat, steps: seq<Step<F>>)
    requires IsRun(Initial(threads), steps) && After(Initial(threads), steps).phase.Entering?
    ensures var next := Apply(After(Initial(threads), steps), TestQuit);
            next.phase == if QuitAfter(false, steps) then Finished else Blocked
  {
    QuitIsRemembered(Initial<F>(threads), steps);
  }
}
