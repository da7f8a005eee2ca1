/**
 muduo's EventLoop: pending_functors_ behind a mutex, and a pipe that other threads write a byte into to
 get the loop thread out of poll. The value State and its steps describe every interleaving of the
 owner thread with any number of other threads: what happens under functors_mutex_ is one step, and a
 thread's wakeup() is a later step than its push. The class at the end is the owner thread's own code.
 */
module EventLoops {

  datatype Phase =
    | BeforeLoop          // loop() has not been called yet
    | Entering            // at the head of the while loop, on the way into poll
    | Blocked             // in poll
    | Handling(wake: bool)  // dispatching; wake: the wake-up channel is listed and not handled yet
    | Swapping            // in doPendingFunctors, before the swap
    | Running             // executing the functors that were swapped out
    | Finished

  datatype State<F> = State(
    phase: Phase,
    pending: seq<F>,
    batch: seq<F>,        // swapped out, not executed yet
    calling: bool,        // calling_pending_functors_
    quit: bool,
    pipe: nat,            // bytes in the wake-up pipe
    ownerMustWake: bool,  // the owner thread is between its push and its wakeup()
    threads: seq<bool>,   // the same for every other thread
    executed: seq<F>,     // every functor started, in order
    queued: seq<F>)       // every functor pushed, in order

  datatype Step<F> =
    | OwnerPushes(f: F)
    | OwnerWakes
    | OwnerQuits
    | Pushes(t: nat, f: F)
    | Quits(t: nat)
    | Wakes(t: nat)
    | EnterLoop
    | TestQuit
    | PollReturns(other: bool)  // other: another channel is ready, or the timeout has passed
    | ReadWakeup
    | StartFunctors
    | Swap
    | RunNext
    | EndFunctors

  /** Where the owner thread can be inside user code, which may call queueInLoop or quit. */
  predicate InUserCode(p: Phase) { p.BeforeLoop? || p.Handling? || p.Running? }

  predicate Enabled<F>(s: State<F>, step: Step<F>)
  {
    match step
    case OwnerPushes(_) => InUserCode(s.phase) && !s.ownerMustWake
    case OwnerWakes => s.ownerMustWake
    case OwnerQuits => InUserCode(s.phase) && !s.ownerMustWake
    case Pushes(t, _) => t < |s.threads| && !s.threads[t]
    case Quits(t) => t < |s.threads| && !s.threads[t]
    case Wakes(t) => t < |s.threads| && s.threads[t]
    case EnterLoop => s.phase.BeforeLoop? && !s.ownerMustWake
    case TestQuit => s.phase.Entering?
    case PollReturns(other) => s.phase.Blocked? && (s.pipe > 0 || other)
    case ReadWakeup => s.phase == Handling(true) && s.pipe > 0  // the read blocks on an empty pipe
    case StartFunctors => s.phase == Handling(false)
    case Swap => s.phase.Swapping?
    case RunNext => s.phase.Running? && !s.ownerMustWake && s.batch != []
    case EndFunctors => s.phase.Running? && !s.ownerMustWake && s.batch == []
  }

  /** The critical section of queueInLoop. */
  function Push<F>(s: State<F>, f: F): State<F>
  {
    s.(pending := s.pending + [f], queued := s.queued + [f])
  }

  function Apply<F>(s: State<F>, step: Step<F>): State<F>
    requires Enabled(s, step)
  {
    match step
    case OwnerPushes(f) => Push(s, f).(ownerMustWake := s.calling)
    case OwnerWakes => s.(ownerMustWake := false, pipe := s.pipe + 1)
    case OwnerQuits => s.(quit := true)
    case Pushes(t, f) => Push(s, f).(threads := s.threads[t := true])
    case Quits(t) => s.(quit := true, threads := s.threads[t := true])
    case Wakes(t) => s.(threads := s.threads[t := false], pipe := s.pipe + 1)
    case EnterLoop => s.(phase := Entering, quit := false)
    case TestQuit => s.(phase := if s.quit then Finished else Blocked)
    case PollReturns(_) => s.(phase := Handling(s.pipe > 0))
    case ReadWakeup => s.(phase := Handling(false), pipe := s.pipe - 1)
    case StartFunctors => s.(phase := Swapping, calling := true)
    case Swap => s.(phase := Running, batch := s.pending, pending := [])
    case RunNext => s.(batch := s.batch[1..], executed := s.executed + [s.batch[0]])
    case EndFunctors => s.(phase := Entering, calling := false)
  }

  ghost predicate IsRun<F>(s: State<F>, steps: seq<Step<F>>)
    decreases |steps|
  {
    steps == [] || (Enabled(s, steps[0]) && IsRun(Apply(s, steps[0]), steps[1..]))
  }

  ghost function After<F>(s: State<F>, steps: seq<Step<F>>): State<F>
    requires IsRun(s, steps)
    decreases |steps|
  {
    if steps == [] then s else After(Apply(s, steps[0]), steps[1..])
  }

  function Initial<F>(threads: nat): State<F>
  {
    State(BeforeLoop, [], [], false, false, 0, false, seq(threads, _ => false), [], [])
  }

  /** Some poll returns for another reason than the wake-up pipe. */
  predicate WaitsForOthers<F>(steps: seq<Step<F>>)
  {
    steps != [] && (steps[0] == PollReturns(true) || WaitsForOthers(steps[1..]))
  }

  function WakeSteps<F>(steps: seq<Step<F>>): nat
  {
    if steps == [] then 0 else (if steps[0].OwnerWakes? || steps[0].Wakes? then 1 else 0) + WakeSteps(steps[1..])
  }

  lemma OneMore<F>(s: State<F>, step: Step<F>, rest: seq<Step<F>>)
    requires Enabled(s, step) && IsRun(Apply(s, step), rest)
    ensures IsRun(s, [step] + rest) && After(s, [step] + rest) == After(Apply(s, step), rest)
    ensures WaitsForOthers([step] + rest) <==> step == PollReturns(true) || WaitsForOthers(rest)
    ensures WakeSteps([step] + rest) == (if step.OwnerWakes? || step.Wakes? then 1 else 0) + WakeSteps(rest)
  {
    assert ([step] + rest)[1..] == rest;
  }

  lemma {:induction false} RunsCompose<F>(s: State<F>, first: seq<Step<F>>, second: seq<Step<F>>)
    requires IsRun(s, first) && IsRun(After(s, first), second)
    ensures IsRun(s, first + second) && After(s, first + second) == After(After(s, first), second)
    decreases |first|
  {
    if first == [] {
      assert first + second == second;
    } else {
      assert (first + second)[1..] == first[1..] + second;
      RunsCompose(Apply(s, first[0]), first[1..], second);
    }
  }

  //// no lost wake-up ////

  /** Poll returns at once, or a thread is about to write a byte that makes it return. */
  ghost predicate WakeupComing<F>(s: State<F>)
  {
    s.pipe > 0 || s.ownerMustWake || exists t :: 0 <= t < |s.threads| && s.threads[t]
  }

  /** Every functor ever queued is executed, in the current batch, or pending: once, and in order. */
  ghost predicate Conserved<F>(s: State<F>)
  {
    s.executed + s.batch + s.pending == s.queued
  }

  ghost predicate Inv<F>(s: State<F>)
  {
    && Conserved(s)
    && (s.calling <==> s.phase.Swapping? || s.phase.Running?)
    && (s.batch != [] ==> s.phase.Running?)
    && (s.ownerMustWake ==> s.phase.Running?)
    && (s.phase.Entering? || s.phase.Blocked? || s.phase.Running? ==> s.pending != [] ==> WakeupComing(s))
    && (s.phase.Blocked? && s.quit ==> WakeupComing(s))
    && (s.phase == Handling(true) ==> s.pipe > 0)
  }

  lemma MovedToBatch<F>(executed: seq<F>, pending: seq<F>)
    ensures executed + [] + pending == executed + pending + []
  {}

  lemma Regroup<F>(a: seq<F>, b: seq<F>, c: seq<F>)
    ensures a + b + c == a + (b + c)
  {}

  lemma MovedToExecuted<F>(executed: seq<F>, batch: seq<F>, pending: seq<F>)
    requires batch != []
    ensures executed + [batch[0]] + batch[1..] + pending == executed + batch + pending
  {}

  lemma StepKeepsInv<F>(s: State<F>, step: Step<F>)
    requires Inv(s) && Enabled(s, step)
    requires step.EnterLoop? ==> s.pending == [] || WakeupComing(s)
    ensures Inv(Apply(s, step))
  {
    var s' := Apply(s, step);
    match step
    case Pushes(t, f) => assert s'.threads[t];
    case Quits(t) => assert s'.threads[t];
    case Swap => MovedToBatch(s.executed, s.pending);
    case RunNext => MovedToExecuted(s.executed, s.batch, s.pending);
    case _ =>
  }

  /** The owner thread pushes nothing before loop(), where no wakeup() would follow the push. */
  ghost predicate QueuesOnlyInLoop<F>(s: State<F>, steps: seq<Step<F>>)
    requires IsRun(s, steps)
    decreases |steps|
  {
    steps == [] ||
    ((steps[0].OwnerPushes? ==> !s.phase.BeforeLoop?) && QueuesOnlyInLoop(Apply(s, steps[0]), steps[1..]))
  }

  /** Nothing would be lost if loop() were entered now. */
  ghost predicate Unstarted<F>(s: State<F>)
  {
    s.phase.BeforeLoop? ==> s.pending == [] || WakeupComing(s)
  }

  lemma {:induction false} RunKeepsInv<F>(s: State<F>, steps: seq<Step<F>>)
    requires Inv(s) && Unstarted(s) && IsRun(s, steps) && QueuesOnlyInLoop(s, steps)
    ensures Inv(After(s, steps)) && Unstarted(After(s, steps))
    decreases |steps|
  {
    if steps != [] {
      StepKeepsInv(s, steps[0]);
      var s' := Apply(s, steps[0]);
      if steps[0].Pushes? || steps[0].Quits? {
        assert s'.threads[steps[0].t];
      }
      RunKeepsInv(s', steps[1..]);
    }
  }

  /**
   On every run in which the owner thread queues only from inside loop(): whenever the loop thread is
   on its way into poll or in poll with something pending, a wake-up is coming; a quit() is not missed
   either; handleRead never finds the pipe empty, where it would block; and what was queued is what was
   executed, what is left of the batch, and what is pending.
   */
  lemma NoLostWakeup<F>(threads: nat, steps: seq<Step<F>>)
    requires IsRun(Initial(threads), steps) && QueuesOnlyInLoop(Initial(threads), steps)
    ensures var s := After(Initial(threads), steps);
            && ((s.phase.Entering? || s.phase.Blocked?) && s.pending != [] ==> WakeupComing(s))
            && (s.phase.Blocked? && s.quit ==> WakeupComing(s))
            && (s.phase == Handling(true) ==> s.pipe > 0)
            && s.executed + s.batch + s.pending == s.queued
  {
    RunKeepsInv(Initial<F>(threads), steps);
  }

  //// before loop() ////

  predicate FromElsewhere<F>(steps: seq<Step<F>>)
  {
    steps != [] && (steps[0].Pushes? || steps[0].Quits? || FromElsewhere(steps[1..]))
  }

  predicate FromOwner<F>(steps: seq<Step<F>>)
  {
    steps != [] && (steps[0].OwnerPushes? || FromOwner(steps[1..]))
  }

  lemma {:induction false} NeverBeforeLoopAgain<F>(s: State<F>, steps: seq<Step<F>>)
    requires IsRun(s, steps) && !s.phase.BeforeLoop?
    ensures !After(s, steps).phase.BeforeLoop?
    decreases |steps|
  {
    if steps != [] {
      NeverBeforeLoopAgain(Apply(s, steps[0]), steps[1..]);
    }
  }

  lemma {:induction false} BeforeLoopWakes<F>(s: State<F>, steps: seq<Step<F>>)
    requires IsRun(s, steps) && s.phase.BeforeLoop? && After(s, steps).phase.BeforeLoop?
    requires !s.calling && !s.ownerMustWake
    ensures WakeupComing(After(s, steps)) <==> WakeupComing(s) || FromElsewhere(steps)
    ensures After(s, steps).pending != [] ==> s.pending != [] || FromOwner(steps) || FromElsewhere(steps)
    ensures s.pending != [] || FromOwner(steps) ==> After(s, steps).pending != []
    ensures !After(s, steps).ownerMustWake
    decreases |steps|
  {
    if steps != [] {
      var s' := Apply(s, steps[0]);
      if !s'.phase.BeforeLoop? {
        NeverBeforeLoopAgain(s', steps[1..]);
      }
      if steps[0].Pushes? || steps[0].Quits? {
        assert s'.threads[steps[0].t];
      }
      assert steps[0].OwnerPushes? || steps[0].OwnerQuits? ==> s'.threads == s.threads && s'.pipe == s.pipe;
      BeforeLoopWakes(s', steps[1..]);
    }
  }

  /**
   Entered after any use of the loop object, loop() blocks in poll with functors pending and no wake-up
   coming exactly when the owner thread queued something before loop() and no other thread called
   queueInLoop or quit before it.
   */
  lemma LostExactlyWhen<F>(threads: nat, steps: seq<Step<F>>)
    requires IsRun(Initial(threads), steps) && After(Initial(threads), steps).phase.BeforeLoop?
    ensures var s := After(Initial(threads), steps);
            && IsRun(s, [EnterLoop, TestQuit])
            && (var blocked := After(s, [EnterLoop, TestQuit]);
                && blocked.phase.Blocked?
                && (blocked.pending != [] && !WakeupComing(blocked) <==>
                    FromOwner(steps) && !FromElsewhere(steps)))
  {
    var start: State<F> := Initial(threads);
    BeforeLoopWakes(start, steps);
    var s := After(start, steps);
    var entered := Apply(s, EnterLoop);
    var test: seq<Step<F>> := [TestQuit];
    OneMore(entered, TestQuit, []);
    OneMore(s, EnterLoop, test);
    assert test + [] == test && [EnterLoop, TestQuit] == [EnterLoop] + test;
    var blocked := After(s, [EnterLoop, TestQuit]);
    assert blocked == Apply(entered, TestQuit);
    assert blocked.threads == s.threads && blocked.pipe == s.pipe;
  }

  /** The shortest such run: one functor queued by the owner thread, then loop(). */
  lemma LostOnce<F>(f: F)
    ensures var steps := [OwnerPushes(f), EnterLoop, TestQuit];
            && IsRun(Initial(0), steps)
            && (var s := After(Initial(0), steps); s.phase.Blocked? && s.pending == [f] && !WakeupComing(s))
  {
    var pushed := Apply(Initial(0), OwnerPushes(f));
    var entered := Apply(pushed, EnterLoop);
    var test: seq<Step<F>> := [TestQuit];
    OneMore(entered, TestQuit, []);
    OneMore(pushed, EnterLoop, test);
    OneMore(Initial(0), OwnerPushes(f), [EnterLoop, TestQuit]);
    assert test + [] == test && [EnterLoop, TestQuit] == [EnterLoop] + test;
    assert [OwnerPushes(f), EnterLoop, TestQuit] == [OwnerPushes(f)] + [EnterLoop, TestQuit];
  }

  //// one batch ////

  /** From the swap to the end of the batch nothing but the batch runs, each functor of it once. */
  lemma {:induction false} BatchIsWhatWasPending<F>(s: State<F>, steps: seq<Step<F>>)
    requires IsRun(s, steps) && StaysRunning(s, steps)
    ensures var s' := After(s, steps);
            s'.executed + s'.batch == s.executed + s.batch && |s'.executed| - |s.executed| == RunSteps(steps)
    decreases |steps|
  {
    if steps != [] {
      BatchIsWhatWasPending(Apply(s, steps[0]), steps[1..]);
      if steps[0].RunNext? {
        assert s.batch == [s.batch[0]] + s.batch[1..];
        Regroup(s.executed, [s.batch[0]], s.batch[1..]);
      }
    }
  }

  /** Meanwhile pending only grows, by what is queued meanwhile. */
  lemma {:induction false} QueuedMeanwhile<F>(s: State<F>, steps: seq<Step<F>>) returns (added: seq<F>)
    requires IsRun(s, steps) && StaysRunning(s, steps)
    ensures After(s, steps).pending == s.pending + added && After(s, steps).queued == s.queued + added
    decreases |steps|
  {
    if steps == [] {
      added := [];
    } else {
      var rest := QueuedMeanwhile(Apply(s, steps[0]), steps[1..]);
      if steps[0].OwnerPushes? || steps[0].Pushes? {
        added := [steps[0].f] + rest;
        Regroup(s.pending, [steps[0].f], rest);
        Regroup(s.queued, [steps[0].f], rest);
      } else {
        added := rest;
      }
    }
  }

  /** Every step is taken while the batch runs; the last one may end it. */
  ghost predicate StaysRunning<F>(s: State<F>, steps: seq<Step<F>>)
    requires IsRun(s, steps)
    decreases |steps|
  {
    steps == [] || (s.phase.Running? && StaysRunning(Apply(s, steps[0]), steps[1..]))
  }

  function RunSteps<F>(steps: seq<Step<F>>): nat
  {
    if steps == [] then 0 else (if steps[0].RunNext? then 1 else 0) + RunSteps(steps[1..])
  }

  /**
   One doPendingFunctors, whatever the functors and the other threads queue meanwhile: it executes
   exactly what was pending at the swap, and everything queued since is pending when it returns.
   */
  lemma OneBatch<F>(s: State<F>, steps: seq<Step<F>>)
    requires Inv(s) && s.phase.Swapping? && IsRun(Apply(s, Swap), steps)
    requires StaysRunning(Apply(s, Swap), steps) && After(Apply(s, Swap), steps).phase.Entering?
    ensures var s' := After(Apply(s, Swap), steps);
            && s'.executed == s.executed + s.pending
            && RunSteps(steps) == |s.pending|
            && s'.queued == s.queued + s'.pending
  {
    BatchIsWhatWasPending(Apply(s, Swap), steps);
    BatchEndsEmpty(Apply(s, Swap), steps);
    var added := QueuedMeanwhile(Apply(s, Swap), steps);
    assert [] + added == added;
  }

  lemma {:induction false} BatchEndsEmpty<F>(s: State<F>, steps: seq<Step<F>>)
    requires IsRun(s, steps) && StaysRunning(s, steps)
    requires s.phase.Running? || s.batch == []
    ensures After(s, steps).phase.Running? || After(s, steps).batch == []
    decreases |steps|
  {
    if steps != [] {
      BatchEndsEmpty(Apply(s, steps[0]), steps[1..]);
    }
  }

  //// delivery ////

  lemma {:induction false} BatchCanFinish<F>(s: State<F>) returns (steps: seq<Step<F>>)
    requires s.phase.Running? && !s.ownerMustWake
    ensures IsRun(s, steps) && !WaitsForOthers(steps) && WakeSteps(steps) == 0
    ensures After(s, steps) == s.(phase := Entering, calling := false, batch := [], executed := s.executed + s.batch)
    decreases |s.batch|
  {
    if s.batch == [] {
      steps := [EndFunctors];
      OneMore(s, EndFunctors, []);
      assert [EndFunctors] + [] == steps && s.executed + [] == s.executed;
    } else {
      var rest := BatchCanFinish(Apply(s, RunNext));
      steps := [RunNext] + rest;
      OneMore(s, RunNext, rest);
      assert s.executed + [s.batch[0]] + s.batch[1..] == s.executed + s.batch;
    }
  }

  lemma PollToBatch<F>(s: State<F>) returns (steps: seq<Step<F>>)
    requires s.phase.Blocked? && s.pipe > 0 && !s.ownerMustWake
    ensures IsRun(s, steps) && !WaitsForOthers(steps) && WakeSteps(steps) == 0
    ensures After(s, steps) == s.(phase := Entering, calling := false, pipe := s.pipe - 1, batch := [], pending := [],
                                  executed := s.executed + s.pending)
  {
    var s1 := Apply(s, PollReturns(false));
    var s2 := Apply(s1, ReadWakeup);
    var s3 := Apply(s2, StartFunctors);
    var s4 := Apply(s3, Swap);
    steps := BatchCanFinish(s4);
    OneMore(s3, Swap, steps);
    steps := [Swap] + steps;
    OneMore(s2, StartFunctors, steps);
    steps := [StartFunctors] + steps;
    OneMore(s1, ReadWakeup, steps);
    steps := [ReadWakeup] + steps;
    OneMore(s, PollReturns(false), steps);
    steps := [PollReturns(false)] + steps;
  }

  /**
   A loop blocked in poll with functors pending executes them all without the timeout and without any
   other channel becoming ready: at most one thread still has to make the wakeup() it is about to make.
   */
  lemma Delivers<F>(s: State<F>) returns (steps: seq<Step<F>>)
    requires Inv(s) && s.phase.Blocked? && s.pending != []
    ensures IsRun(s, steps) && !WaitsForOthers(steps) && WakeSteps(steps) == (if s.pipe > 0 then 0 else 1)
    ensures After(s, steps).phase.Entering? && After(s, steps).executed == s.executed + s.pending
  {
    if s.pipe > 0 {
      steps := PollToBatch(s);
    } else {
      var t: nat :| t < |s.threads| && s.threads[t];
      steps := PollToBatch(Apply(s, Wakes(t)));
      OneMore(s, Wakes(t), steps);
      steps := [Wakes(t)] + steps;
    }
  }

  //// the owner thread's code ////

  /** queueInLoop called by the owner thread, to its end. */
  function OwnerQueues<F>(s: State<F>, f: F): State<F>
    requires Enabled(s, OwnerPushes(f))
  {
    var s' := Apply(s, OwnerPushes(f));
    if s'.ownerMustWake then Apply(s', OwnerWakes) else s'
  }

  function OwnerQueuesAll<F>(s: State<F>, fs: seq<F>): (s': State<F>)
    requires InUserCode(s.phase) && !s.ownerMustWake
    ensures InUserCode(s'.phase) && !s'.ownerMustWake
    ensures s' == s.(pending := s.pending + fs, queued := s.queued + fs, pipe := s.pipe + if s.calling then |fs| else 0)
    decreases |fs|
  {
    if fs == [] then s else OwnerQueuesAll(OwnerQueues(s, fs[0]), fs[1..])
  }

  /** The batch loop of doPendingFunctors, each functor queueing what it queues. */
  function RunBatch<F>(s: State<F>, effect: F -> seq<F>): (s': State<F>)
    requires s.phase.Running? && !s.ownerMustWake
    ensures s'.phase.Running? && !s'.ownerMustWake && s'.batch == []
    decreases |s.batch|
  {
    if s.batch == [] then s
    else RunBatch(OwnerQueuesAll(Apply(s, RunNext), effect(s.batch[0])), effect)
  }

  function DoPending<F>(s: State<F>, effect: F -> seq<F>): State<F>
    requires s.phase == Handling(false) && !s.ownerMustWake
  {
    Apply(RunBatch(Apply(Apply(s, StartFunctors), Swap), effect), EndFunctors)
  }

  lemma DoPendingUnfolds<F>(s: State<F>, effect: F -> seq<F>)
    requires s.phase == Handling(false) && !s.ownerMustWake
    ensures var swapped := s.(phase := Running, calling := true, batch := s.pending, pending := []);
            DoPending(s, effect) == RunBatch(swapped, effect).(phase := Entering, calling := false)
  {}

  /** What a list of functors queues, in the order in which they run. */
  function Requeued<F>(effect: F -> seq<F>, fs: seq<F>): seq<F>
  {
    if fs == [] then [] else effect(fs[0]) + Requeued(effect, fs[1..])
  }

  /** The next functor of the batch is being executed. */
  function Started<F>(s: State<F>): State<F>
    requires s.batch != []
  {
    s.(batch := s.batch[1..], executed := s.executed + [s.batch[0]])
  }

  lemma RunBatchUnfolds<F>(s: State<F>, effect: F -> seq<F>)
    requires s.phase.Running? && !s.ownerMustWake
    ensures RunBatch(s, effect)
            == if s.batch == [] then s
               else RunBatch(OwnerQueuesAll(Started(s), effect(s.batch[0])), effect)
  {}

  lemma {:induction false} RunBatchRuns<F>(s: State<F>, effect: F -> seq<F>)
    requires s.phase.Running? && !s.ownerMustWake && s.calling
    ensures var s' := RunBatch(s, effect);
            var requeued := Requeued(effect, s.batch);
            s' == s.(batch := [], executed := s.executed + s.batch, pending := s.pending + requeued,
                     queued := s.queued + requeued, pipe := s.pipe + |requeued|)
    decreases |s.batch|
  {
    if s.batch == [] {
      assert s.executed + s.batch == s.executed;
      assert s.pending + [] == s.pending && s.queued + [] == s.queued;
    } else {
      hide OwnerQueuesAll;
      var first := effect(s.batch[0]);
      var rest := Requeued(effect, s.batch[1..]);
      RunBatchRuns(OwnerQueuesAll(Apply(s, RunNext), first), effect);
      Regroup(s.executed, [s.batch[0]], s.batch[1..]);
      assert [s.batch[0]] + s.batch[1..] == s.batch;
      Regroup(s.pending, first, rest);
      Regroup(s.queued, first, rest);
    }
  }

  /**
   A doPendingFunctors that no other thread disturbs: it runs what was pending and leaves pending what
   those functors queued, with one byte in the pipe for each, even if every functor queues itself again.
   */
  lemma DoPendingRuns<F>(s: State<F>, effect: F -> seq<F>)
    requires s.phase == Handling(false) && !s.ownerMustWake && s.batch == []
    ensures var s' := DoPending(s, effect);
            && s'.executed == s.executed + s.pending
            && s'.pending == Requeued(effect, s.pending)
            && s'.queued == s.queued + s'.pending
            && s'.pipe == s.pipe + |s'.pending|
            && s'.phase.Entering?
  {
    hide RunBatch, Requeued;
    RunBatchRuns(Apply(Apply(s, StartFunctors), Swap), effect);
    assert [] + Requeued(effect, s.pending) == Requeued(effect, s.pending);
  }

  /** queueInLoop by the owner thread is a run of the step system. */
  lemma {:induction false} OwnerQueuesAllIsRun<F>(s: State<F>, fs: seq<F>) returns (steps: seq<Step<F>>)
    requires InUserCode(s.phase) && !s.ownerMustWake
    ensures IsRun(s, steps) && After(s, steps) == OwnerQueuesAll(s, fs)
    decreases |fs|
  {
    if fs == [] {
      steps := [];
    } else {
      var rest := OwnerQueuesAllIsRun(OwnerQueues(s, fs[0]), fs[1..]);
      var pushed := Apply(s, OwnerPushes(fs[0]));
      if pushed.ownerMustWake {
        OneMore(pushed, OwnerWakes, rest);
        rest := [OwnerWakes] + rest;
      }
      OneMore(s, OwnerPushes(fs[0]), rest);
      steps := [OwnerPushes(fs[0])] + rest;
    }
  }

  lemma {:induction false} RunBatchIsRun<F>(s: State<F>, effect: F -> seq<F>) returns (steps: seq<Step<F>>)
    requires s.phase.Running? && !s.ownerMustWake
    ensures IsRun(s, steps) && After(s, steps) == RunBatch(s, effect)
    decreases |s.batch|
  {
    if s.batch == [] {
      steps := [];
    } else {
      var started := Apply(s, RunNext);
      var queues := OwnerQueuesAllIsRun(started, effect(s.batch[0]));
      var rest := RunBatchIsRun(OwnerQueuesAll(started, effect(s.batch[0])), effect);
      RunsCompose(started, queues, rest);
      OneMore(s, RunNext, queues + rest);
      steps := [RunNext] + (queues + rest);
    }
  }

  /** The sequential doPendingFunctors is one of the interleavings of the step system. */
  lemma DoPendingIsRun<F>(s: State<F>, effect: F -> seq<F>) returns (steps: seq<Step<F>>)
    requires s.phase == Handling(false) && !s.ownerMustWake
    ensures IsRun(s, steps) && After(s, steps) == DoPending(s, effect)
  {
    var started := Apply(s, StartFunctors);
    var swapped := Apply(started, Swap);
    var body := RunBatchIsRun(swapped, effect);
    var end: seq<Step<F>> := [EndFunctors];
    OneMore(RunBatch(swapped, effect), EndFunctors, []);
    assert end + [] == end;
    RunsCompose(swapped, body, end);
    OneMore(started, Swap, body + end);
    OneMore(s, StartFunctors, [Swap] + (body + end));
    steps := [StartFunctors] + ([Swap] + (body + end));
  }

  class EventLoop<F> {
    var pending: seq<F>
    var calling: bool
    var quit: bool
    var pipe: nat
    ghost var phase: Phase
    ghost var batch: seq<F>
    ghost var executed: seq<F>
    ghost var queued: seq<F>
    ghost var ranAtOnce: seq<F>  // functors that runInLoop has called directly

    constructor ()
      ensures View() == Initial(0) && ranAtOnce == []
    {
      pending, calling, quit, pipe := [], false, false, 0;
      phase, batch, executed, queued, ranAtOnce := BeforeLoop, [], [], [], [];
    }

    ghost function View(): State<F>
      reads this
    {
      State(phase, pending, batch, calling, quit, pipe, false, [], executed, queued)
    }

    method Wakeup()
      modifies this`pipe
      ensures pipe == old(pipe) + 1
    {
      pipe := pipe + 1;
    }

    method HandleRead()
      requires Enabled(View(), ReadWakeup)
      modifies this`pipe, this`phase
      ensures View() == Apply(old(View()), ReadWakeup) && pipe == old(pipe) - 1
    {
      pipe := pipe - 1;
      phase := Handling(false);
    }

    /** The caller is the loop's own thread or another one, whose steps are the push and then the byte. */
    method QueueInLoop(f: F, inLoopThread: bool)
      requires inLoopThread ==> InUserCode(phase)
      modifies this`pending, this`pipe, this`queued
      ensures inLoopThread ==> View() == OwnerQueues(old(View()), f)
      ensures !inLoopThread ==> View() == Push(old(View()), f).(pipe := old(pipe) + 1)
    {
      pending := pending + [f];
      queued := queued + [f];
      if !inLoopThread || calling {
        Wakeup();
      }
    }

    /** Another thread's functor is queued; the loop thread's own runs at once, with what it queues. */
    method RunInLoop(f: F, inLoopThread: bool, effect: F -> seq<F>)
      requires inLoopThread ==> InUserCode(phase)
      modifies this`pending, this`pipe, this`queued, this`ranAtOnce
      ensures ranAtOnce == if inLoopThread then old(ranAtOnce) + [f] else old(ranAtOnce)
      ensures inLoopThread ==> View() == OwnerQueuesAll(old(View()), effect(f))
      ensures !inLoopThread ==> View() == Push(old(View()), f).(pipe := old(pipe) + 1)
    {
      if inLoopThread {
        ranAtOnce := ranAtOnce + [f];
        Call(f, effect);
      } else {
        QueueInLoop(f, false);
      }
    }

    /** The functor's own code: it queues effect(f), one after the other. */
    method Call(f: F, effect: F -> seq<F>)
      requires InUserCode(phase)
      modifies this`pending, this`pipe, this`queued
      ensures View() == OwnerQueuesAll(old(View()), effect(f))
    {
      var i := 0;
      assert effect(f)[0..] == effect(f);
      while i < |effect(f)|
        invariant i <= |effect(f)| && InUserCode(phase)
        invariant OwnerQueuesAll(View(), effect(f)[i..]) == OwnerQueuesAll(old(View()), effect(f))
        invariant phase == old(phase) && batch == old(batch) && executed == old(executed) && calling == old(calling)
      {
        assert effect(f)[i..][1..] == effect(f)[i + 1..];
        QueueInLoop(effect(f)[i], true);
        i := i + 1;
      }
    }

    method DoPendingFunctors(effect: F -> seq<F>)
      requires phase == Handling(false) && batch == []
      modifies this
      ensures View() == DoPending(old(View()), effect) && ranAtOnce == old(ranAtOnce)
    {
      hide OwnerQueuesAll, RunBatch, DoPending, Apply, Enabled;
      ghost var before := View();
      DoPendingUnfolds(before, effect);
      var tmp: seq<F> := [];
      calling := true;
      phase := Swapping;
      tmp, pending := pending, tmp;
      batch, phase := tmp, Running;
      ghost var swapped := View();
      assert swapped == before.(phase := Running, calling := true, batch := before.pending, pending := []);
      var i := 0;
      while i < |tmp|
        invariant i <= |tmp| && phase.Running? && batch == tmp[i..]
        invariant RunBatch(View(), effect) == RunBatch(swapped, effect) && ranAtOnce == old(ranAtOnce)
      {
        ghost var here := View();
        RunBatchUnfolds(here, effect);
        batch, executed := batch[1..], executed + [tmp[i]];
        ghost var started := View();
        assert started == Started(here);
        Call(tmp[i], effect);
        assert View() == OwnerQueuesAll(started, effect(tmp[i]));
        i := i + 1;
      }
      RunBatchUnfolds(View(), effect);
      ghost var ran := View();
      assert ran == RunBatch(swapped, effect);
      calling := false;
      phase := Entering;
      assert View() == ran.(phase := Entering, calling := false);
    }
  }
}
