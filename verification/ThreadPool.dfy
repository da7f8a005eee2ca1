/**
 spdlog's thread_pool while its destructor runs: the destructor posts one terminate message per worker
 with the blocking policy and then joins the workers in order. The workers and the destructor are the
 callers of one BlockingQueue; nobody else posts any more. The start may be any state of the queue and
 of the workers in which no terminate message exists yet.
 */
module ThreadPool {
  import opened BlockingQueue
  import opened Totals

  datatype Msg = Log(id: nat) | Flush(id: nat) | Terminate

  datatype Worker =
    | InLoop                // in process_next_msg_, up to the return of dequeue_for
    | Handling(msg: Msg)    // in backend_sink_it_ or backend_flush_
    | Exited

  datatype Destructor = Posting(sent: nat) | Joining(joined: nat)

  datatype Pool = Pool(
    queue: State<Msg>,      // its only producer is the destructor, its consumers are the workers
    workers: seq<Worker>,
    destructor: Destructor,
    finished: seq<Msg>)

  datatype PoolStep = OnQueue(step: Step<Msg>) | Finish(w: nat) | Join

  predicate Done(s: Pool) { s.destructor == Joining(|s.workers|) }

  predicate Permitted(s: Pool, step: PoolStep)
  {
    match step
    case OnQueue(q) =>
      && Enabled(s.queue, q)
      && (match q
          case Enqueue(_, item) => item == Terminate && s.destructor.Posting?
          case EnqueueNowait(_, _) => false
          case Dequeue(c) => c < |s.workers| && s.workers[c].InLoop?
          case NotifyPop(c, _) => c < |s.workers|
          case _ => true)
    case Finish(w) => w < |s.workers| && s.workers[w].Handling?
    case Join =>
      s.destructor.Joining? && s.destructor.joined < |s.workers| && s.workers[s.destructor.joined].Exited?
  }

  /** enqueue has returned to the destructor: the next message, or the joins. */
  function AfterPost(d: Destructor, workers: nat): Destructor
  {
    if d.Posting? && d.sent + 1 < workers then Posting(d.sent + 1) else Joining(0)
  }

  /** dequeue_for has returned true to a worker. */
  function AfterDequeue(msg: Msg): Worker
  {
    if msg.Terminate? then Exited else Handling(msg)
  }

  function Next(s: Pool, step: PoolStep): Pool
    requires Permitted(s, step)
  {
    match step
    case OnQueue(q) =>
      var s' := s.(queue := Apply(s.queue, q));
      if q.NotifyPush? then s'.(destructor := AfterPost(s.destructor, |s.workers|))
      else if q.NotifyPop? then s'.(workers := s.workers[q.c := AfterDequeue(s.queue.consumers[q.c].item)])
      else s'
    case Finish(w) => s.(workers := s.workers[w := InLoop], finished := s.finished + [s.workers[w].msg])
    case Join => s.(destructor := Joining(s.destructor.joined + 1))
  }

  ghost predicate IsPoolRun(s: Pool, steps: seq<PoolStep>)
    decreases |steps|
  {
    steps == [] || (Permitted(s, steps[0]) && IsPoolRun(Next(s, steps[0]), steps[1..]))
  }

  ghost function PoolAfter(s: Pool, steps: seq<PoolStep>): Pool
    requires IsPoolRun(s, steps)
    decreases |steps|
  {
    if steps == [] then s else PoolAfter(Next(s, steps[0]), steps[1..])
  }

  //// what the workers hold ////

  function Popped(m: Msg): Consumer<Msg> -> nat
  {
    c => if c == CNotifying(m) then 1 else 0
  }

  /** A worker that has exited keeps the terminate message that made it exit. */
  function Keeps(m: Msg): Worker -> nat
  {
    w => if w == Handling(m) || (w.Exited? && m.Terminate?) then 1 else 0
  }

  function Held(s: Pool, m: Msg): nat
  {
    Total(Popped(m), s.queue.consumers) + Total(Keeps(m), s.workers)
  }

  function Terminates(n: nat): seq<Msg>
  {
    seq(n, _ => Terminate)
  }

  /** Terminate messages pushed so far. */
  function Pushed(s: Pool): nat
  {
    if s.destructor.Joining? then |s.workers|
    else s.destructor.sent + if s.queue.producers != [] && s.queue.producers[0].PNotifying? then 1 else 0
  }

  //// the invariant ////

  /** The moment the destructor is entered. */
  ghost predicate Start(s: Pool)
  {
    && Shape(s)
    && s.queue.producers == [POutside] && s.destructor == Posting(0)
    && s.finished == [] && s.queue.removed == []
    && Terminate !in s.queue.items && Held(s, Terminate) == 0
  }

  /** Who is where: a worker outside dequeue_for is not a waiter of the queue, and so on. */
  ghost predicate Shape(s: Pool)
  {
    && Inv(s.queue) && s.queue.capacity > 0
    && |s.queue.consumers| == |s.workers| > 0 && |s.queue.producers| == 1
    && (forall c :: 0 <= c < |s.workers| && !s.workers[c].InLoop? ==> s.queue.consumers[c].COutside?)
    && (forall c :: 0 <= c < |s.workers| && s.workers[c].Handling? ==> s.workers[c].msg != Terminate)
    && ValidDestructor(s.destructor, s.queue.producers[0], s.workers)
  }

  ghost predicate ValidDestructor(d: Destructor, p: Producer<Msg>, workers: seq<Worker>)
  {
    match d
    case Posting(sent) =>
      sent < |workers| && (p.PAsleep? || p.PWoken? ==> p.item == Terminate)
    case Joining(joined) =>
      && joined <= |workers| && p.POutside?
      && forall j :: 0 <= j < joined ==> workers[j].Exited?
  }

  /** Messages only move: from the queue to a worker, and from a worker to the finished ones. */
  ghost predicate Conserved(start: Pool, s: Pool, m: Msg)
  {
    multiset(s.queue.removed)[m] + Held(start, m) == multiset(s.finished)[m] + Held(s, m)
  }

  ghost predicate PoolInv(start: Pool, s: Pool)
  {
    && Shape(s) && |s.workers| == |start.workers|
    && s.queue.removed + s.queue.items == start.queue.items + Terminates(Pushed(s))
    && Terminate !in s.finished
    && forall m :: Conserved(start, s, m)
  }

  lemma StartInv(start: Pool)
    requires Start(start)
    ensures PoolInv(start, start)
  {
    hide Total;
    assert start.queue.items + Terminates(0) == start.queue.items;
  }

  //// one queue step at a time ////

  lemma PostKeepsInv(start: Pool, s: Pool, item: Msg)
    requires Start(start) && PoolInv(start, s) && s.destructor.Posting? && item == Terminate
    requires s.queue.producers[0].POutside? || s.queue.producers[0].PWoken?
    ensures PoolInv(start, s.(queue := TryEnqueue(s.queue, 0, item)))
  {
    hide Total, Inv;
    EnqueueKeepsInv(s.queue, 0, item);
    if !Full(s.queue) {
      var k := Pushed(s);
      assert Terminates(k) + [Terminate] == Terminates(k + 1);
      RoomForOne(s.queue, item);
      assert s.queue.removed + (s.queue.items + [Terminate]) == start.queue.items + (Terminates(k) + [Terminate]) by {
        assert s.queue.removed + (s.queue.items + [Terminate]) == (s.queue.removed + s.queue.items) + [Terminate];
      }
    }
    var s' := s.(queue := TryEnqueue(s.queue, 0, item));
    forall m ensures Conserved(start, s', m) {
      assert Conserved(start, s, m);
    }
  }

  lemma RoomForOne(q: State<Msg>, item: Msg)
    requires !Full(q)
    ensures PushItem(q, item) == q.(items := q.items + [item], pushed := q.pushed + [item])
  {}

  lemma TakeKeepsInv(start: Pool, s: Pool, c: nat, timedOut: bool)
    requires Start(start) && PoolInv(start, s) && c < |s.workers| && s.workers[c].InLoop?
    requires s.queue.consumers[c].COutside? || s.queue.consumers[c].CWoken?
    ensures PoolInv(start, s.(queue := TryDequeue(s.queue, c, timedOut)))
  {
    hide Total, Inv;
    DequeueKeepsInv(s.queue, c, timedOut);
    var s' := s.(queue := TryDequeue(s.queue, c, timedOut));
    if s.queue.items != [] {
      assert s.queue.items == [s.queue.items[0]] + s.queue.items[1..];
      assert s.queue.removed + s.queue.items == s.queue.removed + [s.queue.items[0]] + s.queue.items[1..];
    }
    forall m ensures Conserved(start, s', m) {
      assert Conserved(start, s, m);
      TotalUpdate(Popped(m), s.queue.consumers, c, s'.queue.consumers[c]);
    }
  }

  /** notify_one after a push, and the return of enqueue. */
  lemma PostedKeepsInv(start: Pool, s: Pool, target: Option<nat>)
    requires Start(start) && PoolInv(start, s)
    requires Permitted(s, OnQueue(NotifyPush(0, target)))
    ensures PoolInv(start, Next(s, OnQueue(NotifyPush(0, target))))
  {
    hide Total, Inv;
    StepKeepsInv(s.queue, NotifyPush(0, target));
    var s' := Next(s, OnQueue(NotifyPush(0, target)));
    assert Pushed(s') == Pushed(s);
    forall m ensures Conserved(start, s', m) {
      assert Conserved(start, s, m);
      if target.Some? {
        TotalUpdate(Popped(m), s.queue.consumers, target.value, CWoken(false));
      }
    }
  }

  /** notify_one after a pop, and the return of dequeue_for: the message passes to its worker. */
  lemma TakenKeepsInv(start: Pool, s: Pool, c: nat, target: Option<nat>)
    requires Start(start) && PoolInv(start, s)
    requires Permitted(s, OnQueue(NotifyPop(c, target)))
    ensures PoolInv(start, Next(s, OnQueue(NotifyPop(c, target))))
  {
    hide Total, Inv;
    StepKeepsInv(s.queue, NotifyPop(c, target));
    var s' := Next(s, OnQueue(NotifyPop(c, target)));
    assert s.workers[c].InLoop?;
    forall m ensures Conserved(start, s', m) {
      assert Conserved(start, s, m);
      TotalUpdate(Popped(m), s.queue.consumers, c, COutside);
      TotalUpdate(Keeps(m), s.workers, c, s'.workers[c]);
    }
  }

  lemma WakeKeepsInv(start: Pool, s: Pool, q: Step<Msg>)
    requires Start(start) && PoolInv(start, s) && Permitted(s, OnQueue(q))
    requires q.WakeProducer? || q.WakeConsumer?
    ensures PoolInv(start, Next(s, OnQueue(q)))
  {
    hide Total, Inv;
    StepKeepsInv(s.queue, q);
    var s' := Next(s, OnQueue(q));
    forall m ensures Conserved(start, s', m) {
      assert Conserved(start, s, m);
      if q.WakeConsumer? {
        TotalUpdate(Popped(m), s.queue.consumers, q.c, CWoken(q.timedOut));
      }
    }
  }

  lemma FinishKeepsInv(start: Pool, s: Pool, w: nat)
    requires Start(start) && PoolInv(start, s) && Permitted(s, Finish(w))
    ensures PoolInv(start, Next(s, Finish(w)))
  {
    hide Total, Inv;
    var s' := Next(s, Finish(w));
    forall m ensures Conserved(start, s', m) {
      assert Conserved(start, s, m);
      TotalUpdate(Keeps(m), s.workers, w, InLoop);
    }
  }

  lemma PoolStepKeepsInv(start: Pool, s: Pool, step: PoolStep)
    requires Start(start) && PoolInv(start, s) && Permitted(s, step)
    ensures PoolInv(start, Next(s, step))
  {
    hide Total, Inv;
    match step
    case Finish(w) => FinishKeepsInv(start, s, w);
    case Join =>
      var s' := Next(s, step);
      forall m ensures Conserved(start, s', m) {
        assert Conserved(start, s, m);
      }
    case OnQueue(q) =>
      match q
      case Enqueue(p, item) => PostKeepsInv(start, s, item);
      case RetryEnqueue(p) => PostKeepsInv(start, s, s.queue.producers[0].item);
      case NotifyPush(p, target) => PostedKeepsInv(start, s, target);
      case Dequeue(c) => TakeKeepsInv(start, s, c, false);
      case RetryDequeue(c) => TakeKeepsInv(start, s, c, s.queue.consumers[c].timedOut);
      case NotifyPop(c, target) => TakenKeepsInv(start, s, c, target);
      case WakeProducer(p) => WakeKeepsInv(start, s, q);
      case WakeConsumer(c, timedOut) => WakeKeepsInv(start, s, q);
  }

  lemma {:induction false} PoolRunKeepsInv(start: Pool, s: Pool, steps: seq<PoolStep>)
    requires Start(start) && PoolInv(start, s) && IsPoolRun(s, steps)
    ensures PoolInv(start, PoolAfter(s, steps))
    decreases |steps|
  {
    if steps != [] {
      PoolStepKeepsInv(start, s, steps[0]);
      PoolRunKeepsInv(start, Next(s, steps[0]), steps[1..]);
    }
  }

  //// counting terminate messages ////

  function Live(w: Worker): nat { if w.Exited? then 0 else 1 }

  lemma {:induction false} LiveOrExited(workers: seq<Worker>)
    requires forall w :: 0 <= w < |workers| && workers[w].Handling? ==> workers[w].msg != Terminate
    ensures Total(Live, workers) + Total(Keeps(Terminate), workers) == |workers|
  {
    if workers != [] {
      LiveOrExited(workers[1..]);
    }
  }

  lemma {:induction false} CountTerminates(n: nat)
    ensures multiset(Terminates(n))[Terminate] == n
  {
    if n > 0 {
      CountTerminates(n - 1);
      assert Terminates(n) == Terminates(n - 1) + [Terminate];
    }
  }

  /**
   Every terminate message posted is still queued, or held by the worker that popped it, or was the end
   of exactly one worker.
   */
  lemma TerminatesConserved(start: Pool, s: Pool)
    requires Start(start) && PoolInv(start, s)
    ensures multiset(s.queue.items)[Terminate] + Total(Popped(Terminate), s.queue.consumers)
            + |s.workers| - Total(Live, s.workers) == Pushed(s)
  {
    assert Conserved(start, s, Terminate);
    LiveOrExited(s.workers);
    CountTerminates(Pushed(s));
    assert Terminate !in multiset(start.queue.items) && Terminate !in multiset(s.finished);
    calc {
      multiset(s.queue.removed)[Terminate] + multiset(s.queue.items)[Terminate];
      multiset(s.queue.removed + s.queue.items)[Terminate];
      { assert s.queue.removed + s.queue.items == start.queue.items + Terminates(Pushed(s)); }
      multiset(start.queue.items + Terminates(Pushed(s)))[Terminate];
      multiset(start.queue.items)[Terminate] + multiset(Terminates(Pushed(s)))[Terminate];
      Pushed(s);
    }
  }

  /**
   While a terminate message is still to be posted some worker has not exited, so a full queue is
   always going to be drained; and no worker takes the terminate message of another.
   */
  lemma SomeoneStillServes(start: Pool, s: Pool)
    requires Start(start) && PoolInv(start, s) && Pushed(s) < |s.workers|
    ensures exists w :: 0 <= w < |s.workers| && !s.workers[w].Exited?
  {
    TerminatesConserved(start, s);
    var w := TotalWitness(Live, s.workers);
  }

  /** A terminate message leaves the queue only after every message that was queued before it. */
  lemma EarlierMessagesFirst(start: Pool, s: Pool)
    requires Start(start) && PoolInv(start, s)
    ensures Terminate in s.queue.removed ==> start.queue.items <= s.queue.removed
    ensures (exists w :: 0 <= w < |s.workers| && s.workers[w].Exited?) ==> start.queue.items <= s.queue.removed
    ensures Terminate !in s.queue.removed ==> s.queue.removed <= start.queue.items
  {
    var all := start.queue.items + Terminates(Pushed(s));
    assert all == s.queue.removed + s.queue.items;
    assert s.queue.removed == all[..|s.queue.removed|];
    if |s.queue.removed| <= |start.queue.items| {
      assert s.queue.removed == start.queue.items[..|s.queue.removed|];
      if Terminate in s.queue.removed { assert false; }
    } else {
      assert start.queue.items == s.queue.removed[..|start.queue.items|];
      assert s.queue.removed[|start.queue.items|] == Terminate;
    }
    if w: nat :| w < |s.workers| && s.workers[w].Exited? {
      TotalAtLeast(Keeps(Terminate), s.workers, w);
      assert Conserved(start, s, Terminate);
      assert Terminate !in multiset(s.finished);
      assert Terminate in multiset(s.queue.removed);
    }
  }

  //// it finishes ////

  function ProducerWeight(p: Producer<Msg>): nat
  {
    match p
    case POutside => 1
    case PAsleep(_) => 0
    case PWoken(_) => 1
    case PNotifying => 3
  }

  function ConsumerWeight(c: Consumer<Msg>): nat
  {
    match c
    case COutside => 2
    case CAsleep => 0
    case CWoken(timedOut) => if timedOut then 3 else 1
    case CNotifying(_) => 5
  }

  function WorkerWeight(w: Worker): nat { if w.Handling? then 1 else 0 }

  function JoinsLeft(d: Destructor, workers: nat): nat
  {
    if d.Posting? then workers else if d.joined <= workers then workers - d.joined else 0
  }

  function Measure(s: Pool): int
  {
    9 * (|s.workers| - Pushed(s)) + 5 * |s.queue.items| + Total(ProducerWeight, s.queue.producers)
    + Total(ConsumerWeight, s.queue.consumers) + Total(WorkerWeight, s.workers) + JoinsLeft(s.destructor, |s.workers|)
  }

  /** A timeout or a spurious wake-up: the only steps that need not bring the end nearer. */
  predicate IsWake(step: PoolStep)
  {
    step.OnQueue? && (step.step.WakeProducer? || step.step.WakeConsumer?)
  }

  lemma StepLowersMeasure(start: Pool, s: Pool, step: PoolStep)
    requires Start(start) && PoolInv(start, s) && Permitted(s, step)
    ensures Measure(Next(s, step)) <= Measure(s) + (if IsWake(step) then 3 else -1)
  {
    hide Total, Inv, Conserved;
    match step
    case Finish(w) => TotalUpdate(WorkerWeight, s.workers, w, InLoop);
    case Join =>
    case OnQueue(q) =>
      match q
      case Enqueue(p, item) => PostLowersMeasure(start, s, item);
      case RetryEnqueue(p) => PostLowersMeasure(start, s, s.queue.producers[0].item);
      case NotifyPush(p, target) => PostedLowersMeasure(s, target);
      case Dequeue(c) => TakeLowersMeasure(s, c, false);
      case RetryDequeue(c) => TakeLowersMeasure(s, c, s.queue.consumers[c].timedOut);
      case NotifyPop(c, target) => TakenLowersMeasure(s, c, target);
      case WakeProducer(p) => TotalUpdate(ProducerWeight, s.queue.producers, p, PWoken(s.queue.producers[p].item));
      case WakeConsumer(c, timedOut) => TotalUpdate(ConsumerWeight, s.queue.consumers, c, CWoken(timedOut));
  }

  lemma PostLowersMeasure(start: Pool, s: Pool, item: Msg)
    requires Start(start) && PoolInv(start, s) && s.destructor.Posting? && item == Terminate
    requires s.queue.producers[0].POutside? || s.queue.producers[0].PWoken?
    ensures Measure(s.(queue := TryEnqueue(s.queue, 0, item))) < Measure(s)
  {
    hide Total, Inv, Conserved;
    var q' := TryEnqueue(s.queue, 0, item);
    TotalUpdate(ProducerWeight, s.queue.producers, 0, q'.producers[0]);
    if !Full(s.queue) {
      RoomForOne(s.queue, item);
    }
  }

  lemma TakeLowersMeasure(s: Pool, c: nat, timedOut: bool)
    requires Shape(s) && c < |s.workers|
    requires s.queue.consumers[c] == (if timedOut then CWoken(true) else s.queue.consumers[c])
    requires s.queue.consumers[c] == COutside || s.queue.consumers[c] == CWoken(timedOut)
    ensures Measure(s.(queue := TryDequeue(s.queue, c, timedOut))) < Measure(s)
  {
    hide Total, Inv;
    var q' := TryDequeue(s.queue, c, timedOut);
    TotalUpdate(ConsumerWeight, s.queue.consumers, c, q'.consumers[c]);
  }

  lemma PostedLowersMeasure(s: Pool, target: Option<nat>)
    requires Shape(s) && Permitted(s, OnQueue(NotifyPush(0, target)))
    ensures Measure(Next(s, OnQueue(NotifyPush(0, target)))) < Measure(s)
  {
    hide Total, Inv;
    TotalUpdate(ProducerWeight, s.queue.producers, 0, POutside);
    if target.Some? {
      TotalUpdate(ConsumerWeight, s.queue.consumers, target.value, CWoken(false));
    }
  }

  lemma TakenLowersMeasure(s: Pool, c: nat, target: Option<nat>)
    requires Shape(s) && Permitted(s, OnQueue(NotifyPop(c, target)))
    ensures Measure(Next(s, OnQueue(NotifyPop(c, target)))) < Measure(s)
  {
    hide Total, Inv;
    TotalUpdate(ConsumerWeight, s.queue.consumers, c, COutside);
    TotalUpdate(WorkerWeight, s.workers, c, AfterDequeue(s.queue.consumers[c].item));
    if target.Some? {
      TotalUpdate(ProducerWeight, s.queue.producers, target.value, PWoken(s.queue.producers[target.value].item));
    }
  }

  function Wakes(steps: seq<PoolStep>): nat
  {
    if steps == [] then 0 else (if IsWake(steps[0]) then 1 else 0) + Wakes(steps[1..])
  }

  /**
   On every run, all but the timeouts and spurious wake-ups are paid for: the shutdown cannot go on
   for ever without one of those happening over and over.
   */
  lemma {:induction false} ShutdownIsBounded(start: Pool, s: Pool, steps: seq<PoolStep>)
    requires Start(start) && PoolInv(start, s) && IsPoolRun(s, steps)
    ensures |steps| <= Measure(s) + 4 * Wakes(steps)
    decreases |steps|
  {
    if steps == [] {
      assert Measure(s) >= 0;
    } else {
      PoolStepKeepsInv(start, s, steps[0]);
      StepLowersMeasure(start, s, steps[0]);
      ShutdownIsBounded(start, Next(s, steps[0]), steps[1..]);
    }
  }

  /**
   No deadlock: before the last join, some step is possible that is neither a timeout nor a spurious
   wake-up. In particular the blocking posts cannot all wait for workers that are gone.
   */
  lemma NoDeadlock(start: Pool, s: Pool) returns (step: PoolStep)
    requires Start(start) && PoolInv(start, s) && !Done(s)
    ensures Permitted(s, step) && !IsWake(step)
  {
    hide Total;
    if w: nat :| w < |s.workers| && !s.workers[w].Exited? && !s.queue.consumers[w].CAsleep? {
      step := WorkerMoves(s, w);
    } else if s.destructor.Posting? && !s.queue.producers[0].PAsleep? {
      step := DestructorPosts(s);
    } else {
      NeverAllAsleep(start, s);
      step := Join;
    }
  }

  /** All living workers asleep, and the destructor asleep or waiting to join one of them. */
  ghost predicate AllAsleep(s: Pool)
    requires |s.queue.consumers| == |s.workers|
  {
    && (forall w :: 0 <= w < |s.workers| ==> s.workers[w].Exited? || s.queue.consumers[w].CAsleep?)
    && (if s.destructor.Posting? then s.queue.producers != [] && s.queue.producers[0].PAsleep?
        else s.destructor.joined < |s.workers| && !s.workers[s.destructor.joined].Exited?)
  }

  lemma NeverAllAsleep(start: Pool, s: Pool)
    requires Start(start) && PoolInv(start, s)
    ensures !AllAsleep(s)
  {
    hide Total;
    if AllAsleep(s) {
      TotalZero(CNotifyingCount<Msg>, s.queue.consumers);
      TotalZero(CWokenCount<Msg>, s.queue.consumers);
      TotalZero(Popped(Terminate), s.queue.consumers);
      TotalZero(PWokenCount<Msg>, s.queue.producers);
      TotalZero(PNotifyingCount<Msg>, s.queue.producers);
      TerminatesConserved(start, s);
      var w: nat;
      if s.destructor.Posting? {
        TotalAtLeast(PAsleepCount<Msg>, s.queue.producers, 0);
        SomeoneStillServes(start, s);
        w :| w < |s.workers| && !s.workers[w].Exited?;
      } else {
        w := s.destructor.joined;
      }
      TotalAtLeast(CAsleepCount<Msg>, s.queue.consumers, w);
      TotalAtLeast(Live, s.workers, w);
      assert false;
    }
  }

  lemma WorkerMoves(s: Pool, w: nat) returns (step: PoolStep)
    requires Shape(s) && w < |s.workers| && !s.workers[w].Exited? && !s.queue.consumers[w].CAsleep?
    ensures Permitted(s, step) && !IsWake(step)
  {
    hide Total;
    if s.workers[w].Handling? {
      step := Finish(w);
    } else {
      match s.queue.consumers[w]
      case COutside => step := OnQueue(Dequeue(w));
      case CWoken(_) => step := OnQueue(RetryDequeue(w));
      case CNotifying(_) =>
        if s.queue.producers[0].PAsleep? {
          step := OnQueue(NotifyPop(w, Some(0)));
        } else {
          TotalZero(PAsleepCount<Msg>, s.queue.producers);
          step := OnQueue(NotifyPop(w, None));
        }
    }
  }

  lemma DestructorPosts(s: Pool) returns (step: PoolStep)
    requires Shape(s) && s.destructor.Posting? && !s.queue.producers[0].PAsleep?
    ensures Permitted(s, step) && !IsWake(step)
  {
    hide Total;
    match s.queue.producers[0]
    case POutside => step := OnQueue(Enqueue(0, Terminate));
    case PWoken(_) => step := OnQueue(RetryEnqueue(0));
    case PNotifying =>
      if ConsumersAsleep(s.queue) == 0 {
        step := OnQueue(NotifyPush(0, None));
      } else {
        var c := TotalWitness(CAsleepCount<Msg>, s.queue.consumers);
        step := OnQueue(NotifyPush(0, Some(c)));
      }
  }

  /** From every reachable state the destructor can still finish, without waiting for any timeout. */
  lemma {:induction false} CanFinish(start: Pool, s: Pool) returns (steps: seq<PoolStep>)
    requires Start(start) && PoolInv(start, s)
    ensures IsPoolRun(s, steps) && Done(PoolAfter(s, steps)) && Wakes(steps) == 0
    decreases Measure(s)
  {
    if Done(s) {
      steps := [];
    } else {
      var step := NoDeadlock(start, s);
      PoolStepKeepsInv(start, s, step);
      StepLowersMeasure(start, s, step);
      assert Measure(s) >= 0;
      var rest := CanFinish(start, Next(s, step));
      steps := [step] + rest;
      assert steps[1..] == rest;
    }
  }

  lemma TerminateComesLast(removed: seq<Msg>, items: seq<Msg>, early: seq<Msg>, n: nat)
    requires removed + items == early + Terminates(n) && n > 0
    ensures items == [] || Terminate in items
  {
    var all := early + Terminates(n);
    assert all[|all| - 1] == Terminate;
    if items != [] {
      assert (removed + items)[|all| - 1] == items[|items| - 1];
    }
  }

  lemma NothingHeld(m: Msg, consumers: seq<Consumer<Msg>>, workers: seq<Worker>)
    requires |consumers| == |workers| && m != Terminate
    requires forall w :: 0 <= w < |workers| ==> workers[w].Exited? && consumers[w].COutside?
    ensures Total(Popped(m), consumers) + Total(Keeps(m), workers) == 0
    ensures Total(Live, workers) == 0
    ensures Total(Popped(Terminate), consumers) == 0
  {
    TotalZero(Popped(m), consumers);
    TotalZero(Keeps(m), workers);
    TotalZero(Live, workers);
    TotalZero(Popped(Terminate), consumers);
  }

  /**
   When the last join returns, on whatever run: every worker has exited on a terminate message of its
   own, the queue is empty, and the finished messages are exactly those that were queued or already in
   a worker's hands when the destructor was entered, each as often as it was there.
   */
  lemma JoinedMeansFinished(start: Pool, steps: seq<PoolStep>)
    requires Start(start) && IsPoolRun(start, steps) && Done(PoolAfter(start, steps))
    ensures var s := PoolAfter(start, steps);
            && s.queue.items == []
            && s.queue.removed == start.queue.items + Terminates(|start.workers|)
            && (forall w :: 0 <= w < |s.workers| ==> s.workers[w].Exited?)
            && forall m :: m != Terminate ==>
                 multiset(s.finished)[m] == multiset(start.queue.items)[m] + Held(start, m)
  {
    StartInv(start);
    PoolRunKeepsInv(start, start, steps);
    var s := PoolAfter(start, steps);
    NothingHeld(Log(0), s.queue.consumers, s.workers);
    TerminatesConserved(start, s);
    TerminateComesLast(s.queue.removed, s.queue.items, start.queue.items, |s.workers|);
    assert Terminate !in multiset(s.queue.items);
    assert s.queue.removed + s.queue.items == s.queue.removed;
    forall m | m != Terminate
      ensures multiset(s.finished)[m] == multiset(start.queue.items)[m] + Held(start, m)
    {
      NothingHeld(m, s.queue.consumers, s.workers);
      assert Conserved(start, s, m);
      assert m !in multiset(Terminates(|s.workers|));
      assert multiset(s.queue.removed) == multiset(start.queue.items) + multiset(Terminates(|s.workers|));
    }
  }
}
