/**
 Accounts of the blocking queue: where every item goes that a caller offers, and how every call of
 dequeue_for ends, as totals over the steps of any run.
 */
module QueueLaws {
  import opened BlockingQueue
  import opened Totals

  //// items ////

  function WithProducer<T(==)>(x: T): Producer<T> -> nat
  {
    (p: Producer<T>) => One((p.PAsleep? || p.PWoken?) && p.item == x)
  }

  function WithConsumer<T(==)>(x: T): Consumer<T> -> nat
  {
    (c: Consumer<T>) => One(c.CNotifying? && c.item == x)
  }

  /**
   How often the item x is inside: with producers still waiting, in the queue, or with consumers about to
   return it.
   */
  function Inside<T(==)>(s: State<T>, x: T): nat
  {
    Total(WithProducer(x), s.producers) + multiset(s.items)[x] + Total(WithConsumer(x), s.consumers)
  }

  predicate Offers<T(==)>(step: Step<T>, x: T)
  {
    (step.Enqueue? || step.EnqueueNowait?) && step.item == x
  }

  predicate Returns<T(==)>(s: State<T>, step: Step<T>, x: T)
    requires Enabled(s, step)
  {
    step.NotifyPop? && s.consumers[step.c].item == x
  }

  /** Only enqueue_nowait on a full queue loses an item: the oldest, or its own if the capacity is 0. */
  predicate Loses<T(==)>(s: State<T>, step: Step<T>, x: T)
  {
    step.EnqueueNowait? && Full(s) && x == if s.items == [] then step.item else s.items[0]
  }

  function TimesOffered<T(==)>(steps: seq<Step<T>>, x: T): nat
  {
    if steps == [] then 0 else One(Offers(steps[0], x)) + TimesOffered(steps[1..], x)
  }

  ghost function TimesReturned<T>(s: State<T>, steps: seq<Step<T>>, x: T): nat
    requires IsRun(s, steps)
    decreases |steps|
  {
    if steps == [] then 0 else One(Returns(s, steps[0], x)) + TimesReturned(Apply(s, steps[0]), steps[1..], x)
  }

  ghost function TimesLost<T>(s: State<T>, steps: seq<Step<T>>, x: T): nat
    requires IsRun(s, steps)
    decreases |steps|
  {
    if steps == [] then 0 else One(Loses(s, steps[0], x)) + TimesLost(Apply(s, steps[0]), steps[1..], x)
  }

  lemma ProducerItems<T>(s: State<T>, p: nat, y: Producer<T>, x: T)
    requires p < |s.producers|
    ensures Inside(SetProducer(s, p, y), x) + WithProducer(x)(s.producers[p]) == Inside(s, x) + WithProducer(x)(y)
  {
    TotalUpdate(WithProducer(x), s.producers, p, y);
  }

  lemma ConsumerItems<T>(s: State<T>, c: nat, y: Consumer<T>, x: T)
    requires c < |s.consumers|
    ensures Inside(SetConsumer(s, c, y), x) + WithConsumer(x)(s.consumers[c]) == Inside(s, x) + WithConsumer(x)(y)
  {
    TotalUpdate(WithConsumer(x), s.consumers, c, y);
  }

  lemma PushMovesItems<T>(s: State<T>, item: T, x: T)
    requires |s.items| <= s.capacity
    ensures var lost := Full(s) && x == if s.items == [] then item else s.items[0];
            Inside(PushItem(s, item), x) + One(lost) == Inside(s, x) + One(x == item)
  {
    var all := s.items + [item];
    var s' := PushItem(s, item);
    assert multiset(all)[x] == multiset(s.items)[x] + One(x == item);
    if Full(s) {
      assert s'.items == all[1..];
      assert all == [all[0]] + all[1..];
      assert multiset(all)[x] == One(x == all[0]) + multiset(all[1..])[x];
    } else {
      assert s'.items == all;
    }
  }

  lemma PopMovesItems<T>(s: State<T>, x: T)
    requires s.items != []
    ensures Inside(PopItem(s), x) + One(x == s.items[0]) == Inside(s, x)
  {
    assert s.items == [s.items[0]] + s.items[1..];
    assert multiset(s.items)[x] == One(x == s.items[0]) + multiset(s.items[1..])[x];
  }

  lemma DequeueMovesItems<T>(s: State<T>, c: nat, timedOut: bool, x: T)
    requires c < |s.consumers| && !s.consumers[c].CNotifying?
    ensures Inside(TryDequeue(s, c, timedOut), x) == Inside(s, x)
  {
    hide Inside;
    if s.items == [] {
      ConsumerItems(s, c, if timedOut then COutside else CAsleep, x);
    } else {
      PopMovesItems(s, x);
      ConsumerItems(PopItem(s), c, CNotifying(s.items[0]), x);
    }
  }

  lemma EnqueueMovesItems<T>(s: State<T>, p: nat, item: T, x: T)
    requires |s.items| <= s.capacity && p < |s.producers|
    ensures Inside(TryEnqueue(s, p, item), x) + WithProducer(x)(s.producers[p]) == Inside(s, x) + One(x == item)
  {
    hide Inside, PushItem;
    if Full(s) {
      ProducerItems(s, p, PAsleep(item), x);
    } else {
      PushMovesItems(s, item, x);
      PushKeepsThreads(s, item);
      ProducerItems(PushItem(s, item), p, PNotifying, x);
    }
  }

  lemma StepMovesItems<T>(s: State<T>, step: Step<T>, x: T)
    requires |s.items| <= s.capacity && Enabled(s, step)
    ensures Inside(Apply(s, step), x) + One(Returns(s, step, x)) + One(Loses(s, step, x))
         == Inside(s, x) + One(Offers(step, x))
  {
    hide Inside, PushItem, TryEnqueue, TryDequeue, ConsumersAsleep, ProducersAsleep;
    match step
    case Enqueue(p, item) => EnqueueMovesItems(s, p, item, x);
    case EnqueueNowait(p, item) =>
      PushMovesItems(s, item, x);
      PushKeepsThreads(s, item);
      ProducerItems(PushItem(s, item), p, PNotifying, x);
    case RetryEnqueue(p) => EnqueueMovesItems(s, p, s.producers[p].item, x);
    case WakeProducer(p) => ProducerItems(s, p, PWoken(s.producers[p].item), x);
    case NotifyPush(p, target) =>
      ProducerItems(s, p, POutside, x);
      if target.Some? {
        ConsumerItems(SetProducer(s, p, POutside), target.value, CWoken(false), x);
      }
    case Dequeue(c) => DequeueMovesItems(s, c, false, x);
    case RetryDequeue(c) => DequeueMovesItems(s, c, s.consumers[c].timedOut, x);
    case WakeConsumer(c, timedOut) => ConsumerItems(s, c, CWoken(timedOut), x);
    case NotifyPop(c, target) =>
      ConsumerItems(s, c, COutside, x);
      if target.Some? {
        ProducerItems(SetConsumer(s, c, COutside), target.value, PWoken(s.producers[target.value].item), x);
      }
  }

  lemma {:induction false} RunMovesItems<T>(s: State<T>, steps: seq<Step<T>>, x: T)
    requires Inv(s) && IsRun(s, steps)
    ensures Inside(After(s, steps), x) + TimesReturned(s, steps, x) + TimesLost(s, steps, x)
         == Inside(s, x) + TimesOffered(steps, x)
    decreases |steps|
  {
    hide Inside, WakeupsOwed, Enabled, Apply, Returns, Loses, Offers;
    if steps != [] {
      StepKeepsInv(s, steps[0]);
      StepMovesItems(s, steps[0], x);
      RunMovesItems(Apply(s, steps[0]), steps[1..], x);
    }
  }

  //// calls ////

  function InDequeue<T>(c: Consumer<T>): nat { if c.COutside? then 0 else 1 }
  function Dequeuing<T>(s: State<T>): nat { Total(InDequeue<T>, s.consumers) }

  function DequeueSteps<T>(steps: seq<Step<T>>): nat
  {
    if steps == [] then 0 else (if steps[0].Dequeue? then 1 else 0) + DequeueSteps(steps[1..])
  }

  function ReturnSteps<T>(steps: seq<Step<T>>): nat
  {
    if steps == [] then 0 else (if steps[0].NotifyPop? then 1 else 0) + ReturnSteps(steps[1..])
  }

  /** The calls that find the queue empty when their time is over. */
  ghost function GiveUps<T>(s: State<T>, steps: seq<Step<T>>): nat
    requires IsRun(s, steps)
    decreases |steps|
  {
    if steps == [] then 0
    else
      (if steps[0].RetryDequeue? && s.consumers[steps[0].c].timedOut && s.items == [] then 1 else 0)
      + GiveUps(Apply(s, steps[0]), steps[1..])
  }

  lemma DequeueMovesCaller<T>(s: State<T>, c: nat, timedOut: bool)
    requires c < |s.consumers| && (s.consumers[c].CWoken? || !timedOut)
    ensures Dequeuing(TryDequeue(s, c, timedOut)) + InDequeue(s.consumers[c])
         == Dequeuing(s) + if timedOut && s.items == [] then 0 else 1
  {
    TotalUpdate(InDequeue<T>, s.consumers, c, TryDequeue(s, c, timedOut).consumers[c]);
  }

  lemma PushMovesNoCaller<T>(s: State<T>, p: nat, item: T)
    requires p < |s.producers|
    ensures TryEnqueue(s, p, item).consumers == s.consumers
  {}

  lemma StepMovesCallers<T>(s: State<T>, step: Step<T>)
    requires Enabled(s, step)
    ensures Dequeuing(Apply(s, step)) + (if step.NotifyPop? then 1 else 0)
            + (if step.RetryDequeue? && s.consumers[step.c].timedOut && s.items == [] then 1 else 0)
         == Dequeuing(s) + if step.Dequeue? then 1 else 0
  {
    hide Total, PushItem, TryEnqueue, TryDequeue;
    match step
    case Enqueue(p, item) => PushMovesNoCaller(s, p, item);
    case EnqueueNowait(p, item) => PushKeepsThreads(s, item);
    case RetryEnqueue(p) => PushMovesNoCaller(s, p, s.producers[p].item);
    case WakeProducer(p) =>
    case NotifyPush(p, target) =>
      if target.Some? {
        TotalUpdate(InDequeue<T>, s.consumers, target.value, CWoken(false));
      }
    case Dequeue(c) => DequeueMovesCaller(s, c, false);
    case RetryDequeue(c) => DequeueMovesCaller(s, c, s.consumers[c].timedOut);
    case WakeConsumer(c, timedOut) => TotalUpdate(InDequeue<T>, s.consumers, c, CWoken(timedOut));
    case NotifyPop(c, target) => TotalUpdate(InDequeue<T>, s.consumers, c, COutside);
  }

  lemma {:induction false} RunMovesCallers<T>(s: State<T>, steps: seq<Step<T>>)
    requires IsRun(s, steps)
    ensures Dequeuing(After(s, steps)) + ReturnSteps(steps) + GiveUps(s, steps) == Dequeuing(s) + DequeueSteps(steps)
    decreases |steps|
  {
    hide Enabled, Apply, Dequeuing;
    if steps != [] {
      StepMovesCallers(s, steps[0]);
      RunMovesCallers(Apply(s, steps[0]), steps[1..]);
    }
  }

  function TimeoutSteps<T>(steps: seq<Step<T>>): nat
  {
    if steps == [] then 0 else One(steps[0].WakeConsumer? && steps[0].timedOut) + TimeoutSteps(steps[1..])
  }

  function IsExpired<T>(c: Consumer<T>): nat { One(c.CWoken? && c.timedOut) }

  function Expired<T>(s: State<T>): nat { Total(IsExpired<T>, s.consumers) }

  lemma DequeueUsesTimeout<T>(s: State<T>, c: nat, timedOut: bool)
    requires c < |s.consumers| && (timedOut ==> s.consumers[c] == CWoken(true))
    ensures Expired(TryDequeue(s, c, timedOut)) + IsExpired(s.consumers[c]) == Expired(s)
  {
    TotalUpdate(IsExpired<T>, s.consumers, c, TryDequeue(s, c, timedOut).consumers[c]);
  }

  lemma StepUsesTimeouts<T>(s: State<T>, step: Step<T>)
    requires Enabled(s, step)
    ensures Expired(Apply(s, step)) + One(step.RetryDequeue? && s.consumers[step.c].timedOut)
         == Expired(s) + One(step.WakeConsumer? && step.timedOut)
  {
    hide Total, PushItem, TryEnqueue, TryDequeue;
    match step
    case Enqueue(p, item) => PushMovesNoCaller(s, p, item);
    case EnqueueNowait(p, item) => PushKeepsThreads(s, item);
    case RetryEnqueue(p) => PushMovesNoCaller(s, p, s.producers[p].item);
    case WakeProducer(p) =>
    case NotifyPush(p, target) =>
      if target.Some? {
        TotalUpdate(IsExpired<T>, s.consumers, target.value, CWoken(false));
      }
    case Dequeue(c) => DequeueUsesTimeout(s, c, false);
    case RetryDequeue(c) => DequeueUsesTimeout(s, c, s.consumers[c].timedOut);
    case WakeConsumer(c, timedOut) => TotalUpdate(IsExpired<T>, s.consumers, c, CWoken(timedOut));
    case NotifyPop(c, target) => TotalUpdate(IsExpired<T>, s.consumers, c, COutside);
  }

  lemma {:induction false} RunUsesTimeouts<T>(s: State<T>, steps: seq<Step<T>>)
    requires IsRun(s, steps)
    ensures Expired(After(s, steps)) + GiveUps(s, steps) <= Expired(s) + TimeoutSteps(steps)
    decreases |steps|
  {
    hide Enabled, Apply, Expired;
    if steps != [] {
      StepUsesTimeouts(s, steps[0]);
      RunUsesTimeouts(Apply(s, steps[0]), steps[1..]);
    }
  }

  /**
   On every run, of every item x: as often as it was offered to enqueue or enqueue_nowait it is with a producer
   still waiting, in the queue, with a consumer about to return it, returned, or overwritten by an
   enqueue_nowait that met a full queue; and each dequeue_for has returned an item, has found the queue empty
   when its time was over, or is still under way. No more calls give up than waits have timed out.
   */
  lemma QueueAccount<T>(capacity: nat, producers: nat, consumers: nat, steps: seq<Step<T>>, x: T)
    requires IsRun(Initial(capacity, producers, consumers), steps)
    ensures var start: State<T> := Initial(capacity, producers, consumers);
            var s := After(start, steps);
            && Inside(s, x) + TimesReturned(start, steps, x) + TimesLost(start, steps, x) == TimesOffered(steps, x)
            && Dequeuing(s) + ReturnSteps(steps) + GiveUps(start, steps) == DequeueSteps(steps)
            && GiveUps(start, steps) <= TimeoutSteps(steps)
  {
    var start: State<T> := Initial(capacity, producers, consumers);
    InitialInv<T>(capacity, producers, consumers);
    TotalZero(WithProducer(x), start.producers);
    TotalZero(WithConsumer(x), start.consumers);
    TotalZero(InDequeue<T>, start.consumers);
    RunMovesItems(start, steps, x);
    RunMovesCallers(start, steps);
    TotalZero(IsExpired<T>, start.consumers);
    RunUsesTimeouts(start, steps);
  }

  //// one call of dequeue_for ////

  /** A consumer whose time is over never goes back to sleep: it leaves with an item or without one. */
  lemma ExpiredNeverSleeps<T>(s: State<T>, step: Step<T>, c: nat)
    requires Enabled(s, step) && c < |s.consumers| && s.consumers[c] == CWoken(true)
    ensures c < |Apply(s, step).consumers|
    ensures var x := Apply(s, step).consumers[c];
            if step != RetryDequeue(c) then x == CWoken(true)
            else if s.items == [] then x.COutside? else x == CNotifying(s.items[0])
  {}

  /** A consumer asleep over an empty queue whose time runs out is outside again, and nothing else has changed. */
  lemma GivesUp<T>(s: State<T>, c: nat)
    requires s.items == [] && c < |s.consumers| && s.consumers[c].CAsleep?
    ensures Enabled(s, WakeConsumer(c, true)) && Enabled(Apply(s, WakeConsumer(c, true)), RetryDequeue(c))
    ensures Apply(Apply(s, WakeConsumer(c, true)), RetryDequeue(c)) == s.(consumers := s.consumers[c := COutside])
  {}

  /** Woken for another reason, with the queue empty, it sleeps again. */
  lemma SleepsAgain<T>(s: State<T>, c: nat)
    requires s.items == [] && c < |s.consumers| && s.consumers[c].CAsleep?
    ensures Enabled(s, WakeConsumer(c, false)) && Enabled(Apply(s, WakeConsumer(c, false)), RetryDequeue(c))
    ensures Apply(Apply(s, WakeConsumer(c, false)), RetryDequeue(c)) == s
  {}
}
