/**
 spdlog's mpmc_blocking_queue as a step system. Each critical section of queue_mutex_ is one step;
 notify_one comes after the mutex is released and is a step of its own, so that anything can happen
 between a push and its notification. A condition variable's waiters are asleep or woken; a woken
 one still has to take the mutex and look again.
 */
module BlockingQueue {
  import CircularQueue
  import opened Totals

  //// the queue and its callers ////

  /** A thread that calls enqueue or enqueue_nowait. */
  datatype Producer<T> =
    | POutside
    | PAsleep(item: T)      // in pop_cv_.wait
    | PWoken(item: T)       // out of the wait, before it holds the mutex again
    | PNotifying            // pushed, mutex released, push_cv_.notify_one() still to come

  /** A thread that calls dequeue_for. */
  datatype Consumer<T> =
    | COutside
    | CAsleep               // in push_cv_.wait_for
    | CWoken(timedOut: bool)
    | CNotifying(item: T)   // popped, mutex released, pop_cv_.notify_one() still to come

  datatype State<T> = State(
    capacity: nat,
    items: seq<T>,
    overruns: nat,
    producers: seq<Producer<T>>,
    consumers: seq<Consumer<T>>,
    pushed: seq<T>,         // every item ever pushed, in order
    removed: seq<T>)        // every item popped or overwritten, in order

  datatype Option<T> = None | Some(value: T)

  datatype Step<T> =
    | Enqueue(p: nat, item: T)
    | EnqueueNowait(p: nat, item: T)
    | RetryEnqueue(p: nat)
    | WakeProducer(p: nat)                       // spurious
    | NotifyPush(p: nat, consumer: Option<nat>)
    | Dequeue(c: nat)
    | RetryDequeue(c: nat)
    | WakeConsumer(c: nat, timedOut: bool)       // timeout or spurious
    | NotifyPop(c: nat, producer: Option<nat>)

  function PAsleepCount<T>(p: Producer<T>): nat { if p.PAsleep? then 1 else 0 }
  function PWokenCount<T>(p: Producer<T>): nat { if p.PWoken? then 1 else 0 }
  function PNotifyingCount<T>(p: Producer<T>): nat { if p.PNotifying? then 1 else 0 }
  function CAsleepCount<T>(c: Consumer<T>): nat { if c.CAsleep? then 1 else 0 }
  function CWokenCount<T>(c: Consumer<T>): nat { if c.CWoken? then 1 else 0 }
  function CNotifyingCount<T>(c: Consumer<T>): nat { if c.CNotifying? then 1 else 0 }

  function ProducersAsleep<T>(s: State<T>): nat { Total(PAsleepCount, s.producers) }
  function ProducersWoken<T>(s: State<T>): nat { Total(PWokenCount, s.producers) }
  function PushNotifications<T>(s: State<T>): nat { Total(PNotifyingCount, s.producers) }
  function ConsumersAsleep<T>(s: State<T>): nat { Total(CAsleepCount, s.consumers) }
  function ConsumersWoken<T>(s: State<T>): nat { Total(CWokenCount, s.consumers) }
  function PopNotifications<T>(s: State<T>): nat { Total(CNotifyingCount, s.consumers) }

  predicate Full<T>(s: State<T>) { |s.items| >= s.capacity }

  function SetProducer<T>(s: State<T>, p: nat, x: Producer<T>): State<T>
    requires p < |s.producers|
  {
    s.(producers := s.producers[p := x])
  }

  function SetConsumer<T>(s: State<T>, c: nat, x: Consumer<T>): State<T>
    requires c < |s.consumers|
  {
    s.(consumers := s.consumers[c := x])
  }

  /** q_.push_back, which overwrites the oldest item of a full queue. */
  function PushItem<T>(s: State<T>, item: T): State<T>
  {
    var all := s.items + [item];
    var kept := CircularQueue.KeepLast(all, s.capacity);
    s.(items := kept, overruns := s.overruns + |all| - |kept|, pushed := s.pushed + [item],
       removed := s.removed + all[..|all| - |kept|])
  }

  function PopItem<T>(s: State<T>): State<T>
    requires s.items != []
  {
    s.(items := s.items[1..], removed := s.removed + [s.items[0]])
  }

  /** notify_one wakes one sleeper, any of them, and nobody only if nobody sleeps. */
  predicate CanWakeConsumer<T>(s: State<T>, target: Option<nat>)
  {
    match target
    case None => ConsumersAsleep(s) == 0
    case Some(c) => c < |s.consumers| && s.consumers[c].CAsleep?
  }

  predicate CanWakeProducer<T>(s: State<T>, target: Option<nat>)
  {
    match target
    case None => ProducersAsleep(s) == 0
    case Some(p) => p < |s.producers| && s.producers[p].PAsleep?
  }

  predicate Enabled<T>(s: State<T>, step: Step<T>)
  {
    match step
    case Enqueue(p, _) => p < |s.producers| && s.producers[p].POutside?
    case EnqueueNowait(p, _) => p < |s.producers| && s.producers[p].POutside?
    case RetryEnqueue(p) => p < |s.producers| && s.producers[p].PWoken?
    case WakeProducer(p) => p < |s.producers| && s.producers[p].PAsleep?
    case NotifyPush(p, target) => p < |s.producers| && s.producers[p].PNotifying? && CanWakeConsumer(s, target)
    case Dequeue(c) => c < |s.consumers| && s.consumers[c].COutside?
    case RetryDequeue(c) => c < |s.consumers| && s.consumers[c].CWoken?
    case WakeConsumer(c, _) => c < |s.consumers| && s.consumers[c].CAsleep?
    case NotifyPop(c, target) => c < |s.consumers| && s.consumers[c].CNotifying? && CanWakeProducer(s, target)
  }

  /** The body of enqueue's critical section, on entry and after every wake-up. */
  function TryEnqueue<T>(s: State<T>, p: nat, item: T): State<T>
    requires p < |s.producers|
  {
    if Full(s) then SetProducer(s, p, PAsleep(item)) else SetProducer(PushItem(s, item), p, PNotifying)
  }

  /** The body of dequeue_for's critical section; an expired wait on an empty queue gives up. */
  function TryDequeue<T>(s: State<T>, c: nat, timedOut: bool): State<T>
    requires c < |s.consumers|
  {
    if s.items == [] then SetConsumer(s, c, if timedOut then COutside else CAsleep)
    else SetConsumer(PopItem(s), c, CNotifying(s.items[0]))
  }

  function Apply<T>(s: State<T>, step: Step<T>): State<T>
    requires Enabled(s, step)
  {
    match step
    case Enqueue(p, item) => TryEnqueue(s, p, item)
    case EnqueueNowait(p, item) => SetProducer(PushItem(s, item), p, PNotifying)
    case RetryEnqueue(p) => TryEnqueue(s, p, s.producers[p].item)
    case WakeProducer(p) => SetProducer(s, p, PWoken(s.producers[p].item))
    case NotifyPush(p, target) =>
      var s' := SetProducer(s, p, POutside);
      if target.None? then s' else SetConsumer(s', target.value, CWoken(false))
    case Dequeue(c) => TryDequeue(s, c, false)
    case RetryDequeue(c) => TryDequeue(s, c, s.consumers[c].timedOut)
    case WakeConsumer(c, timedOut) => SetConsumer(s, c, CWoken(timedOut))
    case NotifyPop(c, target) =>
      var s' := SetConsumer(s, c, COutside);
      if target.None? then s' else SetProducer(s', target.value, PWoken(s.producers[target.value].item))
  }

  /** The steps of a run, each enabled where it is taken. */
  ghost predicate IsRun<T>(s: State<T>, steps: seq<Step<T>>)
    decreases |steps|
  {
    steps == [] || (Enabled(s, steps[0]) && IsRun(Apply(s, steps[0]), steps[1..]))
  }

  ghost function After<T>(s: State<T>, steps: seq<Step<T>>): State<T>
    requires IsRun(s, steps)
    decreases |steps|
  {
    if steps == [] then s else After(Apply(s, steps[0]), steps[1..])
  }

  function Initial<T>(capacity: nat, producers: nat, consumers: nat): State<T>
  {
    State(capacity, [], 0, seq(producers, _ => POutside), seq(consumers, _ => COutside), [], [])
  }

  //// no lost wake-up ////

  /** Free slots are promised to sleeping producers, and items to sleeping consumers. */
  ghost predicate WakeupsOwed<T>(s: State<T>)
  {
    && (ProducersAsleep(s) > 0 ==> s.capacity - |s.items| <= PopNotifications(s) + ProducersWoken(s))
    && (ConsumersAsleep(s) > 0 ==> |s.items| <= PushNotifications(s) + ConsumersWoken(s))
  }

  ghost predicate Inv<T>(s: State<T>)
  {
    |s.items| <= s.capacity && s.pushed == s.removed + s.items && WakeupsOwed(s)
  }

  lemma ProducerChange<T>(s: State<T>, p: nat, x: Producer<T>)
    requires p < |s.producers|
    ensures var s' := SetProducer(s, p, x);
            && ProducersAsleep(s') + PAsleepCount(s.producers[p]) == ProducersAsleep(s) + PAsleepCount(x)
            && ProducersWoken(s') + PWokenCount(s.producers[p]) == ProducersWoken(s) + PWokenCount(x)
            && PushNotifications(s') + PNotifyingCount(s.producers[p]) == PushNotifications(s) + PNotifyingCount(x)
  {
    TotalUpdate(PAsleepCount<T>, s.producers, p, x);
    TotalUpdate(PWokenCount<T>, s.producers, p, x);
    TotalUpdate(PNotifyingCount<T>, s.producers, p, x);
  }

  lemma ConsumerChange<T>(s: State<T>, c: nat, x: Consumer<T>)
    requires c < |s.consumers|
    ensures var s' := SetConsumer(s, c, x);
            && ConsumersAsleep(s') + CAsleepCount(s.consumers[c]) == ConsumersAsleep(s) + CAsleepCount(x)
            && ConsumersWoken(s') + CWokenCount(s.consumers[c]) == ConsumersWoken(s) + CWokenCount(x)
            && PopNotifications(s') + CNotifyingCount(s.consumers[c]) == PopNotifications(s) + CNotifyingCount(x)
  {
    TotalUpdate(CAsleepCount<T>, s.consumers, c, x);
    TotalUpdate(CWokenCount<T>, s.consumers, c, x);
    TotalUpdate(CNotifyingCount<T>, s.consumers, c, x);
  }

  lemma PushKeepsOrder<T>(s: State<T>, item: T)
    requires |s.items| <= s.capacity && s.pushed == s.removed + s.items
    ensures var s' := PushItem(s, item);
            && s'.pushed == s'.removed + s'.items && |s'.items| <= s.capacity
            && |s'.items| == (if Full(s) then s.capacity else |s.items| + 1)
            && s'.overruns == s.overruns + (if Full(s) then 1 else 0)
  {
    var all := s.items + [item];
    var n := |all| - |CircularQueue.KeepLast(all, s.capacity)|;
    assert s.removed + all == s.removed + (all[..n] + all[n..]);
    assert s.removed + (all[..n] + all[n..]) == s.removed + all[..n] + all[n..];
    assert s.pushed + [item] == s.removed + all;
  }

  lemma EnqueueKeepsInv<T>(s: State<T>, p: nat, item: T)
    requires Inv(s) && p < |s.producers| && (s.producers[p].POutside? || s.producers[p].PWoken?)
    ensures Inv(TryEnqueue(s, p, item))
    ensures s.producers[p].POutside? ==> Inv(SetProducer(PushItem(s, item), p, PNotifying))
  {
    hide Total, CircularQueue.KeepLast, PushItem;
    PushKeepsOrder(s, item);
    PushKeepsThreads(s, item);
    ProducerChange(s, p, PAsleep(item));
    ProducerChange(PushItem(s, item), p, PNotifying);
  }

  lemma PushKeepsThreads<T>(s: State<T>, item: T)
    ensures PushItem(s, item).producers == s.producers && PushItem(s, item).consumers == s.consumers
    ensures PushItem(s, item).capacity == s.capacity
  {}

  lemma DequeueKeepsInv<T>(s: State<T>, c: nat, timedOut: bool)
    requires Inv(s) && c < |s.consumers| && (s.consumers[c].COutside? || s.consumers[c].CWoken?)
    ensures Inv(TryDequeue(s, c, timedOut))
  {
    hide Total;
    if s.items == [] {
      ConsumerChange(s, c, if timedOut then COutside else CAsleep);
    } else {
      ConsumerChange(PopItem(s), c, CNotifying(s.items[0]));
      assert s.items == [s.items[0]] + s.items[1..];
      assert s.removed + ([s.items[0]] + s.items[1..]) == s.removed + [s.items[0]] + s.items[1..];
    }
  }

  lemma StepKeepsInv<T>(s: State<T>, step: Step<T>)
    requires Inv(s) && Enabled(s, step)
    ensures Inv(Apply(s, step))
  {
    hide Total, CircularQueue.KeepLast, PushItem, PopItem, TryEnqueue, TryDequeue;
    match step
    case Enqueue(p, item) => EnqueueKeepsInv(s, p, item);
    case EnqueueNowait(p, item) => EnqueueKeepsInv(s, p, item);
    case RetryEnqueue(p) => EnqueueKeepsInv(s, p, s.producers[p].item);
    case WakeProducer(p) => ProducerChange(s, p, PWoken(s.producers[p].item));
    case NotifyPush(p, target) =>
      ProducerChange(s, p, POutside);
      if target.Some? {
        ConsumerChange(SetProducer(s, p, POutside), target.value, CWoken(false));
      }
    case Dequeue(c) => DequeueKeepsInv(s, c, false);
    case RetryDequeue(c) => DequeueKeepsInv(s, c, s.consumers[c].timedOut);
    case WakeConsumer(c, timedOut) => ConsumerChange(s, c, CWoken(timedOut));
    case NotifyPop(c, target) =>
      ConsumerChange(s, c, COutside);
      if target.Some? {
        ProducerChange(SetConsumer(s, c, COutside), target.value, PWoken(s.producers[target.value].item));
      }
  }

  lemma InitialInv<T>(capacity: nat, producers: nat, consumers: nat)
    ensures Inv<T>(Initial(capacity, producers, consumers))
  {
    var s: State<T> := Initial(capacity, producers, consumers);
    TotalZero(PAsleepCount<T>, s.producers);
    TotalZero(CAsleepCount<T>, s.consumers);
  }

  lemma {:induction false} RunKeepsInv<T>(s: State<T>, steps: seq<Step<T>>)
    requires Inv(s) && IsRun(s, steps)
    ensures Inv(After(s, steps))
    decreases |steps|
  {
    if steps != [] {
      StepKeepsInv(s, steps[0]);
      RunKeepsInv(Apply(s, steps[0]), steps[1..]);
    }
  }

  /**
   On every run of every number of callers: while a producer sleeps, every free slot is matched by a
   notification still to come or a producer on its way to look, one each; while a consumer sleeps, so is
   every item. In particular there is such a thread if there is a slot or an item.
   */
  lemma NoLostWakeup<T>(capacity: nat, producers: nat, consumers: nat, steps: seq<Step<T>>)
    requires IsRun(Initial(capacity, producers, consumers), steps)
    ensures var s := After(Initial(capacity, producers, consumers), steps);
            && WakeupsOwed(s)
            && (ProducersAsleep(s) > 0 && |s.items| < s.capacity ==>
                  (exists c :: 0 <= c < |s.consumers| && s.consumers[c].CNotifying?)
                  || (exists p :: 0 <= p < |s.producers| && s.producers[p].PWoken?))
            && (ConsumersAsleep(s) > 0 && s.items != [] ==>
                  (exists p :: 0 <= p < |s.producers| && s.producers[p].PNotifying?)
                  || (exists c :: 0 <= c < |s.consumers| && s.consumers[c].CWoken?))
  {
    InitialInv<T>(capacity, producers, consumers);
    RunKeepsInv(Initial(capacity, producers, consumers), steps);
    OwedToSomeone(After(Initial(capacity, producers, consumers), steps));
  }

  lemma OwedToSomeone<T>(s: State<T>)
    requires Inv(s)
    ensures ProducersAsleep(s) > 0 && |s.items| < s.capacity ==>
              (exists c :: 0 <= c < |s.consumers| && s.consumers[c].CNotifying?)
              || (exists p :: 0 <= p < |s.producers| && s.producers[p].PWoken?)
    ensures ConsumersAsleep(s) > 0 && s.items != [] ==>
              (exists p :: 0 <= p < |s.producers| && s.producers[p].PNotifying?)
              || (exists c :: 0 <= c < |s.consumers| && s.consumers[c].CWoken?)
  {
    if PopNotifications(s) > 0 { var c := TotalWitness(CNotifyingCount<T>, s.consumers); }
    if ProducersWoken(s) > 0 { var p := TotalWitness(PWokenCount<T>, s.producers); }
    if PushNotifications(s) > 0 { var p := TotalWitness(PNotifyingCount<T>, s.producers); }
    if ConsumersWoken(s) > 0 { var c := TotalWitness(CWokenCount<T>, s.consumers); }
  }

  //// the critical sections ////

  /**
   The queue object. Each method is what its caller does while it holds queue_mutex_, on entry and again
   after every wake-up; s stands for the step system's state, of which the object holds the items.
   */
  class MpmcBlockingQueue<T(0)> {
    const q: CircularQueue.CircularQ<T>

    ghost predicate Shows(s: State<T>)
      reads q, q.v
    {
      q.Valid() && q.maxItems > 0 && s.capacity == q.Capacity() && s.items == q.Contents() && s.overruns == q.overruns
    }

    constructor (maxItems: nat)
      ensures Shows(Initial(maxItems, 0, 0))
    {
      q := new CircularQueue.CircularQ<T>(maxItems);
    }

    /** enqueue: false sends the caller into pop_cv_.wait. */
    method Enqueue(item: T, ghost s: State<T>, ghost p: nat) returns (pushed: bool)
      requires Shows(s) && p < |s.producers|
      modifies q, q.v
      ensures q.v == old(q.v) && Shows(TryEnqueue(s, p, item))
      ensures pushed <==> TryEnqueue(s, p, item).producers[p].PNotifying?
      ensures pushed <==> old(|q.Contents()|) < q.Capacity()
      ensures q.Contents() == old(q.Contents()) + (if pushed then [item] else []) && q.overruns == old(q.overruns)
    {
      pushed := !q.Full();
      if pushed {
        q.PushBack(item);
      }
    }

    /** enqueue_nowait */
    method EnqueueNowait(item: T, ghost s: State<T>, ghost p: nat)
      requires Shows(s) && p < |s.producers| && Enabled(s, Step.EnqueueNowait(p, item))
      modifies q, q.v
      ensures q.v == old(q.v) && Shows(Apply(s, Step.EnqueueNowait(p, item)))
    {
      q.PushBack(item);
    }

    /** dequeue_for: None on an empty queue, where the caller waits, or gives up if its time is over. */
    method Dequeue(timedOut: bool, ghost s: State<T>, ghost c: nat) returns (popped: Option<T>)
      requires Shows(s) && c < |s.consumers|
      modifies q, q.v
      ensures q.v == old(q.v) && Shows(TryDequeue(s, c, timedOut))
      ensures popped.Some? <==> TryDequeue(s, c, timedOut).consumers[c].CNotifying?
      ensures popped.Some? ==> TryDequeue(s, c, timedOut).consumers[c].item == popped.value
      ensures old(q.Contents()) == (if popped.Some? then [popped.value] else []) + q.Contents()
      ensures popped.None? ==> q.Contents() == []
    {
      if q.Empty() {
        return None;
      }
      popped := Some(q.Front());
      q.PopFront();
    }
  }
}
