/**
 The loops of a TcpServer together with their wake-up pipes: every loop is an EventLoop whose pending
 functors are the queue of the server's model. Progress to the destruction of a closed connection then
 needs no poll to time out: whoever queues a functor also wakes the loop that is to run it.
 */
module WokenServers {
  import E = EventLoops
  import T = TcpConnections
  import opened ServerProgress
  import opened TcpServers
  import opened Totals

  type Loops = seq<E.State<Task>>

  datatype Woken = Woken(server: Server, loops: Loops)

  datatype WokenStep =
    | Serve(step: Step)                         // a step of the server, with the pushes it makes
    | Polls(l: nat, ids: seq<nat>)              // poll returns with channels of connections
    | OfLoop(l: nat, own: E.Step<Task>)         // a step of a loop by itself, or a thread's wakeup()

  /** The thread that takes the step: a loop's, or one more that stands for all others. */
  function ThreadOf(s: Server, step: Step): nat
    requires Wf(s) && Enabled(s, step)
  {
    match step
    case NewConnection(_) => 0
    case Poll(l, _) => l
    case ReadEvent(l, _, _) => l
    case WriteEvent(l, _) => l
    case CloseCallback(l) => l
    case RunTask(l, _) => l
    case UserSend(id, _, _) => s.conns[id].io
    case UserShutdown(id) => s.conns[id].io
    case UserForceClose(id) => s.conns[id].io
    case _ => |s.loops|
  }

  /** The thread is between a push and the wakeup() that follows it. */
  predicate MustWake(loops: Loops, t: nat)
  {
    || (t < |loops| && loops[t].ownerMustWake)
    || (exists m :: 0 <= m < |loops| && t < |loops[m].threads| && loops[m].threads[t])
  }

  predicate CanStep(w: Woken, step: WokenStep)
    requires Wf(w.server) && |w.loops| == |w.server.loops|
  {
    match step
    case Serve(q) =>
      && !q.Poll? && Enabled(w.server, q)
      && (var t := ThreadOf(w.server, q);
          && !MustWake(w.loops, t)
          && (t < |w.loops| ==> w.loops[t].phase.Handling? || w.loops[t].phase.Running?)
          && (q.ReadEvent? || q.WriteEvent? ==> t < |w.loops| && w.loops[t].phase.Handling?)
          && (q.RunTask? ==> t < |w.loops| && E.Enabled(w.loops[t], E.RunNext)))
    case Polls(l, ids) =>
      l < |w.loops| && ids != [] && E.Enabled(w.loops[l], E.PollReturns(true)) && Enabled(w.server, Poll(l, ids))
    case OfLoop(l, e) =>
      && l < |w.loops| && E.Enabled(w.loops[l], e)
      && (match e
          case OwnerWakes => true
          case Wakes(_) => true
          case TestQuit => true
          case PollReturns(_) => true
          case ReadWakeup => true
          case StartFunctors => AtRest(w.server.loops[l]) && !MustWake(w.loops, l)
          case Swap => true
          case EndFunctors => w.server.loops[l].closing == [] && !MustWake(w.loops, l)
          case _ => false)
  }

  /** What is left of a queue before the step adds to it. */
  function Kept(s: Server, step: Step, m: nat): seq<Task>
    requires Wf(s) && Enabled(s, step) && m < |s.loops|
  {
    if step.RunTask? && step.l == m then s.loops[m].queue[1..] else s.loops[m].queue
  }

  /** Loop m after thread t has pushed what is new in its queue. */
  function Pushed(e: E.State<Task>, m: nat, t: nat, kept: seq<Task>, queue: seq<Task>): E.State<Task>
  {
    if |queue| <= |kept| then e
    else
      var push := if m == t then E.OwnerPushes(queue[|kept|]) else E.Pushes(t, queue[|kept|]);
      if E.Enabled(e, push) then E.Apply(e, push) else e
  }

  function Started(e: E.State<Task>, runs: bool): E.State<Task>
  {
    if runs && E.Enabled(e, E.RunNext) then E.Apply(e, E.RunNext) else e
  }

  function Served(w: Woken, q: Step): Woken
    requires Wf(w.server) && |w.loops| == |w.server.loops| && Enabled(w.server, q)
  {
    var s' := Apply(w.server, q);
    var t := ThreadOf(w.server, q);
    Woken(s', seq(|w.loops|, m requires 0 <= m < |w.loops| =>
      Pushed(Started(w.loops[m], q.RunTask? && q.l == m), m, t, Kept(w.server, q, m),
             if m < |s'.loops| then s'.loops[m].queue else [])))
  }

  function Go(w: Woken, step: WokenStep): Woken
    requires Wf(w.server) && |w.loops| == |w.server.loops| && CanStep(w, step)
  {
    match step
    case Serve(q) => Served(w, q)
    case Polls(l, ids) => Woken(Apply(w.server, Poll(l, ids)), w.loops[l := E.Apply(w.loops[l], E.PollReturns(true))])
    case OfLoop(l, e) => w.(loops := w.loops[l := E.Apply(w.loops[l], e)])
  }

  //// the invariant ////

  ghost predicate LoopJoined(x: Loop, e: E.State<Task>, threads: nat)
  {
    && E.Inv(e) && |e.threads| == threads && !e.quit && !e.phase.BeforeLoop? && !e.phase.Finished?
    && x.queue == e.batch + e.pending
    && (x.active != [] || x.current.WriteEventOf? ==> e.phase.Handling?)
    && (x.closing != [] ==> e.phase.Handling? || e.phase.Running?)
  }

  ghost predicate Joined(w: Woken)
  {
    && Inv(w.server) && |w.loops| == |w.server.loops|
    && forall l :: 0 <= l < |w.loops| ==> LoopJoined(w.server.loops[l], w.loops[l], |w.loops| + 1)
  }

  //// one push ////

  /** At most one more functor, at the end. */
  predicate OneMorePushed(kept: seq<Task>, queue: seq<Task>)
  {
    queue == kept || (|queue| == |kept| + 1 && queue[..|kept|] == kept)
  }

  predicate PushesOne(s: Server, s': Server)
  {
    |s'.loops| == |s.loops|
    && forall m :: 0 <= m < |s.loops| ==> OneMorePushed(s.loops[m].queue, s'.loops[m].queue)
  }

  /** Nothing but queues changes. */
  predicate SameWork(s: Server, s': Server)
  {
    |s'.loops| == |s.loops|
    && forall m :: 0 <= m < |s.loops| ==>
         && s'.loops[m].active == s.loops[m].active && s'.loops[m].current == s.loops[m].current
         && s'.loops[m].closing == s.loops[m].closing
  }

  lemma PostPushesOne(s: Server, l: nat, t: Task)
    requires l < |s.loops|
    ensures PushesOne(s, Post(s, l, t)) && SameWork(s, Post(s, l, t))
  {}

  lemma ErasePushesOne(s: Server, id: nat)
    requires id < |s.conns| && s.conns[id].io < |s.loops|
    ensures PushesOne(s, DoErase(s, id)) && SameWork(s, DoErase(s, id))
  {}

  lemma SendPushesOne(s: Server, id: nat, data: seq<T.Byte>, n: int)
    requires id < |s.conns| && s.conns[id].io < |s.loops| && T.WriteResult(n, |data|)
    ensures PushesOne(s, DoSend(s, id, data, n)) && SameWork(s, DoSend(s, id, data, n))
  {
    hide T.SendInLoop;
  }

  lemma WritePushesOne(s: Server, id: nat, n: int)
    requires id < |s.conns| && s.conns[id].io < |s.loops| && T.WriteResult(n, |s.conns[id].conn.out|)
    ensures PushesOne(s, DoWrite(s, id, n)) && SameWork(s, DoWrite(s, id, n))
  {
    hide T.HandleWrite;
  }

  lemma ClosePushesOne(s: Server, id: nat)
    requires id < |s.conns| && s.conns[id].io < |s.loops|
    ensures PushesOne(s, DoClose(s, id))
  {}

  lemma NewPushesOne(s: Server, io: nat)
    requires io < |s.loops|
    ensures PushesOne(s, DoNewConnection(s, io)) && SameWork(s, DoNewConnection(s, io))
  {}

  lemma TaskPushesOne(s: Server, l: nat, n: int)
    requires Wf(s) && Enabled(s, RunTask(l, n))
    ensures PushesOne(SetLoop(s, l, s.loops[l].(queue := s.loops[l].queue[1..])), DoTask(s, l, n))
    ensures SameWork(s, DoTask(s, l, n))
  {
    hide DoErase, DoSend;
    var popped := SetLoop(s, l, s.loops[l].(queue := s.loops[l].queue[1..]));
    match s.loops[l].queue[0]
    case RemoveInLoop(id) => ErasePushesOne(popped, id);
    case Send(id, data) => SendPushesOne(popped, id, data, n);
    case _ =>
  }

  lemma CallbackPushesOne(s: Server, l: nat)
    requires Wf(s) && Enabled(s, CloseCallback(l))
    ensures PushesOne(s, DoCloseCallback(s, l))
  {
    hide DoErase;
    var x := s.loops[l];
    ErasePushesOne(SetLoop(s, l, x.(closing := x.closing[1..])), x.closing[0]);
  }

  lemma ReadPushesOne(s: Server, l: nat, result: ReadResult, alsoWrite: bool)
    requires Wf(s) && Enabled(s, ReadEvent(l, result, alsoWrite))
    ensures PushesOne(s, DoRead(s, l, result, alsoWrite))
  {}

  lemma OnePush(s: Server, step: Step, m: nat)
    requires Wf(s) && Enabled(s, step) && m < |s.loops|
    ensures |Apply(s, step).loops| == |s.loops| && OneMorePushed(Kept(s, step, m), Apply(s, step).loops[m].queue)
  {
    hide DoRead, DoSend, DoWrite, DoClose, DoNewConnection, DoCloseCallback, DoTask, Wf, OneMorePushed;
    KeptIsPushed(s.loops[m].queue);
    match step
    case RunTask(l, n) => TaskPushesOne(s, l, n);
    case ReadEvent(l, result, alsoWrite) => ReadPushesOne(s, l, result, alsoWrite);
    case WriteEvent(l, n) =>
      WfIds(s);
      WritePushesOne(SetLoop(s, l, s.loops[l].(current := NoEvent)), s.loops[l].current.id, n);
    case CloseCallback(l) => CallbackPushesOne(s, l);
    case NewConnection(io) => NewPushesOne(s, io);
    case UserSend(id, data, n) =>
      WfIds(s);
      SendPushesOne(s, id, data, n);
    case UserForceClose(id) =>
      WfIds(s);
      ClosePushesOne(s, id);
    case PushSend(id, i) =>
      WfIds(s);
      PostPushesOne(SetConn(s, id, Sent(s.conns[id], i)), s.conns[id].io, Send(id, s.conns[id].sending[i]));
    case PushShutdown(id) =>
      WfIds(s);
      PostPushesOne(SetConn(s, id, s.conns[id].(shutting := s.conns[id].shutting - 1)), s.conns[id].io, Shutdown(id));
    case _ =>
  }

  lemma KeptIsPushed(queue: seq<Task>)
    ensures OneMorePushed(queue, queue)
  {}

  lemma WfIds(s: Server)
    requires Wf(s)
    ensures forall id :: 0 <= id < |s.conns| ==> s.conns[id].io < |s.loops|
    ensures forall l :: 0 <= l < |s.loops| && s.loops[l].current.WriteEventOf? ==> s.loops[l].current.id < |s.conns|
  {
    forall l | 0 <= l < |s.loops| ensures LoopWf(s.loops[l], |s.conns|) {}
  }

  //// where a step happens ////

  /** Only the stepping thread's own loop changes what it is busy with, and only its events change the list. */
  lemma OwnLoopOnly(s: Server, step: Step, m: nat)
    requires Inv(s) && Enabled(s, step) && !step.Poll? && m < |s.loops|
    ensures var x, x', t := s.loops[m], Apply(s, step).loops[m], ThreadOf(s, step);
            && |Apply(s, step).loops| == |s.loops|
            && (m != t || !(step.ReadEvent? || step.WriteEvent?) ==> x'.active == x.active && x'.current == x.current)
            && (m != t ==> x'.closing == x.closing)
  {
    hide DoSend, DoWrite, DoErase, DoNewConnection, DoTask, ConnOk, LoopsOk;
    OnePush(s, step, m);
    WfIds(s);
    match step
    case RunTask(l, n) => TaskPushesOne(s, l, n);
    case NewConnection(io) => NewPushesOne(s, io);
    case UserSend(id, data, n) => SendPushesOne(s, id, data, n);
    case WriteEvent(l, n) =>
      WritePushesOne(SetLoop(s, l, s.loops[l].(current := NoEvent)), s.loops[l].current.id, n);
    case ReadEvent(l, result, alsoWrite) => ListedIsOwn(s, l);
    case CloseCallback(l) =>
      var id, popped := PopFrame(s, l);
      ErasePushesOne(popped, id);
    case _ =>
  }

  lemma ListedIsOwn(s: Server, l: nat)
    requires Inv(s) && l < |s.loops| && s.loops[l].active != []
    ensures s.loops[l].active[0] < |s.conns| && s.conns[s.loops[l].active[0]].io == l
  {
    assert LoopOk(s, l);
    assert Listable(s, l, s.loops[l].active[0]);
  }

  //// the invariant is kept ////

  lemma PushedJoins(e: E.State<Task>, m: nat, t: nat, kept: seq<Task>, queue: seq<Task>)
    requires E.Inv(e) && kept == e.batch + e.pending && OneMorePushed(kept, queue)
    requires m == t ==> (e.phase.Handling? || e.phase.Running?) && !e.ownerMustWake
    requires m != t ==> t < |e.threads| && !e.threads[t]
    ensures var e' := Pushed(e, m, t, kept, queue);
            && E.Inv(e') && queue == e'.batch + e'.pending
            && |e'.threads| == |e.threads| && e'.quit == e.quit && e'.phase == e.phase && e'.batch == e.batch
  {
    hide E.Inv;
    if |queue| > |kept| {
      var x := queue[|kept|];
      var push := if m == t then E.OwnerPushes(x) else E.Pushes(t, x);
      E.StepKeepsInv(e, push);
      assert queue == kept + [x];
      E.Regroup(e.batch, e.pending, [x]);
    }
  }

  lemma StartedJoins(e: E.State<Task>)
    requires E.Inv(e) && E.Enabled(e, E.RunNext)
    ensures var e' := Started(e, true);
            && E.Inv(e') && e'.batch + e'.pending == (e.batch + e.pending)[1..]
            && (e.batch + e.pending)[0] == e.batch[0]
            && e'.threads == e.threads && e'.quit == e.quit && e'.phase == e.phase && !e'.ownerMustWake
  {
    E.StepKeepsInv(e, E.RunNext);
  }

  /** What the stepping thread is known to be doing. */
  lemma ServeThread(w: Woken, q: Step)
    requires Joined(w) && CanStep(w, Serve(q))
    ensures var t := ThreadOf(w.server, q);
            && t <= |w.loops|
            && (t < |w.loops| ==>
                  !w.loops[t].ownerMustWake && (w.loops[t].phase.Handling? || w.loops[t].phase.Running?))
            && (q.ReadEvent? || q.WriteEvent? ==> t < |w.loops| && w.loops[t].phase.Handling?)
            && (q.RunTask? ==> t == q.l < |w.loops| && E.Enabled(w.loops[t], E.RunNext))
    ensures forall m :: 0 <= m < |w.loops| ==> !w.loops[m].threads[ThreadOf(w.server, q)]
  {
    ThreadBound(w.server, q);
  }

  lemma ServeKeepsLoop(w: Woken, q: Step, m: nat)
    requires Joined(w) && CanStep(w, Serve(q)) && m < |w.loops|
    ensures var w' := Served(w, q);
            |w'.loops| == |w.loops| == |w'.server.loops| && LoopJoined(w'.server.loops[m], w'.loops[m], |w.loops| + 1)
  {
    assert Wf(w.server);
    hide E.Inv, Apply, E.Apply, Inv, Wf, ThreadOf, Pushed, Started, OneMorePushed, Enabled, MustWake;
    var t := ThreadOf(w.server, q);
    var runs := q.RunTask? && q.l == m;
    var e := w.loops[m];
    assert LoopJoined(w.server.loops[m], e, |w.loops| + 1);
    OnePush(w.server, q, m);
    OwnLoopOnly(w.server, q, m);
    ServeThread(w, q);
    if runs {
      StartedJoins(e);
    } else {
      NotStarted(e);
    }
    PushedJoins(Started(e, runs), m, t, Kept(w.server, q, m), Apply(w.server, q).loops[m].queue);
  }

  lemma NotStarted(e: E.State<Task>)
    ensures Started(e, false) == e
  {}

  lemma ThreadBound(s: Server, step: Step)
    requires Wf(s) && Enabled(s, step)
    ensures ThreadOf(s, step) <= |s.loops| && (step.RunTask? ==> ThreadOf(s, step) == step.l)
  {
    WfIds(s);
  }

  lemma OwnStepKeepsLoop(x: Loop, e: E.State<Task>, own: E.Step<Task>, threads: nat)
    requires LoopJoined(x, e, threads) && E.Enabled(e, own)
    requires match own
             case OwnerWakes => true
             case Wakes(_) => true
             case TestQuit => true
             case PollReturns(_) => true
             case ReadWakeup => true
             case StartFunctors => AtRest(x)
             case Swap => true
             case EndFunctors => x.closing == []
             case _ => false
    ensures LoopJoined(x, E.Apply(e, own), threads)
  {
    hide E.Inv;
    E.StepKeepsInv(e, own);
    BatchOnlyRuns(e);
    if own.Swap? {
      assert [] + e.pending == e.pending + [];
    }
  }

  lemma BatchOnlyRuns(e: E.State<Task>)
    requires E.Inv(e)
    ensures !e.phase.Running? ==> e.batch == []
    ensures e.ownerMustWake ==> e.phase.Running?
    ensures (e.phase.Entering? || e.phase.Blocked?) && e.pending != [] ==> E.WakeupComing(e)
    ensures e.phase == E.Handling(true) ==> e.pipe > 0
  {}

  ghost predicate AssertsOf(w: Woken, step: WokenStep)
    requires Wf(w.server) && |w.loops| == |w.server.loops| && CanStep(w, step)
  {
    step.Serve? ==> Asserts(w.server, step.step)
  }

  lemma GoKeepsJoined(w: Woken, step: WokenStep)
    requires Joined(w) && CanStep(w, step) && AssertsOf(w, step)
    ensures Joined(Go(w, step))
  {
    hide LoopJoined, E.Apply, E.Enabled;
    match step
    case Serve(q) =>
      StepKeepsInv(w.server, q);
      var w' := Served(w, q);
      hide Inv, Apply, Enabled;
      forall m | 0 <= m < |w.loops|
        ensures |w'.loops| == |w.loops| == |w'.server.loops|
        ensures LoopJoined(w'.server.loops[m], w'.loops[m], |w.loops| + 1)
      {
        ServeKeepsLoop(w, q, m);
      }
    case Polls(l, ids) =>
      PollKeepsInv(w.server, l, ids);
      PollsKeepsLoop(w.server.loops[l], w.loops[l], ids, |w.loops| + 1);
    case OfLoop(l, own) => OwnStepKeepsLoop(w.server.loops[l], w.loops[l], own, |w.loops| + 1);
  }

  lemma PollsKeepsLoop(x: Loop, e: E.State<Task>, ids: seq<nat>, threads: nat)
    requires LoopJoined(x, e, threads) && E.Enabled(e, E.PollReturns(true))
    ensures LoopJoined(x.(active := ids), E.Apply(e, E.PollReturns(true)), threads)
  {
    hide E.Inv;
    E.StepKeepsInv(e, E.PollReturns(true));
  }

  //// runs ////

  ghost predicate IsWokenRun(w: Woken, steps: seq<WokenStep>)
    decreases |steps|
  {
    Wf(w.server) && |w.loops| == |w.server.loops|
    && (steps == [] || (CanStep(w, steps[0]) && IsWokenRun(Go(w, steps[0]), steps[1..])))
  }

  ghost function WokenAfter(w: Woken, steps: seq<WokenStep>): (w': Woken)
    requires IsWokenRun(w, steps)
    ensures Wf(w'.server) && |w'.loops| == |w'.server.loops|
    decreases |steps|
  {
    if steps == [] then w else WokenAfter(Go(w, steps[0]), steps[1..])
  }

  /** forceClose as LifeCycle asks for it. */
  ghost predicate WokenGuarded(w: Woken, steps: seq<WokenStep>)
    requires IsWokenRun(w, steps)
    decreases |steps|
  {
    steps == [] ||
    ((steps[0].Serve? ==> Guarded(w.server, steps[0].step)) && WokenGuarded(Go(w, steps[0]), steps[1..]))
  }

  /** Every loop in loop(), and nothing to do yet. */
  function WokenInitial(loops: nat): Woken
  {
    Woken(Initial(loops), seq(loops, _ => E.Initial<Task>(loops + 1).(phase := E.Entering)))
  }

  lemma WokenInitialJoined(loops: nat)
    requires loops > 0
    ensures Joined(WokenInitial(loops)) && Fresh(WokenInitial(loops).server)
  {
    InitialInv(loops);
    hide Inv, Fresh;
    assert Initial(loops).loops == seq(loops, _ => Loop([], [], NoEvent, []));
  }

  lemma GoKeepsFresh(w: Woken, step: WokenStep)
    requires Joined(w) && Fresh(w.server) && CanStep(w, step)
    requires step.Serve? ==> Guarded(w.server, step.step)
    ensures AssertsOf(w, step) && Fresh(Go(w, step).server)
  {
    hide Inv, Fresh, Apply, Enabled, Asserts;
    if step.Serve? {
      AssertsHold(w.server, step.step);
      StepKeepsFresh(w.server, step.step);
    } else if step.Polls? {
      StepKeepsFresh(w.server, Poll(step.l, step.ids));
    }
  }

  lemma {:induction false} WokenRunKeepsJoined(w: Woken, steps: seq<WokenStep>)
    requires Joined(w) && Fresh(w.server) && IsWokenRun(w, steps) && WokenGuarded(w, steps)
    ensures Joined(WokenAfter(w, steps)) && Fresh(WokenAfter(w, steps).server)
    decreases |steps|
  {
    hide Joined, Fresh, Go, CanStep, Guarded, AssertsOf;
    if steps != [] {
      GoKeepsFresh(w, steps[0]);
      GoKeepsJoined(w, steps[0]);
      WokenRunKeepsJoined(Go(w, steps[0]), steps[1..]);
    }
  }

  //// progress ////

  /** Poll returns for another reason than the wake-up pipe: a channel of a connection, or the timeout. */
  predicate Waits(steps: seq<WokenStep>)
  {
    steps != [] && (steps[0].Polls? || (steps[0].OfLoop? && steps[0].own == E.PollReturns(true)) || Waits(steps[1..]))
  }

  /** Calls of wakeup() still to be made on this loop. */
  function WakesDue(e: E.State<Task>): nat { One(e.ownerMustWake) + Total(One, e.threads) }

  /** How far the loop is from running a batch that is not empty. */
  function Distance(e: E.State<Task>): nat
  {
    match e.phase
    case Running => if e.batch == [] then 7 else 0
    case Entering => 6
    case Blocked => 5
    case Handling(wake) => if wake then 4 else 3
    case Swapping => 2
    case _ => 8
  }

  function Distances(w: Woken): nat { Total(Distance, w.loops) }

  function AllWakesDue(w: Woken): nat { Total(WakesDue, w.loops) }

  predicate Clean(w: Woken)
  {
    forall l :: 0 <= l < |w.loops| ==>
      !w.loops[l].ownerMustWake && forall t :: 0 <= t < |w.loops[l].threads| ==> !w.loops[l].threads[t]
  }

  lemma LoopReplaced(w: Woken, l: nat, e: E.State<Task>)
    requires l < |w.loops|
    ensures var w' := w.(loops := w.loops[l := e]);
            && Distances(w') + Distance(w.loops[l]) == Distances(w) + Distance(e)
            && AllWakesDue(w') + WakesDue(w.loops[l]) == AllWakesDue(w) + WakesDue(e)
  {
    TotalUpdate(Distance, w.loops, l, e);
    TotalUpdate(WakesDue, w.loops, l, e);
  }

  /** A wakeup() that is due is made. */
  lemma OneWake(w: Woken) returns (step: WokenStep)
    requires Joined(w) && !Clean(w)
    ensures CanStep(w, step) && step.OfLoop? && (step.own.OwnerWakes? || step.own.Wakes?)
    ensures var w' := Go(w, step);
            w'.server == w.server && Distances(w') == Distances(w) && AllWakesDue(w') < AllWakesDue(w)
  {
    hide Total, Inv, LoopJoined;
    var l: nat :| l < |w.loops| && !(!w.loops[l].ownerMustWake
                  && forall t :: 0 <= t < |w.loops[l].threads| ==> !w.loops[l].threads[t]);
    var e := w.loops[l];
    if e.ownerMustWake {
      step := OfLoop(l, E.OwnerWakes);
    } else {
      var t: nat :| t < |e.threads| && e.threads[t];
      TotalUpdate(One, e.threads, t, false);
      step := OfLoop(l, E.Wakes(t));
    }
    LoopReplaced(w, l, E.Apply(e, step.own));
  }

  lemma CleanMeans(w: Woken)
    requires Clean(w)
    ensures forall t: nat :: !MustWake(w.loops, t)
    ensures forall l :: 0 <= l < |w.loops| && E.WakeupComing(w.loops[l]) ==> w.loops[l].pipe > 0
  {}

  /** The loop's own step towards its next batch. */
  lemma Approach(x: Loop, e: E.State<Task>, threads: nat) returns (own: E.Step<Task>)
    requires LoopJoined(x, e, threads) && AtRest(x) && x.queue != []
    requires E.WakeupComing(e) ==> e.pipe > 0
    requires !e.ownerMustWake && !(e.phase.Running? && e.batch != [])
    ensures E.Enabled(e, own) && own != E.PollReturns(true) && Distance(E.Apply(e, own)) < Distance(e)
    ensures own.TestQuit? || own.PollReturns? || own.ReadWakeup? || own.StartFunctors? || own.Swap? || own.EndFunctors?
  {
    hide E.Inv;
    BatchOnlyRuns(e);
    assert e.batch == [] ==> e.batch + e.pending == e.pending;
    match e.phase
    case Running => own := E.EndFunctors;
    case Entering => own := E.TestQuit;
    case Blocked => own := E.PollReturns(false);
    case Handling(wake) => own := if wake then E.ReadWakeup else E.StartFunctors;
    case Swapping => own := E.Swap;
    case _ =>
  }

  lemma TurnToServe(w: Woken, l: nat) returns (q: Step)
    requires Joined(w) && Clean(w) && l < |w.loops|
    requires !AtRest(w.server.loops[l]) || (w.server.loops[l].queue != [] && E.Enabled(w.loops[l], E.RunNext))
    ensures CanStep(w, Serve(q)) && Asserts(w.server, q) && Pending(q) && Guarded(w.server, q)
  {
    hide ConnOk, LoopsOk, Apply, E.Apply, E.Inv, MustWake;
    CleanMeans(w);
    var x := w.server.loops[l];
    assert LoopJoined(x, w.loops[l], |w.loops| + 1);
    q := if x.closing != [] then CloseCallback(l)
         else if x.current.WriteEventOf? then WriteEvent(l, -1)
         else if x.active != [] then ReadEvent(l, Failed, false)
         else RunTask(l, -1);
    ServeAsserts(w.server, q);
  }

  /** Nobody has to wake anybody, and something is left to do: one step nearer to the end. */
  lemma Turn(w: Woken) returns (step: WokenStep)
    requires Joined(w) && Clean(w) && !Settled(w.server)
    ensures CanStep(w, step) && AssertsOf(w, step) && !Waits([step])
    ensures step.Serve? ==> Pending(step.step) && Guarded(w.server, step.step)
    ensures var w' := Go(w, step);
            Weight(w'.server) < Weight(w.server) || (w'.server == w.server && Distances(w') < Distances(w))
  {
    hide Total, Weight, ConnOk, LoopsOk, Apply, E.Apply, E.Inv, MustWake;
    CleanMeans(w);
    var s := w.server;
    var l: nat :| l < |s.loops| && (!AtRest(s.loops[l]) || s.loops[l].queue != []);
    assert LoopJoined(s.loops[l], w.loops[l], |w.loops| + 1);
    if !AtRest(s.loops[l]) || E.Enabled(w.loops[l], E.RunNext) {
      var q := TurnToServe(w, l);
      PendingLowersWeight(s, q);
      step := Serve(q);
    } else {
      var own := Approach(s.loops[l], w.loops[l], |w.loops| + 1);
      LoopReplaced(w, l, E.Apply(w.loops[l], own));
      step := OfLoop(l, own);
    }
  }

  lemma ServeAsserts(s: Server, q: Step)
    requires Inv(s) && Enabled(s, q)
    requires q.CloseCallback? || q.WriteEvent? || (q.ReadEvent? && q.result.Failed?) || q.RunTask?
    ensures Asserts(s, q)
  {
    hide ConnOk, LoopsOk, DoTask, DoCloseCallback;
    match q
    case CloseCallback(l) => CloseCallbackKeepsInv(s, l);
    case RunTask(l, n) => TaskKeepsInv(s, l, n);
    case _ =>
  }

  lemma OneMoreWoken(w: Woken, step: WokenStep, rest: seq<WokenStep>)
    requires Wf(w.server) && |w.loops| == |w.server.loops| && CanStep(w, step) && IsWokenRun(Go(w, step), rest)
    ensures IsWokenRun(w, [step] + rest) && WokenAfter(w, [step] + rest) == WokenAfter(Go(w, step), rest)
    ensures WokenGuarded(w, [step] + rest)
            <==> (step.Serve? ==> Guarded(w.server, step.step)) && WokenGuarded(Go(w, step), rest)
    ensures Waits([step] + rest) <==> Waits([step]) || Waits(rest)
  {
    assert ([step] + rest)[1..] == rest && [step][1..] == [];
  }

  lemma TurnLeavesNoneBehind(w: Woken, step: WokenStep)
    requires Joined(w) && CanStep(w, step) && !step.Polls? && (step.Serve? ==> Pending(step.step))
    ensures NoneBehind(w.server, Go(w, step).server)
  {
    assert Wf(w.server);
    hide Inv, Apply, Enabled;
    if step.Serve? {
      SameCount(w.server, step.step);
      forall id | 0 <= id < |w.server.conns|
        ensures |w.server.conns[id].history| <= |Apply(w.server, step.step).conns[id].history|
      {
        HistoryGrows(w.server, step.step, id);
      }
    }
  }

  lemma {:induction false} WokenSettles(w: Woken) returns (steps: seq<WokenStep>)
    requires Joined(w)
    ensures IsWokenRun(w, steps) && WokenGuarded(w, steps) && !Waits(steps)
    ensures var w' := WokenAfter(w, steps);
            Joined(w') && Settled(w'.server) && NoneBehind(w.server, w'.server)
    decreases Weight(w.server), Distances(w), AllWakesDue(w)
  {
    assert Wf(w.server) && |w.loops| == |w.server.loops|;
    hide Weight, Distances, AllWakesDue, Inv, LoopJoined, CanStep, Go, Clean, Guarded, AssertsOf;
    steps := [];
    if !Clean(w) || !Settled(w.server) {
      var step;
      if Clean(w) {
        step := Turn(w);
      } else {
        step := OneWake(w);
        WakeDoesNotWait(w, step);
      }
      GoKeepsJoined(w, step);
      TurnLeavesNoneBehind(w, step);
      steps := WokenSettles(Go(w, step));
      OneMoreWoken(w, step, steps);
      steps := [step] + steps;
    }
  }

  lemma WakeDoesNotWait(w: Woken, step: WokenStep)
    requires step.OfLoop? && (step.own.OwnerWakes? || step.own.Wakes?)
    requires Wf(w.server) && |w.loops| == |w.server.loops| && CanStep(w, step)
    ensures AssertsOf(w, step) && !Waits([step])
  {}

  /**
   On every run of server and loops together, with forceClose as LifeCycle asks for it: from wherever it
   is, every closed connection can be destroyed without any poll timing out and without any channel of a
   connection becoming ready, each loop being woken by those who queue for it.
   */
  lemma DestroyedWithoutTimeout(loops: nat, steps: seq<WokenStep>) returns (more: seq<WokenStep>)
    requires loops > 0 && IsWokenRun(WokenInitial(loops), steps) && WokenGuarded(WokenInitial(loops), steps)
    ensures var w := WokenAfter(WokenInitial(loops), steps);
            && IsWokenRun(w, more) && WokenGuarded(w, more) && !Waits(more)
            && (var s, s' := w.server, WokenAfter(w, more).server;
                && |s'.conns| == |s.conns|
                && forall id :: 0 <= id < |s.conns| && Closed in s.conns[id].history ==>
                     s'.conns[id].history == LIFECYCLE && id !in s'.connections && !s'.conns[id].registered)
  {
    WokenInitialJoined(loops);
    WokenRunKeepsJoined(WokenInitial(loops), steps);
    var w := WokenAfter(WokenInitial(loops), steps);
    more := WokenSettles(w);
    var s, s' := w.server, WokenAfter(w, more).server;
    hide LoopJoined, Inv, Settled, IsWokenRun, WokenAfter, WokenGuarded, WokenInitial, Waits;
    forall id | 0 <= id < |s.conns| && Closed in s.conns[id].history
      ensures s'.conns[id].history == LIFECYCLE && id !in s'.connections && !s'.conns[id].registered
    {
      ClosedThenSettled(s, s', id);
    }
  }
}
