/**
 Accounts of a TcpServer's loops: every channel that a poll lists is handled once and in order, every write
 event that was asked for comes, and every completed write is reported by one functor.
 */
module ServerLaws {
  import L = SessionLaws
  import T = TcpConnections
  import opened TcpServers
  import opened Totals

  //// events ////

  function Listed(step: Step, l: nat): seq<nat>
  {
    if step.Poll? && step.l == l then step.ids else []
  }

  /** The channel whose handleEvent the step begins on loop l. */
  function Handled(s: Server, step: Step, l: nat): seq<nat>
    requires Wf(s) && Enabled(s, step)
  {
    if step.ReadEvent? && step.l == l then [s.loops[l].active[0]] else []
  }

  /** The channel whose write callback is to follow, and the one whose write callback the step is. */
  function Asked(s: Server, step: Step, l: nat): seq<nat>
    requires Wf(s) && Enabled(s, step)
  {
    if step.ReadEvent? && step.alsoWrite then Handled(s, step, l) else []
  }

  function Written(s: Server, step: Step, l: nat): seq<nat>
    requires Wf(s) && Enabled(s, step)
  {
    if step.WriteEvent? && step.l == l then [s.loops[l].current.id] else []
  }

  function InEvent(x: Loop): seq<nat> { if x.current.WriteEventOf? then [x.current.id] else [] }

  ghost function AllListed(s: Server, steps: seq<Step>, l: nat): seq<nat>
    requires IsRun(s, steps)
    decreases |steps|
  {
    if steps == [] then [] else Listed(steps[0], l) + AllListed(Apply(s, steps[0]), steps[1..], l)
  }

  ghost function AllHandled(s: Server, steps: seq<Step>, l: nat): seq<nat>
    requires IsRun(s, steps)
    decreases |steps|
  {
    if steps == [] then [] else Handled(s, steps[0], l) + AllHandled(Apply(s, steps[0]), steps[1..], l)
  }

  ghost function AllAsked(s: Server, steps: seq<Step>, l: nat): seq<nat>
    requires IsRun(s, steps)
    decreases |steps|
  {
    if steps == [] then [] else Asked(s, steps[0], l) + AllAsked(Apply(s, steps[0]), steps[1..], l)
  }

  ghost function AllWritten(s: Server, steps: seq<Step>, l: nat): seq<nat>
    requires IsRun(s, steps)
    decreases |steps|
  {
    if steps == [] then [] else Written(s, steps[0], l) + AllWritten(Apply(s, steps[0]), steps[1..], l)
  }

  predicate SameEvents(s: Server, s': Server)
  {
    |s'.loops| == |s.loops| && forall l :: 0 <= l < |s.loops| ==>
      s'.loops[l].active == s.loops[l].active && s'.loops[l].current == s.loops[l].current
  }

  lemma SendKeepsEvents(s: Server, id: nat, data: seq<T.Byte>, n: int)
    requires id < |s.conns| && s.conns[id].io < |s.loops| && T.WriteResult(n, |data|)
    ensures SameEvents(s, DoSend(s, id, data, n))
  {
    hide T.SendInLoop, T.SendCompletes;
  }

  lemma WriteKeepsEvents(s: Server, id: nat, n: int)
    requires id < |s.conns| && s.conns[id].io < |s.loops| && T.WriteResult(n, |s.conns[id].conn.out|)
    ensures SameEvents(s, DoWrite(s, id, n))
  {
    hide T.HandleWrite, T.WriteCompletes;
  }

  lemma TaskKeepsEvents(s: Server, l: nat, n: int)
    requires Wf(s) && Enabled(s, RunTask(l, n))
    ensures SameEvents(s, DoTask(s, l, n))
  {
    hide DoSend, T.SendInLoop;
    var popped := SetLoop(s, l, s.loops[l].(queue := s.loops[l].queue[1..]));
    match s.loops[l].queue[0]
    case Send(id, data) => SendKeepsEvents(popped, id, data, n);
    case _ =>
  }

  lemma OthersKeepEvents(s: Server, step: Step)
    requires Wf(s) && Enabled(s, step) && !step.Poll? && !step.ReadEvent? && !step.WriteEvent?
    ensures SameEvents(s, Apply(s, step))
  {
    hide DoTask, DoSend, T.SendInLoop;
    match step
    case RunTask(l, n) => TaskKeepsEvents(s, l, n);
    case UserSend(id, data, n) => SendKeepsEvents(s, id, data, n);
    case _ =>
  }

  lemma ReadMovesEvents(s: Server, m: nat, result: ReadResult, alsoWrite: bool, l: nat)
    requires Wf(s) && Enabled(s, ReadEvent(m, result, alsoWrite)) && l < |s.loops|
    ensures var s' := DoRead(s, m, result, alsoWrite);
            && |s'.loops| == |s.loops|
            && s.loops[l].active == Handled(s, ReadEvent(m, result, alsoWrite), l) + s'.loops[l].active
            && InEvent(s.loops[l]) + Asked(s, ReadEvent(m, result, alsoWrite), l) == InEvent(s'.loops[l])
  {}

  lemma StepMovesEvents(s: Server, step: Step, l: nat)
    requires Wf(s) && Enabled(s, step) && l < |s.loops|
    ensures |Apply(s, step).loops| == |s.loops|
    ensures var x, x' := s.loops[l], Apply(s, step).loops[l];
            && x.active + Listed(step, l) == Handled(s, step, l) + x'.active
            && InEvent(x) + Asked(s, step, l) == Written(s, step, l) + InEvent(x')
  {
    assert LoopWf(s.loops[l], |s.conns|);
    hide Wf, LoopWf, DoRead, DoWrite;
    match step
    case Poll(_, _) =>
    case ReadEvent(m, result, alsoWrite) => ReadMovesEvents(s, m, result, alsoWrite, l);
    case WriteEvent(m, n) =>
      Connections(s);
      WriteKeepsEvents(SetLoop(s, m, s.loops[m].(current := NoEvent)), s.loops[m].current.id, n);
    case _ =>
      OthersKeepEvents(s, step);
      hide Apply, Enabled;
  }

  lemma Connections(s: Server)
    requires Wf(s)
    ensures forall id :: 0 <= id < |s.conns| ==> s.conns[id].io < |s.loops|
    ensures forall l :: 0 <= l < |s.loops| && s.loops[l].current.WriteEventOf? ==> s.loops[l].current.id < |s.conns|
  {
    forall l | 0 <= l < |s.loops| ensures LoopWf(s.loops[l], |s.conns|) {}
  }

  lemma Chain<A>(a: seq<A>, b: seq<A>, c: seq<A>, d: seq<A>, b': seq<A>, c': seq<A>, e: seq<A>)
    requires a + b == c + d && d + b' == c' + e
    ensures a + (b + b') == (c + c') + e
  {
    L.Regroup(a, b, b');
    L.Regroup(c, d, b');
    L.Regroup(c, c', e);
  }

  /**
   On every run, on every loop: the channels listed by polls are handled in the order in which they were
   listed, none left out and none twice, and so are the write callbacks of those that also had that event.
   */
  lemma {:induction false} EventAccount(s: Server, steps: seq<Step>, l: nat)
    requires IsRun(s, steps) && l < |s.loops|
    ensures l < |After(s, steps).loops|
    ensures var x, x' := s.loops[l], After(s, steps).loops[l];
            && x.active + AllListed(s, steps, l) == AllHandled(s, steps, l) + x'.active
            && InEvent(x) + AllAsked(s, steps, l) == AllWritten(s, steps, l) + InEvent(x')
    decreases |steps|
  {
    hide Wf, Enabled, Apply, Listed, Handled, Asked, Written, InEvent;
    var x := s.loops[l];
    if steps == [] {
      assert x.active + [] == [] + x.active && InEvent(x) + [] == [] + InEvent(x);
    } else {
      var step, s' := steps[0], Apply(s, steps[0]);
      StepMovesEvents(s, step, l);
      EventAccount(s', steps[1..], l);
      var x1, x2 := s'.loops[l], After(s, steps).loops[l];
      Chain(x.active, Listed(step, l), Handled(s, step, l), x1.active, AllListed(s', steps[1..], l),
            AllHandled(s', steps[1..], l), x2.active);
      Chain(InEvent(x), Asked(s, step, l), Written(s, step, l), InEvent(x1), AllAsked(s', steps[1..], l),
            AllWritten(s', steps[1..], l), InEvent(x2));
    }
  }

  /**
   Of nested handleClose frames the innermost ends first: right after a close, the next close callback of that
   loop is the one of the connection just closed, and it leaves the frames that were there before.
   */
  lemma InnermostFirst(s: Server, id: nat)
    requires Inv(s) && id < |s.conns| && T.Open(s.conns[id].conn)
    ensures var l, closed := s.conns[id].io, DoClose(s, id);
            && Wf(closed) && Enabled(closed, CloseCallback(l))
            && (var s' := Apply(closed, CloseCallback(l));
                && s'.loops[l].closing == s.loops[l].closing
                && s'.conns[id].history == s.conns[id].history + [Closed] + (if l == 0 then [Erased] else [])
                && (l != 0 ==> s'.loops[0].queue == s.loops[0].queue + [RemoveInLoop(id)])
                && forall other :: 0 <= other < |s.conns| && other != id ==> s'.conns[other] == s.conns[other])
  {
    CloseKeepsInv(s, id);
    hide Inv, LoopsOk, ConnOk;
    var l := s.conns[id].io;
    assert ([id] + s.loops[l].closing)[1..] == s.loops[l].closing;
  }

  //// write-complete functors ////

  /** The step sends on connection id directly: its data finds the buffer empty, and is all written. */
  predicate SendsAll(s: Server, s': Server, step: Step, id: nat)
    requires Wf(s) && Enabled(s, step) && id < |s.conns| && id < |s'.conns|
  {
    var c := s.conns[id].conn;
    && c.out == [] && s'.conns[id].conn.out == []
    && match step
       case UserSend(i, _, n) => i == id && c.phase.Connected? && n >= 0
       case RunTask(l, n) => s.loops[l].queue[0].Send? && s.loops[l].queue[0].id == id && T.Open(c) && n >= 0
       case _ => false
  }

  /** The step is a write event of connection id that writes the last of the buffer. */
  predicate WritesLast(s: Server, s': Server, step: Step, id: nat)
    requires Wf(s) && Enabled(s, step) && id < |s.conns| && id < |s'.conns|
  {
    var c := s.conns[id].conn;
    step.WriteEvent? && s.loops[step.l].current.id == id && T.Open(c) && c.out != [] && s'.conns[id].conn.out == []
  }

  predicate Completes(s: Server, step: Step, id: nat)
    requires Wf(s) && Enabled(s, step) && id < |s.conns|
  {
    var s' := Apply(s, step);
    id < |s'.conns| && (SendsAll(s, s', step, id) || WritesLast(s, s', step, id))
  }

  predicate Reports(s: Server, step: Step, id: nat)
    requires Wf(s) && Enabled(s, step)
  {
    step.RunTask? && s.loops[step.l].queue[0] == WriteComplete(id)
  }

  /** The write-complete functors queued for connection id. */
  ghost function Due(s: Server, id: nat): nat
    requires id < |s.conns| && s.conns[id].io < |s.loops|
  {
    Count(s.loops[s.conns[id].io].queue, WriteComplete(id))
  }

  predicate OnLoop(s: Server, id: nat)
  {
    id < |s.conns| && s.conns[id].io < |s.loops|
  }

  lemma PostDue(s: Server, l: nat, t: Task, id: nat)
    requires OnLoop(s, id) && l < |s.loops|
    ensures OnLoop(Post(s, l, t), id)
    ensures Due(Post(s, l, t), id) == Due(s, id) + One(l == s.conns[id].io && t == WriteComplete(id))
  {
    CountPush(s.loops[l].queue, t);
  }

  lemma PopDue(s: Server, l: nat, id: nat)
    requires OnLoop(s, id) && l < |s.loops| && s.loops[l].queue != []
    ensures var popped := SetLoop(s, l, s.loops[l].(queue := s.loops[l].queue[1..]));
            Due(s, id) == Due(popped, id) + One(l == s.conns[id].io && s.loops[l].queue[0] == WriteComplete(id))
  {
    CountPop(s.loops[l].queue);
  }

  lemma EraseDue(s: Server, i: nat, id: nat)
    requires OnLoop(s, i) && OnLoop(s, id)
    ensures OnLoop(DoErase(s, i), id) && Due(DoErase(s, i), id) == Due(s, id)
  {
    hide Count;
    var r := s.conns[i];
    var erased := SetConn(s, i, r.(history := r.history + [Erased])).(connections := s.connections - {i});
    PostDue(erased, r.io, Destroy(i), id);
  }

  lemma SendDue(s: Server, i: nat, data: seq<T.Byte>, n: int, id: nat)
    requires OnLoop(s, i) && OnLoop(s, id) && T.WriteResult(n, |data|)
    requires T.ConnInv(s.conns[i].conn) && !s.conns[i].conn.phase.Connecting?
    ensures var s', c := DoSend(s, i, data, n), s.conns[id].conn;
            && OnLoop(s', id)
            && Due(s', id) == Due(s, id)
               + One(i == id && T.Open(c) && c.out == [] && n >= 0 && s'.conns[id].conn.out == [])
  {
    hide Count, T.SendInLoop, T.SendCompletes, T.ConnInv;
    var r := s.conns[i];
    T.SendCompletesWhen(r.conn, data, n);
    PostDue(SetConn(s, i, r.(conn := T.SendInLoop(r.conn, data, n))), r.io, WriteComplete(i), id);
  }

  lemma WriteDue(s: Server, i: nat, n: int, id: nat)
    requires OnLoop(s, i) && OnLoop(s, id) && T.WriteResult(n, |s.conns[i].conn.out|)
    requires T.ConnInv(s.conns[i].conn)
    ensures var s', c := DoWrite(s, i, n), s.conns[id].conn;
            && OnLoop(s', id)
            && Due(s', id) == Due(s, id)
               + One(i == id && T.Open(c) && c.out != [] && s'.conns[id].conn.out == [])
  {
    hide Count, T.HandleWrite, T.WriteCompletes, T.ConnInv;
    var r := s.conns[i];
    T.WriteCompletesWhen(r.conn, n);
    T.WriteEmpties(r.conn, n);
    PostDue(SetConn(s, i, r.(conn := T.HandleWrite(r.conn, n))), r.io, WriteComplete(i), id);
  }

  lemma Known(s: Server, id: nat)
    requires Inv(s) && id < |s.conns|
    ensures Wf(s) && OnLoop(s, id) && T.ConnInv(s.conns[id].conn)
  {
    assert ConnOk(s, id);
  }

  lemma TaskDue(s: Server, l: nat, n: int, id: nat)
    requires Inv(s) && Enabled(s, RunTask(l, n)) && id < |s.conns|
    ensures OnLoop(s, id) && OnLoop(DoTask(s, l, n), id)
    ensures Due(DoTask(s, l, n), id) + One(Reports(s, RunTask(l, n), id))
         == Due(s, id) + One(Completes(s, RunTask(l, n), id))
  {
    Known(s, id);
    TaskStage(s, l, 0);
    OwnQueue(s, l, id);
    var t, popped := s.loops[l].queue[0], SetLoop(s, l, s.loops[l].(queue := s.loops[l].queue[1..]));
    Known(s, t.id);
    hide Inv, Wf, Count, DoSend, DoErase, T.ConnInv, T.SendInLoop, T.ShutdownInLoop;
    PopDue(s, l, id);
    match t
    case RemoveInLoop(i) => EraseDue(popped, i, id);
    case Send(i, data) => SendDue(popped, i, data, n, id);
    case _ =>
  }

  /** A write-complete functor is queued on its connection's own loop. */
  lemma OwnQueue(s: Server, l: nat, id: nat)
    requires Inv(s) && l < |s.loops| && s.loops[l].queue != [] && id < |s.conns|
    ensures s.loops[l].queue[0] == WriteComplete(id) ==> l == s.conns[id].io
  {
    hide Count, Ordered;
    assert ConnOk(s, id);
    assert QueueOk(s.loops[l].queue, l, id, s.conns[id]);
  }

  lemma WriteEventDue(s: Server, l: nat, n: int, id: nat)
    requires Inv(s) && Enabled(s, WriteEvent(l, n)) && id < |s.conns|
    ensures OnLoop(s, id) && OnLoop(Apply(s, WriteEvent(l, n)), id)
    ensures Due(Apply(s, WriteEvent(l, n)), id) == Due(s, id) + One(Completes(s, WriteEvent(l, n), id))
  {
    var i, s' := s.loops[l].current.id, SetLoop(s, l, s.loops[l].(current := NoEvent));
    Known(s, id);
    assert LoopWf(s.loops[l], |s.conns|);
    Known(s, i);
    hide Inv, Wf, Count, DoWrite, T.ConnInv, T.HandleWrite;
    WriteDue(s', i, n, id);
  }

  lemma UserSendDue(s: Server, i: nat, data: seq<T.Byte>, n: int, id: nat)
    requires Inv(s) && Enabled(s, UserSend(i, data, n)) && id < |s.conns|
    ensures OnLoop(s, id) && OnLoop(Apply(s, UserSend(i, data, n)), id)
    ensures Due(Apply(s, UserSend(i, data, n)), id) == Due(s, id) + One(Completes(s, UserSend(i, data, n), id))
  {
    Known(s, id);
    Known(s, i);
    hide Inv, Wf, Count, DoSend, T.ConnInv, T.SendInLoop;
    if s.conns[i].conn.phase.Connected? {
      SendDue(s, i, data, n, id);
    }
  }

  lemma NewDue(s: Server, io: nat, id: nat)
    requires OnLoop(s, id) && io < |s.loops|
    ensures OnLoop(DoNewConnection(s, io), id) && Due(DoNewConnection(s, io), id) == Due(s, id)
  {
    hide Count;
    var newest: nat := |s.conns|;
    PostDue(s.(conns := s.conns + [NewRecord(io)], connections := s.connections + {newest}), io, Establish(newest), id);
  }

  lemma CallbackDue(s: Server, l: nat, id: nat)
    requires Inv(s) && Enabled(s, CloseCallback(l)) && OnLoop(s, id)
    ensures OnLoop(DoCloseCallback(s, l), id) && Due(DoCloseCallback(s, l), id) == Due(s, id)
  {
    var i, popped := PopFrame(s, l);
    Known(s, i);
    hide Count, Inv, Wf;
    EraseDue(popped, i, id);
    PostDue(popped, 0, RemoveInLoop(i), id);
  }

  lemma PushDue(s: Server, step: Step, id: nat)
    requires Inv(s) && Enabled(s, step) && OnLoop(s, id) && (step.PushSend? || step.PushShutdown?)
    ensures OnLoop(Apply(s, step), id) && Due(Apply(s, step), id) == Due(s, id)
  {
    var i := step.id;
    Known(s, i);
    hide Count, Inv, Wf;
    var r := s.conns[i];
    var r' := if step.PushSend? then Sent(r, step.i) else r.(shutting := r.shutting - 1);
    PostDue(SetConn(s, i, r'), r.io, if step.PushSend? then Send(i, r.sending[step.i]) else Shutdown(i), id);
  }

  lemma OtherDue(s: Server, step: Step, id: nat)
    requires Inv(s) && Enabled(s, step) && id < |s.conns|
    requires !step.RunTask? && !step.WriteEvent? && !step.UserSend?
    ensures OnLoop(s, id) && OnLoop(Apply(s, step), id) && Due(Apply(s, step), id) == Due(s, id)
  {
    Known(s, id);
    hide Count, Inv, Wf, T.ShutdownInLoop, DoNewConnection, DoCloseCallback;
    match step
    case NewConnection(io) => NewDue(s, io, id);
    case CloseCallback(l) => CallbackDue(s, l, id);
    case PushSend(_, _) => PushDue(s, step, id);
    case PushShutdown(_) => PushDue(s, step, id);
    case _ =>
  }

  lemma StepReports(s: Server, step: Step, id: nat)
    requires Inv(s) && Enabled(s, step) && id < |s.conns|
    ensures OnLoop(s, id) && OnLoop(Apply(s, step), id)
    ensures Due(Apply(s, step), id) + One(Reports(s, step, id)) == Due(s, id) + One(Completes(s, step, id))
  {
    hide Due, OnLoop, Inv, DoTask, DoSend, DoWrite, DoClose, DoShutdown, DoNewConnection, DoCloseCallback, DoRead;
    match step
    case RunTask(l, n) => TaskDue(s, l, n, id);
    case WriteEvent(l, n) => WriteEventDue(s, l, n, id);
    case UserSend(i, data, n) => UserSendDue(s, i, data, n, id);
    case _ => OtherDue(s, step, id);
  }

  //// from the start ////

  ghost function DueNow(s: Server, id: nat): nat
  {
    if OnLoop(s, id) then Due(s, id) else 0
  }

  ghost function Completions(s: Server, steps: seq<Step>, id: nat): nat
    requires IsRun(s, steps)
    decreases |steps|
  {
    if steps == [] then 0
    else One(id < |s.conns| && Completes(s, steps[0], id)) + Completions(Apply(s, steps[0]), steps[1..], id)
  }

  ghost function Reported(s: Server, steps: seq<Step>, id: nat): nat
    requires IsRun(s, steps)
    decreases |steps|
  {
    if steps == [] then 0 else One(Reports(s, steps[0], id)) + Reported(Apply(s, steps[0]), steps[1..], id)
  }

  /** A connection that is not made yet, or is made by this step, has nothing to report. */
  lemma NothingDue(s: Server, step: Step, id: nat)
    requires Inv(s) && Enabled(s, step) && id >= |s.conns|
    ensures !Reports(s, step, id) && DueNow(s, id) == 0 && DueNow(Apply(s, step), id) == 0
  {
    if step.RunTask? {
      assert LoopWf(s.loops[step.l], |s.conns|);
    } else if step.NewConnection? {
      assert LoopWf(s.loops[step.io], |s.conns|);
      if id == |s.conns| {
        NeverMentioned(s.loops[step.io].queue, id);
        CountPush(s.loops[step.io].queue, Establish(id));
      }
    }
    hide Inv, Wf, Count, T.SendInLoop, T.HandleWrite;
  }

  lemma {:induction false} RunReports(s: Server, steps: seq<Step>, id: nat)
    requires Inv(s) && Fresh(s) && IsRun(s, steps) && GuardedRun(s, steps)
    ensures DueNow(After(s, steps), id) + Reported(s, steps, id) == DueNow(s, id) + Completions(s, steps, id)
    decreases |steps|
  {
    hide Inv, Fresh, Enabled, Apply, Asserts, Guarded, Due, OnLoop, Completes, Reports;
    if steps != [] {
      AssertsHold(s, steps[0]);
      StepKeepsInv(s, steps[0]);
      StepKeepsFresh(s, steps[0]);
      RunReports(Apply(s, steps[0]), steps[1..], id);
      if id < |s.conns| {
        StepReports(s, steps[0], id);
      } else {
        NothingDue(s, steps[0], id);
      }
    }
  }

  /**
   On every run of LifeCycle's kind: a write-complete functor has run or is queued for each time that a write
   call left nothing to be written on the connection, and for nothing else.
   */
  lemma CompletionAccount(loops: nat, steps: seq<Step>, id: nat)
    requires loops > 0 && IsRun(Initial(loops), steps) && GuardedRun(Initial(loops), steps)
    ensures DueNow(After(Initial(loops), steps), id) + Reported(Initial(loops), steps, id)
         == Completions(Initial(loops), steps, id)
  {
    InitialInv(loops);
    RunReports(Initial(loops), steps, id);
  }
}
