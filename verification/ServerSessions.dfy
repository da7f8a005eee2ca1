/**
 Every connection of a TcpServer lives through a Session of TcpConnections: what the server's steps, on
 whichever loop, do to one connection is a run of that system from its start. So what holds of all Sessions
 holds of every connection of every server.
 */
module ServerSessions {
  import L = SessionLaws
  import T = TcpConnections
  import opened TcpServers

  /** What a queue holds of the sends and shutdowns of one connection. */
  function Mine(q: seq<Task>, id: nat): seq<T.Task>
  {
    if q == [] then []
    else
      (match q[0]
       case Send(i, data) => if i == id then [T.Send(data)] else []
       case Shutdown(i) => if i == id then [T.Task.Shutdown] else []
       case _ => []) + Mine(q[1..], id)
  }

  predicate HasLoop(s: Server, id: nat)
  {
    id < |s.conns| ==> s.conns[id].io < |s.loops|
  }

  /** The Session that connection id is in; a connection not made yet is at the start. */
  function SessionOf(s: Server, id: nat): T.Session
    requires HasLoop(s, id)
  {
    if id < |s.conns| then
      var r := s.conns[id];
      T.Session(r.conn, Mine(s.loops[r.io].queue, id), r.sending, r.shutting)
    else T.START
  }

  /** What a step of the server is for connection id: one step of its Session or none. */
  function StepsOf(s: Server, step: Step, id: nat): seq<T.Step>
    requires Wf(s) && Enabled(s, step)
  {
    match step
    case NewConnection(io) => if id == |s.conns| && io == 0 then [T.Establish] else []
    case Poll(_, _) => []
    case ReadEvent(l, result, _) => if result.EndOfFile? && s.loops[l].active[0] == id then [T.Close] else []
    case WriteEvent(l, n) => if s.loops[l].current.id == id then [T.Writable(n)] else []
    case CloseCallback(_) => []
    case RunTask(l, n) =>
      (match s.loops[l].queue[0]
       case Establish(i) => if i == id then [T.Establish] else []
       case Send(i, _) => if i == id then [T.RunTask(n)] else []
       case Shutdown(i) => if i == id then [T.RunTask(n)] else []
       case _ => [])
    case UserSend(i, data, n) => if i == id then [T.LoopSend(data, n)] else []
    case UserShutdown(i) => if i == id then [T.LoopShutdown] else []
    case UserForceClose(i) => if i == id && T.Open(s.conns[i].conn) then [T.Close] else []
    case TestSend(i, data) => if i == id then [T.TestSend(data)] else []
    case PushSend(i, k) => if i == id then [T.PushSend(k)] else []
    case TestShutdown(i) => if i == id then [T.TestShutdown] else []
    case PushShutdown(i) => if i == id then [T.PushShutdown] else []
  }

  ghost predicate Takes(a: T.Session, steps: seq<T.Step>, b: T.Session)
  {
    T.IsRun(a, steps) && T.After(a, steps) == b
  }

  lemma TakesOne(a: T.Session, step: T.Step)
    requires T.Enabled(a, step)
    ensures Takes(a, [step], T.Apply(a, step))
  {
    T.OneMore(a, step, []);
    assert [step] + [] == [step];
  }

  lemma TakesNone(a: T.Session)
    ensures Takes(a, [], a)
  {}

  /** The steps lead the Session of id from what it is in s to what it is in s'. */
  ghost predicate Refines(s: Server, steps: seq<T.Step>, s': Server, id: nat)
  {
    HasLoop(s, id) && HasLoop(s', id) && Takes(SessionOf(s, id), steps, SessionOf(s', id))
  }

  lemma TakenOne(a: T.Session, step: T.Step, b: T.Session)
    requires Takes(a, [step], b)
    ensures T.Enabled(a, step) && T.Apply(a, step) == b
  {
    assert [step][1..] == [];
    assert T.After(T.Apply(a, step), []) == T.Apply(a, step);
  }

  lemma LoopExists(s: Server, id: nat)
    requires Inv(s)
    ensures Wf(s) && HasLoop(s, id)
  {}

  //// queues ////

  lemma {:induction false} MinePush(q: seq<Task>, t: Task, id: nat)
    ensures Mine(q + [t], id) == Mine(q, id) + Mine([t], id)
  {
    if q == [] {
      assert [] + [t] == [t];
    } else {
      assert (q + [t])[1..] == q[1..] + [t];
      MinePush(q[1..], t, id);
    }
  }

  lemma MineOne(t: Task, id: nat)
    ensures Mine([t], id) == match t
                             case Send(i, data) => if i == id then [T.Send(data)] else []
                             case Shutdown(i) => if i == id then [T.Task.Shutdown] else []
                             case _ => []
  {
    assert [t][1..] == [];
  }

  lemma {:induction false} MineNone(q: seq<Task>, id: nat)
    requires forall i :: 0 <= i < |q| ==> q[i].id < id
    ensures Mine(q, id) == []
  {
    if q != [] {
      MineNone(q[1..], id);
    }
  }

  lemma PostSession(s: Server, l: nat, t: Task, id: nat)
    requires l < |s.loops| && HasLoop(s, id) && id < |s.conns|
    ensures HasLoop(Post(s, l, t), id)
    ensures var a, more := SessionOf(s, id), if l == s.conns[id].io then Mine([t], id) else [];
            SessionOf(Post(s, l, t), id) == a.(queue := a.queue + more)
  {
    MinePush(s.loops[l].queue, t, id);
  }

  lemma PopSession(s: Server, l: nat, id: nat)
    requires l < |s.loops| && s.loops[l].queue != [] && HasLoop(s, id) && id < |s.conns|
    ensures var popped := SetLoop(s, l, s.loops[l].(queue := s.loops[l].queue[1..]));
            var a, b, head := SessionOf(s, id), SessionOf(popped, id), Mine([s.loops[l].queue[0]], id);
            b == a.(queue := b.queue) && a.queue == if l == s.conns[id].io then head + b.queue else b.queue
  {
    MineOne(s.loops[l].queue[0], id);
  }

  //// the code ////

  lemma SendSession(s: Server, i: nat, data: seq<T.Byte>, n: int, id: nat)
    requires i < |s.conns| && HasLoop(s, i) && T.WriteResult(n, |data|) && id < |s.conns| && HasLoop(s, id)
    ensures var s', a := DoSend(s, i, data, n), SessionOf(s, id);
            && HasLoop(s', id)
            && SessionOf(s', id) == if i == id then a.(conn := T.SendInLoop(a.conn, data, n)) else a
  {
    hide T.SendInLoop, T.SendCompletes;
    var r := s.conns[i];
    PostSession(SetConn(s, i, r.(conn := T.SendInLoop(r.conn, data, n))), r.io, WriteComplete(i), id);
    MineOne(WriteComplete(i), id);
  }

  lemma WriteSession(s: Server, i: nat, n: int, id: nat)
    requires i < |s.conns| && HasLoop(s, i) && T.WriteResult(n, |s.conns[i].conn.out|)
    requires id < |s.conns| && HasLoop(s, id)
    ensures var s', a := DoWrite(s, i, n), SessionOf(s, id);
            HasLoop(s', id) && SessionOf(s', id) == if i == id then a.(conn := T.HandleWrite(a.conn, n)) else a
  {
    hide T.HandleWrite, T.WriteCompletes;
    var r := s.conns[i];
    PostSession(SetConn(s, i, r.(conn := T.HandleWrite(r.conn, n))), r.io, WriteComplete(i), id);
    MineOne(WriteComplete(i), id);
  }

  lemma EraseSession(s: Server, i: nat, id: nat)
    requires i < |s.conns| && HasLoop(s, i) && id < |s.conns| && HasLoop(s, id)
    ensures HasLoop(DoErase(s, i), id) && SessionOf(DoErase(s, i), id) == SessionOf(s, id)
  {
    var r := s.conns[i];
    var erased := SetConn(s, i, r.(history := r.history + [Erased])).(connections := s.connections - {i});
    PostSession(erased, r.io, Destroy(i), id);
    MineOne(Destroy(i), id);
  }

  /** A functor of the connection is in the queue of its own loop, and acts on the connection as it is. */
  lemma TaskPlace(s: Server, l: nat)
    requires Inv(s) && l < |s.loops| && s.loops[l].queue != []
    ensures var t := s.loops[l].queue[0];
            && t.id < |s.conns| && HasLoop(s, t.id)
            && (t.Send? || t.Shutdown? ==> l == s.conns[t.id].io)
            && (t.Establish? ==> s.conns[t.id].conn.phase.Connecting?)
            && (t.Destroy? ==> s.conns[t.id].conn.phase.Disconnected?)
  {
    hide Count, Ordered;
    assert LoopWf(s.loops[l], |s.conns|);
    var t := s.loops[l].queue[0];
    assert ConnOk(s, t.id);
    assert QueueOk(s.loops[l].queue, l, t.id, s.conns[t.id]);
    CountIn(s.loops[l].queue, Establish(t.id));
    CountIn(s.loops[l].queue, Destroy(t.id));
    assert t in s.loops[l].queue;
  }

  lemma SendTaskRefines(s: Server, l: nat, n: int, id: nat)
    requires Inv(s) && Enabled(s, RunTask(l, n)) && id < |s.conns| && s.loops[l].queue[0].Send?
    ensures Refines(s, StepsOf(s, RunTask(l, n), id), DoTask(s, l, n), id)
  {
    LoopExists(s, id);
    hide Inv, Wf, Takes, Mine, DoSend, T.SendInLoop;
    TaskPlace(s, l);
    var t := s.loops[l].queue[0];
    var a := SessionOf(s, id);
    PopSession(s, l, id);
    MineOne(t, id);
    SendSession(SetLoop(s, l, s.loops[l].(queue := s.loops[l].queue[1..])), t.id, t.data, n, id);
    TakesNone(a);
    if t.id == id {
      TakesOne(a, T.RunTask(n));
    }
  }

  lemma ShutdownTaskRefines(s: Server, l: nat, n: int, id: nat)
    requires Inv(s) && Enabled(s, RunTask(l, n)) && id < |s.conns| && s.loops[l].queue[0].Shutdown?
    ensures Refines(s, StepsOf(s, RunTask(l, n), id), DoTask(s, l, n), id)
  {
    LoopExists(s, id);
    hide Inv, Wf, Takes, Mine, T.ShutdownInLoop;
    TaskPlace(s, l);
    var t := s.loops[l].queue[0];
    var a := SessionOf(s, id);
    PopSession(s, l, id);
    MineOne(t, id);
    TakesNone(a);
    if t.id == id {
      TakesOne(a, T.RunTask(n));
    }
  }

  /** The functors of the life cycle: only Establish is a step of the Session. */
  lemma LifeTaskRefines(s: Server, l: nat, n: int, id: nat)
    requires Inv(s) && Enabled(s, RunTask(l, n)) && id < |s.conns|
    requires !s.loops[l].queue[0].Send? && !s.loops[l].queue[0].Shutdown?
    ensures Refines(s, StepsOf(s, RunTask(l, n), id), DoTask(s, l, n), id)
  {
    LoopExists(s, id);
    hide Inv, Wf, Takes, Mine, DoErase;
    TaskPlace(s, l);
    var t := s.loops[l].queue[0];
    var a := SessionOf(s, id);
    PopSession(s, l, id);
    MineOne(t, id);
    TakesNone(a);
    match t
    case Establish(i) => if i == id { TakesOne(a, T.Establish); }
    case RemoveInLoop(i) => EraseSession(SetLoop(s, l, s.loops[l].(queue := s.loops[l].queue[1..])), i, id);
    case _ =>
  }

  lemma TaskRefines(s: Server, l: nat, n: int, id: nat)
    requires Inv(s) && Enabled(s, RunTask(l, n)) && id < |s.conns|
    ensures Refines(s, StepsOf(s, RunTask(l, n), id), DoTask(s, l, n), id)
  {
    hide Inv, Refines, StepsOf, DoTask;
    match s.loops[l].queue[0]
    case Send(_, _) => SendTaskRefines(s, l, n, id);
    case Shutdown(_) => ShutdownTaskRefines(s, l, n, id);
    case _ => LifeTaskRefines(s, l, n, id);
  }

  /** The connection that is made: at the start, or established at once. */
  lemma NewestRefines(s: Server, io: nat)
    requires Inv(s) && Enabled(s, NewConnection(io))
    ensures Refines(s, StepsOf(s, NewConnection(io), |s.conns|), DoNewConnection(s, io), |s.conns|)
  {
    LoopExists(s, |s.conns|);
    assert LoopWf(s.loops[io], |s.conns|);
    hide Inv, Wf, LoopWf, Takes, Mine;
    var newest: nat, q := |s.conns|, s.loops[io].queue;
    MineNone(q, newest);
    MinePush(q, Establish(newest), newest);
    MineOne(Establish(newest), newest);
    TakesNone(T.START);
    if io == 0 {
      TakesOne(T.START, T.Establish);
    }
  }

  lemma NewKeepsOthers(s: Server, io: nat, id: nat)
    requires Inv(s) && Enabled(s, NewConnection(io)) && id < |s.conns|
    ensures Refines(s, [], DoNewConnection(s, io), id)
  {
    LoopExists(s, id);
    hide Inv, Wf, Takes, Mine;
    var newest: nat := |s.conns|;
    var added := s.(conns := s.conns + [NewRecord(io)], connections := s.connections + {newest});
    PostSession(added, io, Establish(newest), id);
    MineOne(Establish(newest), id);
    TakesNone(SessionOf(s, id));
  }

  lemma ReadRefines(s: Server, l: nat, result: ReadResult, alsoWrite: bool, id: nat)
    requires Inv(s) && Enabled(s, ReadEvent(l, result, alsoWrite)) && Asserts(s, ReadEvent(l, result, alsoWrite))
    requires id < |s.conns|
    ensures Refines(s, StepsOf(s, ReadEvent(l, result, alsoWrite), id), DoRead(s, l, result, alsoWrite), id)
  {
    assert HasLoop(s, id);
    assert LoopWf(s.loops[l], |s.conns|);
    var a := SessionOf(s, id);
    hide Inv, Takes, Mine;
    TakesNone(a);
    if result.EndOfFile? && s.loops[l].active[0] == id {
      TakesOne(a, T.Close);
    }
  }

  lemma WriteEventRefines(s: Server, l: nat, n: int, id: nat)
    requires Inv(s) && Enabled(s, WriteEvent(l, n)) && id < |s.conns|
    ensures Refines(s, StepsOf(s, WriteEvent(l, n), id), Apply(s, WriteEvent(l, n)), id)
  {
    assert HasLoop(s, id);
    var i, s' := s.loops[l].current.id, SetLoop(s, l, s.loops[l].(current := NoEvent));
    assert HasLoop(s, i);
    var a := SessionOf(s, id);
    WriteSession(s', i, n, id);
    hide Inv, Takes, Mine, DoWrite, T.HandleWrite;
    TakesNone(a);
    if i == id {
      TakesOne(a, T.Writable(n));
    }
  }

  lemma CallbackRefines(s: Server, l: nat, id: nat)
    requires Inv(s) && Enabled(s, CloseCallback(l)) && id < |s.conns|
    ensures Refines(s, [], DoCloseCallback(s, l), id)
  {
    LoopExists(s, id);
    hide Inv, Wf, Mine;
    var i, popped := PopFrame(s, l);
    EraseSession(popped, i, id);
    PostSession(popped, 0, RemoveInLoop(i), id);
    MineOne(RemoveInLoop(i), id);
    TakesNone(SessionOf(s, id));
  }

  /** What users call on the loop thread, and what other threads test. */
  lemma UserSendRefines(s: Server, i: nat, data: seq<T.Byte>, n: int, id: nat)
    requires Inv(s) && Enabled(s, UserSend(i, data, n)) && id < |s.conns|
    ensures Refines(s, StepsOf(s, UserSend(i, data, n), id), Apply(s, UserSend(i, data, n)), id)
  {
    LoopExists(s, id);
    LoopExists(s, i);
    hide Inv, Wf, Takes, Mine, DoSend, T.SendInLoop;
    var a := SessionOf(s, id);
    SendSession(s, i, data, n, id);
    TakesNone(a);
    if i == id {
      TakesOne(a, T.LoopSend(data, n));
    }
  }

  lemma UserRefines(s: Server, step: Step, id: nat)
    requires Inv(s) && Enabled(s, step) && id < |s.conns|
    requires step.UserShutdown? || step.UserForceClose? || step.TestSend? || step.TestShutdown?
    ensures Refines(s, StepsOf(s, step, id), Apply(s, step), id)
  {
    var i := step.id;
    LoopExists(s, id);
    LoopExists(s, i);
    hide Inv, Wf, Takes, Mine, T.ShutdownInLoop;
    var a := SessionOf(s, id);
    TakesNone(a);
    if StepsOf(s, step, id) != [] {
      TakesOne(a, StepsOf(s, step, id)[0]);
    }
  }

  lemma PushSession(s: Server, i: nat, r: Record, t: Task, id: nat)
    requires Inv(s) && i < |s.conns| && id < |s.conns| && t.id == i && HasLoop(s, i) && HasLoop(s, id)
    requires r.io == s.conns[i].io && r.conn == s.conns[i].conn
    ensures var s', a := Post(SetConn(s, i, r), r.io, t), SessionOf(s, id);
            && HasLoop(s', id)
            && SessionOf(s', id)
               == if i == id then a.(queue := a.queue + Mine([t], id), sending := r.sending, shutting := r.shutting)
                  else a
  {
    PostSession(SetConn(s, i, r), r.io, t, id);
    MineOne(t, id);
    hide Inv, Mine;
  }

  lemma PushSendRefines(s: Server, i: nat, k: nat, id: nat)
    requires Inv(s) && Enabled(s, PushSend(i, k)) && id < |s.conns|
    ensures Refines(s, StepsOf(s, PushSend(i, k), id), Apply(s, PushSend(i, k)), id)
  {
    assert HasLoop(s, id) && HasLoop(s, i);
    var r, a := s.conns[i], SessionOf(s, id);
    var t := Send(i, r.sending[k]);
    PushSession(s, i, Sent(r, k), t, id);
    MineOne(t, id);
    hide Inv, Takes, Mine;
    TakesNone(a);
    if i == id {
      TakesOne(a, T.PushSend(k));
    }
  }

  lemma PushShutdownRefines(s: Server, i: nat, id: nat)
    requires Inv(s) && Enabled(s, PushShutdown(i)) && id < |s.conns|
    ensures Refines(s, StepsOf(s, PushShutdown(i), id), Apply(s, PushShutdown(i)), id)
  {
    assert HasLoop(s, id) && HasLoop(s, i);
    var r, a := s.conns[i], SessionOf(s, id);
    PushSession(s, i, r.(shutting := r.shutting - 1), Shutdown(i), id);
    MineOne(Shutdown(i), id);
    hide Inv, Takes, Mine;
    TakesNone(a);
    if i == id {
      TakesOne(a, T.PushShutdown);
    }
  }

  lemma StepRefines(s: Server, step: Step, id: nat)
    requires Inv(s) && Enabled(s, step) && Asserts(s, step) && id < |Apply(s, step).conns|
    ensures Refines(s, StepsOf(s, step, id), Apply(s, step), id)
  {
    assert HasLoop(s, id);
    hide Inv, Takes, SessionOf, DoTask, DoNewConnection, DoRead, DoCloseCallback, DoWrite, DoSend, DoClose, DoShutdown;
    match step
    case NewConnection(io) => if id == |s.conns| { NewestRefines(s, io); } else { NewKeepsOthers(s, io, id); }
    case Poll(l, ids) => PollKeepsSession(s, l, ids, id);
    case ReadEvent(l, result, alsoWrite) => ReadRefines(s, l, result, alsoWrite, id);
    case WriteEvent(l, n) => WriteEventRefines(s, l, n, id);
    case CloseCallback(l) =>
      CallbackRefines(s, l, id);
    case RunTask(l, n) => TaskRefines(s, l, n, id);
    case UserSend(i, data, n) => UserSendRefines(s, i, data, n, id);
    case PushSend(i, k) => PushSendRefines(s, i, k, id);
    case PushShutdown(i) => PushShutdownRefines(s, i, id);
    case _ => UserRefines(s, step, id);
  }

  lemma PollKeepsSession(s: Server, l: nat, ids: seq<nat>, id: nat)
    requires Inv(s) && Enabled(s, Poll(l, ids)) && id < |s.conns|
    ensures Refines(s, [], Apply(s, Poll(l, ids)), id)
  {
    assert HasLoop(s, id);
    TakesNone(SessionOf(s, id));
  }

  //// runs ////

  ghost function AllStepsOf(s: Server, steps: seq<Step>, id: nat): seq<T.Step>
    requires IsRun(s, steps)
    decreases |steps|
  {
    if steps == [] then [] else StepsOf(s, steps[0], id) + AllStepsOf(Apply(s, steps[0]), steps[1..], id)
  }

  lemma RefinesMore(s: Server, first: seq<T.Step>, s1: Server, rest: seq<T.Step>, s2: Server, id: nat)
    requires |first| <= 1 && Refines(s, first, s1, id) && Refines(s1, rest, s2, id)
    ensures Refines(s, first + rest, s2, id)
  {
    if first == [] {
      assert first + rest == rest;
    } else {
      assert first == [first[0]];
      TakenOne(SessionOf(s, id), first[0], SessionOf(s1, id));
      T.OneMore(SessionOf(s, id), first[0], rest);
    }
  }

  lemma NamesExisting(s: Server, step: Step)
    requires Inv(s) && Enabled(s, step)
    ensures forall id: nat :: StepsOf(s, step, id) != [] ==> id < |Apply(s, step).conns|
  {
    hide T.SendInLoop, T.HandleWrite, ConnOk;
    match step
    case RunTask(l, n) => TaskPlace(s, l);
    case ReadEvent(l, _, _) => assert LoopWf(s.loops[l], |s.conns|);
    case WriteEvent(l, n) => assert LoopWf(s.loops[l], |s.conns|);
    case _ =>
  }

  /** Before it is made, a connection is at the start of its Session. */
  lemma NotMadeYet(s: Server, step: Step, id: nat)
    requires Inv(s) && Enabled(s, step) && Asserts(s, step) && id >= |Apply(s, step).conns|
    ensures Refines(s, StepsOf(s, step, id), Apply(s, step), id)
  {
    NamesExisting(s, step);
    TakesNone(T.START);
    hide T.SendInLoop, T.HandleWrite, ConnOk, Takes;
  }

  lemma AtMostOne(s: Server, step: Step, id: nat)
    requires Wf(s) && Enabled(s, step)
    ensures |StepsOf(s, step, id)| <= 1
  {}

  lemma {:induction false} RunRefines(s: Server, steps: seq<Step>, id: nat)
    requires Inv(s) && Fresh(s) && IsRun(s, steps) && GuardedRun(s, steps)
    ensures Refines(s, AllStepsOf(s, steps, id), After(s, steps), id)
    decreases |steps|
  {
    hide Inv, Fresh, Enabled, Apply, Asserts, Guarded, Refines, StepsOf;
    if steps == [] {
      NoStepRefines(s, id);
    } else {
      var s' := Apply(s, steps[0]);
      AssertsHold(s, steps[0]);
      StepKeepsInv(s, steps[0]);
      StepKeepsFresh(s, steps[0]);
      RunRefines(s', steps[1..], id);
      AtMostOne(s, steps[0], id);
      if id < |s'.conns| {
        StepRefines(s, steps[0], id);
      } else {
        NotMadeYet(s, steps[0], id);
      }
      RefinesMore(s, StepsOf(s, steps[0], id), s', AllStepsOf(s', steps[1..], id), After(s, steps), id);
    }
  }

  lemma NoStepRefines(s: Server, id: nat)
    requires Inv(s)
    ensures Refines(s, [], s, id)
  {
    assert HasLoop(s, id);
    TakesNone(SessionOf(s, id));
  }

  /**
   On every run of LifeCycle's kind, what has happened to a connection on all loops and by all threads is a
   run of a Session from its start, with the connection, its queued functors and the calls under way as its
   state.
   */
  lemma EveryConnectionIsASession(loops: nat, steps: seq<Step>, id: nat)
    requires loops > 0 && IsRun(Initial(loops), steps) && GuardedRun(Initial(loops), steps)
    ensures var s, own := After(Initial(loops), steps), AllStepsOf(Initial(loops), steps, id);
            HasLoop(s, id) && T.IsRun(T.START, own) && T.After(T.START, own) == SessionOf(s, id)
  {
    InitialInv(loops);
    hide Inv, Fresh;
    RunRefines(Initial(loops), steps, id);
  }

  /**
   So the socket of every connection has got exactly as many bytes as its write calls have reported: the first
   of all that was sent on it, in the order in which its loop took them, and the rest is buffered; and every
   SHUT_WR before its close found the buffer empty.
   */
  lemma ConnectionBytes(loops: nat, steps: seq<Step>, id: nat)
    requires loops > 0 && IsRun(Initial(loops), steps) && GuardedRun(Initial(loops), steps)
    requires id < |After(Initial(loops), steps).conns|
    ensures var c, own := After(Initial(loops), steps).conns[id].conn, AllStepsOf(Initial(loops), steps, id);
            && T.IsRun(T.START, own)
            && (var sent, k := L.AllTaken(T.START, own), L.AllReported(T.START, own);
                k <= |sent| && c.written == sent[..k] && c.out == sent[k..])
            && (!c.phase.Disconnected? ==> forall j :: 0 <= j < |c.shuts| ==> c.shuts[j] == 0)
  {
    EveryConnectionIsASession(loops, steps, id);
    var own := AllStepsOf(Initial(loops), steps, id);
    hide IsRun, After, T.IsRun, T.After, L.AllTaken, L.AllReported, AllStepsOf;
    L.WrittenIsReported(own);
    T.DrainedBeforeShutdown(own);
  }
}
