/**
 What the loops of a TcpServer still have to do ends, and brings every closed connection to its
 destruction: the events of the polls under way, the close callbacks and the queued functors, with nothing
 new from polls, users, other threads or peers.
 */
module ServerProgress {
  import T = TcpConnections
  import opened TcpServers
  import opened Totals

  predicate Pending(step: Step)
  {
    step.ReadEvent? || step.WriteEvent? || step.CloseCallback? || step.RunTask?
  }

  predicate AllPending(steps: seq<Step>)
  {
    steps == [] || (Pending(steps[0]) && AllPending(steps[1..]))
  }

  predicate Settled(s: Server)
  {
    forall l :: 0 <= l < |s.loops| ==> AtRest(s.loops[l]) && s.loops[l].queue == []
  }

  //// pending work ////

  /** A functor counts for itself and for the one that it may queue. */
  function TaskWeight(t: Task): nat
  {
    if t.RemoveInLoop? || t.Send? then 2 else 1
  }

  /** A listed channel may still be closed and written to, a frame still hands its connection over. */
  function LoopWeight(x: Loop): nat
  {
    Total(TaskWeight, x.queue) + 6 * |x.active| + (if x.current.WriteEventOf? then 2 else 0) + 3 * |x.closing|
  }

  function Weight(s: Server): nat { Total(LoopWeight, s.loops) }

  lemma LoopChange(s: Server, l: nat, x: Loop)
    requires l < |s.loops|
    ensures Weight(SetLoop(s, l, x)) + LoopWeight(s.loops[l]) == Weight(s) + LoopWeight(x)
  {
    TotalUpdate(LoopWeight, s.loops, l, x);
  }

  lemma PostWeight(s: Server, l: nat, t: Task)
    requires l < |s.loops|
    ensures Weight(Post(s, l, t)) == Weight(s) + TaskWeight(t)
  {
    TotalPush(TaskWeight, s.loops[l].queue, t);
    LoopChange(s, l, s.loops[l].(queue := s.loops[l].queue + [t]));
  }

  lemma EraseWeight(s: Server, id: nat)
    requires id < |s.conns| && s.conns[id].io < |s.loops|
    ensures Weight(DoErase(s, id)) == Weight(s) + 1
  {
    hide Total;
    var r := s.conns[id];
    PostWeight(SetConn(s, id, r.(history := r.history + [Erased])).(connections := s.connections - {id}), r.io,
               Destroy(id));
  }

  lemma CloseWeight(s: Server, id: nat)
    requires id < |s.conns| && s.conns[id].io < |s.loops|
    ensures Weight(DoClose(s, id)) == Weight(s) + 3
  {
    hide Total;
    var io := s.loops[s.conns[id].io];
    LoopChange(s, s.conns[id].io, io.(closing := [id] + io.closing));
  }

  lemma SendWeight(s: Server, id: nat, data: seq<T.Byte>, n: int)
    requires id < |s.conns| && s.conns[id].io < |s.loops| && T.WriteResult(n, |data|)
    ensures Weight(DoSend(s, id, data, n)) <= Weight(s) + 1
  {
    hide Total, T.SendInLoop;
    var r := s.conns[id];
    PostWeight(SetConn(s, id, r.(conn := T.SendInLoop(r.conn, data, n))), r.io, WriteComplete(id));
  }

  lemma WriteWeight(s: Server, id: nat, n: int)
    requires id < |s.conns| && s.conns[id].io < |s.loops| && T.WriteResult(n, |s.conns[id].conn.out|)
    ensures Weight(DoWrite(s, id, n)) <= Weight(s) + 1
  {
    hide Total, T.HandleWrite;
    var r := s.conns[id];
    PostWeight(SetConn(s, id, r.(conn := T.HandleWrite(r.conn, n))), r.io, WriteComplete(id));
  }

  lemma TaskLowersWeight(s: Server, l: nat, n: int)
    requires Wf(s) && Enabled(s, RunTask(l, n))
    ensures Weight(DoTask(s, l, n)) < Weight(s)
  {
    var q := s.loops[l].queue;
    assert Total(TaskWeight, q) == TaskWeight(q[0]) + Total(TaskWeight, q[1..]);
    hide Total, DoSend, DoErase;
    var popped := SetLoop(s, l, s.loops[l].(queue := q[1..]));
    LoopChange(s, l, popped.loops[l]);
    match q[0]
    case RemoveInLoop(id) => EraseWeight(popped, id);
    case Send(id, data) => SendWeight(popped, id, data, n);
    case _ =>
  }

  lemma ReadLowersWeight(s: Server, l: nat, result: ReadResult, alsoWrite: bool)
    requires Wf(s) && Enabled(s, ReadEvent(l, result, alsoWrite))
    ensures Weight(DoRead(s, l, result, alsoWrite)) < Weight(s)
  {
    hide Total, DoClose;
    var x := s.loops[l];
    var x' := x.(active := x.active[1..], current := if alsoWrite then WriteEventOf(x.active[0]) else NoEvent);
    LoopChange(s, l, x');
    CloseWeight(SetLoop(s, l, x'), x.active[0]);
  }

  lemma CallbackLowersWeight(s: Server, l: nat)
    requires Wf(s) && Enabled(s, CloseCallback(l))
    ensures Weight(DoCloseCallback(s, l)) < Weight(s)
  {
    hide Total, DoErase;
    var x := s.loops[l];
    var x' := x.(closing := x.closing[1..]);
    LoopChange(s, l, x');
    EraseWeight(SetLoop(s, l, x'), x.closing[0]);
    PostWeight(SetLoop(s, l, x'), 0, RemoveInLoop(x.closing[0]));
  }

  lemma PendingLowersWeight(s: Server, step: Step)
    requires Wf(s) && Enabled(s, step) && Pending(step)
    ensures Weight(Apply(s, step)) < Weight(s)
  {
    hide Total, DoRead, DoCloseCallback, DoTask, DoWrite;
    match step
    case ReadEvent(l, result, alsoWrite) => ReadLowersWeight(s, l, result, alsoWrite);
    case CloseCallback(l) => CallbackLowersWeight(s, l);
    case RunTask(l, n) => TaskLowersWeight(s, l, n);
    case WriteEvent(l, n) =>
      LoopChange(s, l, s.loops[l].(current := NoEvent));
      WriteWeight(SetLoop(s, l, s.loops[l].(current := NoEvent)), s.loops[l].current.id, n);
  }

  /** Whatever the events and functors do, they cannot go on for ever by themselves. */
  lemma {:induction false} PendingEnds(s: Server, steps: seq<Step>)
    requires IsRun(s, steps) && AllPending(steps)
    ensures |steps| <= Weight(s)
    decreases |steps|
  {
    hide Weight;
    if steps != [] {
      PendingLowersWeight(s, steps[0]);
      PendingEnds(Apply(s, steps[0]), steps[1..]);
    }
  }

  //// it can always go on, and where it ends ////

  /** Some loop has a step to take, here with reads and writes that achieve nothing. */
  lemma SomethingPending(s: Server) returns (step: Step)
    requires Inv(s) && !Settled(s)
    ensures Enabled(s, step) && Pending(step) && Guarded(s, step) && Asserts(s, step)
  {
    hide LoopsOk, ConnOk, DoTask, DoCloseCallback;
    var l: nat :| l < |s.loops| && (!AtRest(s.loops[l]) || s.loops[l].queue != []);
    var x := s.loops[l];
    if x.closing != [] {
      step := CloseCallback(l);
      CloseCallbackKeepsInv(s, l);
    } else if x.current.WriteEventOf? {
      step := WriteEvent(l, -1);
    } else if x.active != [] {
      step := ReadEvent(l, Failed, false);
    } else {
      step := RunTask(l, -1);
      TaskKeepsInv(s, l, -1);
    }
  }

  /** Without a functor or frame left, a connection is open or destroyed. */
  lemma SettledMeans(s: Server, id: nat)
    requires Inv(s) && Settled(s) && id < |s.conns|
    ensures s.conns[id].history == [Established] || s.conns[id].history == LIFECYCLE
  {
    InvIsOrderly(s, id);
    assert ConnOk(s, id);
    HistoryOf(s.conns[id]);
    assert s.conns[id].io < |s.loops| && s.loops[s.conns[id].io].queue == [];
    var h := s.conns[id].history;
    assert |LIFECYCLE| == 4 && (|h| == 1 ==> h == [Established]) by {
      assert h == LIFECYCLE[..|h|];
    }
  }

  /** The connections of s' are those of s, none of them behind where it was. */
  predicate NoneBehind(s: Server, s': Server)
  {
    |s'.conns| == |s.conns|
    && forall id :: 0 <= id < |s.conns| ==> |s.conns[id].history| <= |s'.conns[id].history|
  }

  lemma ClosedThenSettled(s: Server, s': Server, id: nat)
    requires Inv(s) && Inv(s') && Settled(s') && NoneBehind(s, s') && id < |s.conns| && Closed in s.conns[id].history
    ensures s'.conns[id].history == LIFECYCLE && id !in s'.connections && !s'.conns[id].registered
  {
    hide Inv, Settled, Referenced, OneIsDue;
    SettledMeans(s', id);
    InvIsOrderly(s, id);
    InvIsOrderly(s', id);
  }

  lemma HistoryGrows(s: Server, step: Step, id: nat)
    requires Wf(s) && Enabled(s, step) && Pending(step) && id < |s.conns|
    ensures |s.conns| == |Apply(s, step).conns| && |s.conns[id].history| <= |Apply(s, step).conns[id].history|
  {
    hide T.HandleWrite, T.SendInLoop;
    match step
    case RunTask(l, n) =>
    case ReadEvent(l, result, alsoWrite) =>
    case _ =>
  }

  /**
   From every state that satisfies the invariant, so from every reachable one, the pending work can be
   done to its end; then every connection that was closed is destroyed, and out of the map and the poller.
   */
  lemma {:induction false} CanSettle(s: Server) returns (steps: seq<Step>)
    requires Inv(s)
    ensures IsRun(s, steps) && AllPending(steps) && GuardedRun(s, steps)
    ensures var s' := After(s, steps);
            && Inv(s') && Settled(s') && NoneBehind(s, s')
            && forall id :: 0 <= id < |s'.conns| ==>
                 s'.conns[id].history == [Established] || s'.conns[id].history == LIFECYCLE
    decreases Weight(s)
  {
    hide Weight, LoopsOk, ConnOk, Enabled, Apply, Asserts, Guarded, IsRun, After, GuardedRun;
    if Settled(s) {
      steps := [];
      NoSteps(s);
      forall id | 0 <= id < |s.conns|
        ensures s.conns[id].history == [Established] || s.conns[id].history == LIFECYCLE
      {
        SettledMeans(s, id);
      }
    } else {
      var step := SomethingPending(s);
      var s1 := Apply(s, step);
      StepKeepsInv(s, step);
      PendingLowersWeight(s, step);
      var rest := CanSettle(s1);
      OneMore(s, step, rest);
      steps := [step] + rest;
      assert steps[1..] == rest;
      forall id | 0 <= id < |s.conns|
        ensures |s.conns| == |s1.conns| && |s.conns[id].history| <= |s1.conns[id].history|
      {
        HistoryGrows(s, step, id);
      }
      SameCount(s, step);
    }
  }

  lemma SameCount(s: Server, step: Step)
    requires Wf(s) && Enabled(s, step) && Pending(step)
    ensures |Apply(s, step).conns| == |s.conns|
  {}

  /**
   On every run of LifeCycle's kind: whatever has happened, the pending work can bring every connection
   closed by then to its destruction, and the run goes on being of that kind.
   */
  lemma ClosedIsDestroyed(loops: nat, steps: seq<Step>) returns (more: seq<Step>)
    requires loops > 0 && IsRun(Initial(loops), steps) && GuardedRun(Initial(loops), steps)
    ensures var s := After(Initial(loops), steps);
            && IsRun(s, more) && AllPending(more) && GuardedRun(s, more)
            && (var s' := After(s, more);
                && |s'.conns| == |s.conns|
                && forall id :: 0 <= id < |s.conns| && Closed in s.conns[id].history ==>
                     && s'.conns[id].history == LIFECYCLE && id !in s'.connections
                     && !s'.conns[id].registered)
  {
    InitialInv(loops);
    RunKeepsInv(Initial(loops), steps);
    var s := After(Initial(loops), steps);
    more := CanSettle(s);
    var s' := After(s, more);
    hide Inv, Settled, IsRun, After, GuardedRun, Initial;
    forall id | 0 <= id < |s.conns| && Closed in s.conns[id].history
      ensures s'.conns[id].history == LIFECYCLE && id !in s'.connections && !s'.conns[id].registered
    {
      ClosedThenSettled(s, s', id);
    }
  }
}
