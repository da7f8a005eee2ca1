/**
 Accounts of a Session: what its connection has accepted, written and shut down, and what waits in between,
 as totals over the steps of the run. They fix what each step does to the bytes without saying how.
 */
module SessionLaws {
  import opened TcpConnections

  //// bytes ////

  /** The bytes that the step's call of sendInLoop takes. */
  function Taken(s: Session, step: Step): seq<Byte>
    requires Enabled(s, step)
  {
    match step
    case LoopSend(data, _) => if s.conn.phase.Connected? then data else []
    case RunTask(_) => if s.queue[0].Send? && Open(s.conn) then s.queue[0].data else []
    case _ => []
  }

  function Natural(n: int): nat { if n > 0 then n else 0 }

  /** What the step's write call reports, if it makes one and it succeeds. */
  function Reported(s: Session, step: Step): nat
    requires Enabled(s, step)
  {
    match step
    case LoopSend(_, n) => if s.conn.phase.Connected? && s.conn.out == [] then Natural(n) else 0
    case RunTask(n) => if s.queue[0].Send? && Open(s.conn) && s.conn.out == [] then Natural(n) else 0
    case Writable(n) => if Open(s.conn) && s.conn.out != [] then Natural(n) else 0
    case _ => 0
  }

  ghost function AllTaken(s: Session, steps: seq<Step>): seq<Byte>
    requires IsRun(s, steps)
    decreases |steps|
  {
    if steps == [] then [] else Taken(s, steps[0]) + AllTaken(Apply(s, steps[0]), steps[1..])
  }

  ghost function AllReported(s: Session, steps: seq<Step>): nat
    requires IsRun(s, steps)
    decreases |steps|
  {
    if steps == [] then 0 else Reported(s, steps[0]) + AllReported(Apply(s, steps[0]), steps[1..])
  }

  lemma StepMovesBytes(s: Session, step: Step)
    requires Inv(s) && Enabled(s, step)
    ensures var c := Apply(s, step).conn;
            c.accepted == s.conn.accepted + Taken(s, step) && |c.written| == |s.conn.written| + Reported(s, step)
  {
    hide SendInLoop, HandleWrite;
    assert s.conn.accepted + [] == s.conn.accepted;
    match step
    case LoopSend(data, n) =>
      if s.conn.phase.Connected? {
        SendKeeps(s.conn, data, n);
        SendWrites(s.conn, data, n);
      }
    case RunTask(n) =>
      if s.queue[0].Send? {
        SendKeeps(s.conn, s.queue[0].data, n);
        SendWrites(s.conn, s.queue[0].data, n);
      }
    case Writable(n) =>
      WriteKeeps(s.conn, n);
      WriteWrites(s.conn, n);
    case _ =>
  }

  lemma {:induction false} RunMovesBytes(s: Session, steps: seq<Step>)
    requires Inv(s) && IsRun(s, steps)
    ensures var c := After(s, steps).conn;
            && c.accepted == s.conn.accepted + AllTaken(s, steps)
            && |c.written| == |s.conn.written| + AllReported(s, steps)
    decreases |steps|
  {
    hide Inv, Enabled, Apply;
    if steps == [] {
      assert s.conn.accepted + [] == s.conn.accepted;
    } else {
      var s' := Apply(s, steps[0]);
      StepKeepsInv(s, steps[0]);
      StepMovesBytes(s, steps[0]);
      RunMovesBytes(s', steps[1..]);
      var first, rest := Taken(s, steps[0]), AllTaken(s', steps[1..]);
      assert s.conn.accepted + first + rest == s.conn.accepted + (first + rest);
    }
  }

  lemma StartKeepsInv()
    ensures Inv(START)
  {}

  lemma StartAccount(s: Session, sent: seq<Byte>, k: nat)
    requires Inv(s) && s.conn.accepted == [] + sent && |s.conn.written| == 0 + k
    ensures k <= |sent| && s.conn.written == sent[..k] && s.conn.out == sent[k..]
  {
    var written, out := s.conn.written, s.conn.out;
    assert [] + sent == sent;
    assert written + out == sent;
  }

  /**
   On every run from the start: the socket has got exactly as many bytes as its write calls have reported,
   they are the first ones of all that was sent in the order in which it was taken, and the rest is buffered.
   */
  lemma WrittenIsReported(steps: seq<Step>)
    requires IsRun(START, steps)
    ensures var c, sent, k := After(START, steps).conn, AllTaken(START, steps), AllReported(START, steps);
            k <= |sent| && c.written == sent[..k] && c.out == sent[k..]
  {
    var s, sent, k := After(START, steps), AllTaken(START, steps), AllReported(START, steps);
    hide IsRun, After, Inv, ConnInv, AllTaken, AllReported;
    assert Inv(START) by { StartKeepsInv(); }
    RunKeepsInv(START, steps);
    RunMovesBytes(START, steps);
    StartAccount(s, sent, k);
  }

  //// functors of other threads ////

  function Tested(s: Session, step: Step): seq<seq<Byte>>
    requires Enabled(s, step)
  {
    if step.TestSend? && s.conn.phase.Connected? then [step.data] else []
  }

  function Queued(s: Session, step: Step): seq<Task>
    requires Enabled(s, step)
  {
    match step
    case PushSend(i) => [Send(s.sending[i])]
    case PushShutdown => [Task.Shutdown]
    case _ => []
  }

  function Run(s: Session, step: Step): seq<Task>
    requires Enabled(s, step)
  {
    if step.RunTask? then [s.queue[0]] else []
  }

  ghost function AllTested(s: Session, steps: seq<Step>): seq<seq<Byte>>
    requires IsRun(s, steps)
    decreases |steps|
  {
    if steps == [] then [] else Tested(s, steps[0]) + AllTested(Apply(s, steps[0]), steps[1..])
  }

  ghost function AllQueued(s: Session, steps: seq<Step>): seq<Task>
    requires IsRun(s, steps)
    decreases |steps|
  {
    if steps == [] then [] else Queued(s, steps[0]) + AllQueued(Apply(s, steps[0]), steps[1..])
  }

  ghost function AllRun(s: Session, steps: seq<Step>): seq<Task>
    requires IsRun(s, steps)
    decreases |steps|
  {
    if steps == [] then [] else Run(s, steps[0]) + AllRun(Apply(s, steps[0]), steps[1..])
  }

  function Sends(tasks: seq<Task>): seq<seq<Byte>>
  {
    if tasks == [] then [] else (if tasks[0].Send? then [tasks[0].data] else []) + Sends(tasks[1..])
  }

  lemma Regroup<A>(a: seq<A>, b: seq<A>, c: seq<A>)
    ensures a + b + c == a + (b + c)
  {}

  /** Functors run in the order in which they were queued, and none is lost. */
  lemma {:induction false} QueueIsFifo(s: Session, steps: seq<Step>)
    requires IsRun(s, steps)
    ensures s.queue + AllQueued(s, steps) == AllRun(s, steps) + After(s, steps).queue
    decreases |steps|
  {
    if steps == [] {
      assert s.queue + [] == [] + s.queue;
    } else {
      var s' := Apply(s, steps[0]);
      QueueIsFifo(s', steps[1..]);
      var q, r := Queued(s, steps[0]), Run(s, steps[0]);
      assert s.queue + q == r + s'.queue;
      Regroup(s.queue, q, AllQueued(s', steps[1..]));
      Regroup(r, s'.queue, AllQueued(s', steps[1..]));
      Regroup(r, AllRun(s', steps[1..]), After(s, steps).queue);
    }
  }

  lemma SendsOfOne(task: Task)
    ensures Sends([task]) == if task.Send? then [task.data] else []
  {
    assert [task][1..] == [];
  }

  lemma {:induction false} SendsConcat(a: seq<Task>, b: seq<Task>)
    ensures Sends(a + b) == Sends(a) + Sends(b)
  {
    if a == [] {
      assert a + b == b;
    } else {
      assert (a + b)[1..] == a[1..] + b;
      SendsConcat(a[1..], b);
    }
  }

  lemma StepKeepsSends(s: Session, step: Step)
    requires Enabled(s, step)
    ensures multiset(s.sending) + multiset(Tested(s, step))
         == multiset(Apply(s, step).sending) + multiset(Sends(Queued(s, step)))
  {
    if step.PushSend? {
      var i := step.i;
      SendsOfOne(Send(s.sending[i]));
      assert s.sending == s.sending[..i] + [s.sending[i]] + s.sending[i + 1..];
    } else if step.PushShutdown? {
      SendsOfOne(Task.Shutdown);
    }
  }

  lemma Exchange<A>(a: multiset<A>, b: multiset<A>, c: multiset<A>, d: multiset<A>, b': multiset<A>,
                    d': multiset<A>, last: multiset<A>)
    requires a + b == c + d && c + b' == last + d'
    ensures a + (b + b') == last + (d + d')
  {
    forall x: A
      ensures (a + (b + b'))[x] == (last + (d + d'))[x]
    {
      assert (a + b)[x] == (c + d)[x] && (c + b')[x] == (last + d')[x];
    }
  }

  /** Every message that passed the test of send() is on its way to the queue or was queued, once. */
  lemma {:induction false} SendsAreQueued(s: Session, steps: seq<Step>)
    requires IsRun(s, steps)
    ensures multiset(s.sending) + multiset(AllTested(s, steps))
         == multiset(After(s, steps).sending) + multiset(Sends(AllQueued(s, steps)))
    decreases |steps|
  {
    hide Enabled, Apply, Tested, Queued;
    if steps != [] {
      var s' := Apply(s, steps[0]);
      var tested, queued := Tested(s, steps[0]), Queued(s, steps[0]);
      var later, laterQueued := AllTested(s', steps[1..]), AllQueued(s', steps[1..]);
      SendsAreQueued(s', steps[1..]);
      StepKeepsSends(s, steps[0]);
      SendsConcat(queued, laterQueued);
      Exchange(multiset(s.sending), multiset(tested), multiset(s'.sending), multiset(Sends(queued)),
               multiset(later), multiset(Sends(laterQueued)), multiset(After(s, steps).sending));
      assert multiset(tested + later) == multiset(tested) + multiset(later);
    }
  }

  //// the state and shutdown ////

  /** The state as send, shutdown and handleClose see it. */
  function NextPhase(p: Phase, step: Step): Phase
  {
    match step
    case Establish => Connected
    case LoopShutdown => if p.Connected? then Disconnecting else p
    case TestShutdown => if p.Connected? then Disconnecting else p
    case Close => Disconnected
    case _ => p
  }

  function PhaseAfter(p: Phase, steps: seq<Step>): Phase
    decreases |steps|
  {
    if steps == [] then p else PhaseAfter(NextPhase(p, steps[0]), steps[1..])
  }

  lemma {:induction false} PhaseFollowsCalls(s: Session, steps: seq<Step>)
    requires IsRun(s, steps)
    ensures After(s, steps).conn.phase == PhaseAfter(s.conn.phase, steps)
    decreases |steps|
  {
    if steps != [] {
      PhaseFollowsCalls(Apply(s, steps[0]), steps[1..]);
    }
  }

  predicate ShutdownAsked(steps: seq<Step>)
  {
    steps != [] && (steps[0].LoopShutdown? || steps[0].TestShutdown? || ShutdownAsked(steps[1..]))
  }

  /** A shutdown on its way: not yet queued, queued, or waiting for the buffer to drain. */
  predicate ShutdownComing(s: Session)
  {
    s.shutting > 0 || Task.Shutdown in s.queue || s.conn.out != []
  }

  predicate ShutdownInv(s: Session)
  {
    s.conn.phase.Disconnecting? ==> ShutdownComing(s) || s.conn.shuts != []
  }

  lemma InAppend(q: seq<Task>, t: Task, u: Task)
    ensures t in q + [u] <==> t in q || t == u
  {}

  lemma InPopped(q: seq<Task>, t: Task)
    requires q != []
    ensures t in q <==> t == q[0] || t in q[1..]
  {
    assert q == [q[0]] + q[1..];
  }

  lemma StepKeepsShutdown(s: Session, step: Step)
    requires Inv(s) && ShutdownInv(s) && Enabled(s, step)
    ensures ShutdownInv(Apply(s, step))
  {
    match step
    case PushShutdown => InAppend(s.queue, Task.Shutdown, Task.Shutdown);
    case PushSend(i) => InAppend(s.queue, Task.Shutdown, Send(s.sending[i]));
    case RunTask(n) => InPopped(s.queue, Task.Shutdown);
    case _ =>
  }

  lemma {:induction false} RunKeepsShutdown(s: Session, steps: seq<Step>)
    requires Inv(s) && ShutdownInv(s) && IsRun(s, steps)
    ensures ShutdownInv(After(s, steps))
    decreases |steps|
  {
    hide Inv, ShutdownInv, Enabled, Apply;
    if steps != [] {
      StepKeepsInv(s, steps[0]);
      StepKeepsShutdown(s, steps[0]);
      RunKeepsShutdown(Apply(s, steps[0]), steps[1..]);
    }
  }

  ghost predicate NeverAsked(s: Session)
  {
    !s.conn.phase.Disconnecting? && s.shutting == 0 && Task.Shutdown !in s.queue && s.conn.shuts == []
  }

  lemma {:induction false} UnaskedStaysOpen(s: Session, steps: seq<Step>)
    requires NeverAsked(s) && IsRun(s, steps) && !ShutdownAsked(steps)
    ensures NeverAsked(After(s, steps))
    decreases |steps|
  {
    if steps != [] {
      if steps[0].RunTask? {
        InPopped(s.queue, Task.Shutdown);
      }
      UnaskedStaysOpen(Apply(s, steps[0]), steps[1..]);
    }
  }

  /**
   On every run: SHUT_WR is issued only if shutdown was called; and once it was called on an open connection,
   SHUT_WR has been issued unless its functor is still to run or bytes are still to be written.
   */
  lemma ShutdownHappens(steps: seq<Step>)
    requires IsRun(START, steps)
    ensures var s := After(START, steps);
            && (s.conn.shuts != [] ==> ShutdownAsked(steps))
            && (s.conn.phase == PhaseAfter(Connecting, steps))
            && (s.conn.phase.Disconnecting? && !ShutdownComing(s) ==> s.conn.shuts != [])
  {
    RunKeepsShutdown(START, steps);
    PhaseFollowsCalls(START, steps);
    if !ShutdownAsked(steps) {
      UnaskedStaysOpen(START, steps);
    }
  }
}
