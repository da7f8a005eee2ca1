/**
 muduo's TcpConnection: what its methods do to the connection's state, to the events of its channel and
 to its output buffer. The result of a write call is a parameter. A Session adds the functors that other
 threads queue for the connection, in every interleaving with the loop thread.
 */
module TcpConnections {

  newtype Byte = x: int | 0 <= x < 256

  datatype Phase = Connecting | Connected | Disconnecting | Disconnected

  datatype Conn = Conn(
    phase: Phase,
    reading: bool,         // the channel's events
    writing: bool,
    out: seq<Byte>,        // output_buffer_
    accepted: seq<Byte>,   // all that sendInLoop has taken
    written: seq<Byte>,    // all that write calls have taken
    shuts: seq<nat>,       // for every SHUT_WR, how many bytes were still in out
    lateWrites: nat)       // write calls made after a SHUT_WR

  function NewConn(): Conn
  {
    Conn(Connecting, false, false, [], [], [], [], 0)
  }

  predicate Open(c: Conn) { c.phase.Connected? || c.phase.Disconnecting? }

  predicate WriteResult(n: int, length: nat) { -1 <= n <= length }

  function EstablishConn(c: Conn): Conn
  {
    c.(phase := Connected, reading := true)
  }

  /** handleClose up to its callbacks. */
  function CloseConn(c: Conn): Conn
  {
    c.(phase := Disconnected, reading := false, writing := false)
  }

  /** connectDestroyed up to channel_->remove(). */
  function DestroyConn(c: Conn): Conn
  {
    if c.phase.Connected? then CloseConn(c) else c
  }

  /** The compare-and-exchange of shutdown(). */
  function MarkShutdown(c: Conn): Conn
  {
    if c.phase.Connected? then c.(phase := Disconnecting) else c
  }

  function ShutdownInLoop(c: Conn): Conn
  {
    if c.writing then c else c.(shuts := c.shuts + [|c.out|])
  }

  /** One write call, counted if SHUT_WR has been issued. */
  function WriteCall(c: Conn): Conn
  {
    if c.shuts == [] then c else c.(lateWrites := c.lateWrites + 1)
  }

  /** Whether sendInLoop writes to the socket at once. */
  predicate WritesNow(c: Conn)
  {
    c.phase != Disconnected && !c.writing && c.out == []
  }

  function SendInLoop(c: Conn, data: seq<Byte>, n: int): Conn
    requires WriteResult(n, |data|)
  {
    if c.phase.Disconnected? then c
    else
      var wrote := if WritesNow(c) && n >= 0 then n else 0;
      var c' := if WritesNow(c) then WriteCall(c) else c;
      c'.(accepted := c.accepted + data, written := c.written + data[..wrote], out := c.out + data[wrote..],
          writing := c.writing || wrote < |data|)
  }

  function HandleWrite(c: Conn, n: int): Conn
    requires WriteResult(n, |c.out|)
  {
    if !c.writing then c
    else
      var c' := WriteCall(c);
      if n <= 0 then c'
      else
        var taken := c'.(written := c.written + c.out[..n], out := c.out[n..]);
        if taken.out != [] then taken
        else
          var drained := taken.(writing := false);
          if drained.phase.Disconnecting? then ShutdownInLoop(drained) else drained
  }

  /** Whether the call ends with a write-complete functor being queued, if there is such a callback. */
  predicate SendCompletes(c: Conn, data: seq<Byte>, n: int) { WritesNow(c) && n == |data| }

  predicate WriteCompletes(c: Conn, n: int) { c.writing && n > 0 && n == |c.out| }

  //// what every call keeps ////

  predicate ConnInv(c: Conn)
  {
    && c.written + c.out == c.accepted
    && (Open(c) ==> (c.writing <==> c.out != []))
    && (c.phase.Connecting? ==> c.out == [] && c.shuts == [])
    && (Open(c) <==> c.reading) && (!Open(c) ==> !c.writing)
    && (c.shuts != [] ==> !c.phase.Connected?)
    && (forall k :: 0 <= k < |c.shuts| ==> c.shuts[k] == 0 || (c.phase.Disconnected? && c.shuts[k] == |c.out|))
  }

  lemma SplitOff(written: seq<Byte>, out: seq<Byte>, n: nat)
    requires n <= |out|
    ensures written + out[..n] + out[n..] == written + out
  {}

  lemma SendKeeps(c: Conn, data: seq<Byte>, n: int)
    requires ConnInv(c) && !c.phase.Connecting? && WriteResult(n, |data|)
    ensures ConnInv(SendInLoop(c, data, n)) && SendInLoop(c, data, n).phase == c.phase
    ensures SendInLoop(c, data, n).accepted == if c.phase.Disconnected? then c.accepted else c.accepted + data
  {
    if c.phase != Disconnected {
      if WritesNow(c) {
        var wrote := if n >= 0 then n else 0;
        assert c.written + [] == c.written;
        SplitOff(c.written, data, wrote);
        assert [] + data[wrote..] == data[wrote..];
      } else {
        assert data[..0] == [] && data[0..] == data && c.written + [] == c.written;
        assert c.written + (c.out + data) == c.written + c.out + data;
      }
    }
  }

  lemma WriteKeeps(c: Conn, n: int)
    requires ConnInv(c) && WriteResult(n, |c.out|)
    ensures ConnInv(HandleWrite(c, n)) && HandleWrite(c, n).phase == c.phase
    ensures HandleWrite(c, n).accepted == c.accepted
  {
    if c.writing && n > 0 {
      SplitOff(c.written, c.out, n);
    }
  }

  /** What a write call of sendInLoop reports is what it adds to the written bytes, and no call adds none. */
  lemma SendWrites(c: Conn, data: seq<Byte>, n: int)
    requires ConnInv(c) && !c.phase.Connecting? && WriteResult(n, |data|)
    ensures |SendInLoop(c, data, n).written| == |c.written| + if Open(c) && c.out == [] && n >= 0 then n else 0
  {}

  /** And what the write call of handleWrite reports. */
  lemma WriteWrites(c: Conn, n: int)
    requires ConnInv(c) && WriteResult(n, |c.out|)
    ensures |HandleWrite(c, n).written| == |c.written| + if Open(c) && c.out != [] && n > 0 then n else 0
  {}

  /**
   connectDestroyed disables the events of a connection that is connected, and of one that is disconnecting
   it does not: the assertion of channel_->remove() holds exactly for the others.
   */
  lemma DestroyLeavesNoEvents(c: Conn)
    requires ConnInv(c)
    ensures !DestroyConn(c).reading && !DestroyConn(c).writing <==> !c.phase.Disconnecting?
    ensures DestroyConn(c).phase == if c.phase.Connected? then Disconnected else c.phase
    ensures DestroyConn(c).out == c.out && DestroyConn(c).written == c.written
  {}

  /** A write-complete callback is due when a send finds the buffer empty and leaves it empty. */
  lemma SendCompletesWhen(c: Conn, data: seq<Byte>, n: int)
    requires ConnInv(c) && !c.phase.Connecting? && WriteResult(n, |data|)
    ensures SendCompletes(c, data, n) <==> Open(c) && c.out == [] && n >= 0 && SendInLoop(c, data, n).out == []
  {}

  /** And when a write event empties it. */
  lemma WriteCompletesWhen(c: Conn, n: int)
    requires ConnInv(c) && WriteResult(n, |c.out|)
    ensures WriteCompletes(c, n) <==> Open(c) && c.out != [] && n > 0 && HandleWrite(c, n).out == []
  {}

  /** Only a write call that succeeds empties a buffer. */
  lemma WriteEmpties(c: Conn, n: int)
    requires ConnInv(c) && WriteResult(n, |c.out|)
    ensures c.out != [] && HandleWrite(c, n).out == [] ==> n > 0
  {}

  //// one connection and the threads that use it ////

  datatype Task = Send(data: seq<Byte>) | Shutdown

  /**
   send() and shutdown() read the state first and queue their functor later; sending and shutting hold
   the calls of other threads that are between the two.
   */
  datatype Session = Session(conn: Conn, queue: seq<Task>, sending: seq<seq<Byte>>, shutting: nat)

  datatype Step =
    | Establish
    | LoopSend(data: seq<Byte>, n: int)  // send and shutdown called by the loop thread
    | LoopShutdown
    | TestSend(data: seq<Byte>)          // and by other threads
    | PushSend(i: nat)
    | TestShutdown
    | PushShutdown
    | RunTask(n: int)                    // the next queued functor
    | Writable(n: int)                   // the channel's write event
    | Close                              // handleClose: end of file, or forceClose on the loop thread

  predicate Enabled(s: Session, step: Step)
  {
    match step
    case Establish => s.conn.phase.Connecting?
    case LoopSend(data, n) => WriteResult(n, |data|)
    case PushSend(i) => i < |s.sending|
    case PushShutdown => s.shutting > 0
    case RunTask(n) => s.queue != [] && (s.queue[0].Send? ==> WriteResult(n, |s.queue[0].data|))
    case Writable(n) => WriteResult(n, |s.conn.out|)
    case Close => Open(s.conn)
    case _ => true
  }

  function Apply(s: Session, step: Step): Session
    requires Enabled(s, step)
  {
    match step
    case Establish => s.(conn := EstablishConn(s.conn))
    case LoopSend(data, n) => if s.conn.phase.Connected? then s.(conn := SendInLoop(s.conn, data, n)) else s
    case LoopShutdown =>
      if s.conn.phase.Connected? then s.(conn := ShutdownInLoop(MarkShutdown(s.conn))) else s
    case TestSend(data) => if s.conn.phase.Connected? then s.(sending := s.sending + [data]) else s
    case PushSend(i) =>
      s.(sending := s.sending[..i] + s.sending[i + 1..], queue := s.queue + [Send(s.sending[i])])
    case TestShutdown =>
      if s.conn.phase.Connected? then s.(conn := MarkShutdown(s.conn), shutting := s.shutting + 1) else s
    case PushShutdown => s.(shutting := s.shutting - 1, queue := s.queue + [Shutdown])
    case RunTask(n) =>
      var conn := if s.queue[0].Send? then SendInLoop(s.conn, s.queue[0].data, n) else ShutdownInLoop(s.conn);
      s.(conn := conn, queue := s.queue[1..])
    case Writable(n) => s.(conn := HandleWrite(s.conn, n))
    case Close => s.(conn := CloseConn(s.conn))
  }

  ghost predicate IsRun(s: Session, steps: seq<Step>)
    decreases |steps|
  {
    steps == [] || (Enabled(s, steps[0]) && IsRun(Apply(s, steps[0]), steps[1..]))
  }

  ghost function After(s: Session, steps: seq<Step>): Session
    requires IsRun(s, steps)
    decreases |steps|
  {
    if steps == [] then s else After(Apply(s, steps[0]), steps[1..])
  }

  lemma OneMore(s: Session, step: Step, rest: seq<Step>)
    requires Enabled(s, step) && IsRun(Apply(s, step), rest)
    ensures IsRun(s, [step] + rest) && After(s, [step] + rest) == After(Apply(s, step), rest)
  {}

  const START := Session(NewConn(), [], [], 0)

  ghost predicate Inv(s: Session)
  {
    && ConnInv(s.conn)
    && (s.queue != [] || s.sending != [] ==> !s.conn.phase.Connecting?)
    && (s.shutting > 0 || Shutdown in s.queue ==> !s.conn.phase.Connecting? && !s.conn.phase.Connected?)
  }

  lemma StepKeepsInv(s: Session, step: Step)
    requires Inv(s) && Enabled(s, step)
    ensures Inv(Apply(s, step))
  {
    match step
    case LoopSend(data, n) => if s.conn.phase.Connected? { SendKeeps(s.conn, data, n); }
    case RunTask(n) => if s.queue[0].Send? { SendKeeps(s.conn, s.queue[0].data, n); }
    case Writable(n) => WriteKeeps(s.conn, n);
    case _ =>
  }

  lemma {:induction false} RunKeepsInv(s: Session, steps: seq<Step>)
    requires Inv(s) && IsRun(s, steps)
    ensures Inv(After(s, steps))
    decreases |steps|
  {
    if steps != [] {
      StepKeepsInv(s, steps[0]);
      RunKeepsInv(Apply(s, steps[0]), steps[1..]);
    }
  }

  /**
   On every run: what was written, then what is buffered, is what was accepted; while the connection is
   open the write event is enabled exactly when something is buffered; and every SHUT_WR issued before
   the connection was closed found the buffer drained.
   */
  lemma DrainedBeforeShutdown(steps: seq<Step>)
    requires IsRun(START, steps)
    ensures var c := After(START, steps).conn;
            && c.written + c.out == c.accepted
            && (Open(c) ==> (c.writing <==> c.out != []))
            && (!c.phase.Disconnected? ==> forall k :: 0 <= k < |c.shuts| ==> c.shuts[k] == 0)
  {
    RunKeepsInv(START, steps);
  }

  /**
   shutdownInLoop does not look at the state. It issues a SHUT_WR with bytes still buffered exactly when
   it runs on a connection that is already disconnected and was closed with a non-empty buffer.
   */
  lemma UndrainedExactlyWhen(s: Session)
    requires Inv(s)
    ensures var c := ShutdownInLoop(s.conn);
            |c.shuts| > |s.conn.shuts| && c.shuts[|c.shuts| - 1] > 0 <==> s.conn.phase.Disconnected? && s.conn.out != []
  {}

  /** Such a run: a buffered byte, shutdown() by another thread, end of file, then its functor. */
  lemma UndrainedOnce(b: Byte) returns (steps: seq<Step>)
    ensures IsRun(START, steps) && After(START, steps).conn.shuts == [1]
  {
    steps := [];
    var s5 := Session(Conn(Disconnected, false, false, [b], [b], [], [], 0), [Shutdown], [], 0);
    OneMore(s5, RunTask(0), []);
    var s4 := s5.(conn := Conn(Disconnecting, true, true, [b], [b], [], [], 0));
    OneMore(s4, Close, [RunTask(0)] + []);
    var s3 := s4.(queue := [], shutting := 1);
    assert [] + [Shutdown] == [Shutdown];
    OneMore(s3, PushShutdown, [Close] + ([RunTask(0)] + []));
    var s2 := s3.(shutting := 0, conn := Conn(Connected, true, true, [b], [b], [], [], 0));
    OneMore(s2, TestShutdown, [PushShutdown] + ([Close] + ([RunTask(0)] + [])));
    var s1 := s2.(conn := Conn(Connected, true, false, [], [], [], [], 0));
    assert SendInLoop(s1.conn, [b], -1) == s2.conn;
    OneMore(s1, LoopSend([b], -1), [TestShutdown] + ([PushShutdown] + ([Close] + ([RunTask(0)] + []))));
    steps := [LoopSend([b], -1)] + ([TestShutdown] + ([PushShutdown] + ([Close] + ([RunTask(0)] + []))));
    OneMore(START, Establish, steps);
    steps := [Establish] + steps;
  }

  //// nothing after SHUT_WR ////

  predicate HasSend(queue: seq<Task>)
  {
    queue != [] && (queue[0].Send? || HasSend(queue[1..]))
  }

  lemma {:induction false} HasSendAppend(queue: seq<Task>, task: Task)
    ensures HasSend(queue + [task]) <==> HasSend(queue) || task.Send?
  {
    if queue == [] {
      assert [task][1..] == [];
    } else {
      assert (queue + [task])[1..] == queue[1..] + [task];
      HasSendAppend(queue[1..], task);
    }
  }

  /** A send that another thread has begun has not run yet, or bytes are buffered. */
  ghost predicate Outstanding(s: Session)
  {
    s.conn.writing || HasSend(s.queue) || s.sending != []
  }

  /** After SHUT_WR and with nothing outstanding, nothing ever becomes outstanding. */
  ghost predicate Quiet(s: Session)
  {
    s.conn.shuts != [] && (s.conn.phase.Disconnected? || !Outstanding(s))
  }

  lemma StepKeepsQuiet(s: Session, step: Step)
    requires Inv(s) && Enabled(s, step) && Quiet(s)
    ensures Quiet(Apply(s, step)) && Apply(s, step).conn.lateWrites == s.conn.lateWrites
  {
    match step
    case PushShutdown => HasSendAppend(s.queue, Shutdown);
    case _ =>
  }

  lemma {:induction false} QuietForEver(s: Session, steps: seq<Step>)
    requires Inv(s) && Quiet(s) && IsRun(s, steps)
    ensures After(s, steps).conn.lateWrites == s.conn.lateWrites
    decreases |steps|
  {
    if steps != [] {
      StepKeepsInv(s, steps[0]);
      StepKeepsQuiet(s, steps[0]);
      QuietForEver(Apply(s, steps[0]), steps[1..]);
    }
  }

  /** The queued functors run up to the first send, and that send calls write. */
  lemma {:induction false} QueuedSendWrites(s: Session) returns (steps: seq<Step>)
    requires Inv(s) && s.conn.phase.Disconnecting? && s.conn.shuts != [] && !s.conn.writing && HasSend(s.queue)
    ensures IsRun(s, steps) && After(s, steps).conn.lateWrites > s.conn.lateWrites
    decreases |s.queue|
  {
    steps := [];
    if s.queue[0].Shutdown? {
      StepKeepsInv(s, RunTask(0));
      steps := QueuedSendWrites(Apply(s, RunTask(0)));
    }
    OneMore(s, RunTask(0), steps);
    steps := [RunTask(0)] + steps;
  }

  /**
   A write call after SHUT_WR can still come exactly while the connection is only Disconnecting and
   something is outstanding.
   */
  lemma LateWriteExactlyWhen(s: Session)
    requires Inv(s) && s.conn.shuts != []
    ensures (exists steps :: IsRun(s, steps) && After(s, steps).conn.lateWrites > s.conn.lateWrites)
            <==> s.conn.phase.Disconnecting? && Outstanding(s)
  {
    if s.conn.phase.Disconnecting? && Outstanding(s) {
      var steps: seq<Step> := [];
      if s.conn.writing {
        OneMore(s, Writable(0), []);
        steps := [Writable(0)] + [];
      } else if HasSend(s.queue) {
        steps := QueuedSendWrites(s);
      } else {
        StepKeepsInv(s, PushSend(0));
        HasSendAppend(s.queue, Send(s.sending[0]));
        steps := QueuedSendWrites(Apply(s, PushSend(0)));
        OneMore(s, PushSend(0), steps);
        steps := [PushSend(0)] + steps;
      }
      assert IsRun(s, steps) && After(s, steps).conn.lateWrites > s.conn.lateWrites;
    } else {
      forall steps | IsRun(s, steps) ensures After(s, steps).conn.lateWrites == s.conn.lateWrites {
        QuietForEver(s, steps);
      }
    }
  }

  predicate OnLoopThread(steps: seq<Step>)
  {
    steps == [] || (!steps[0].TestSend? && OnLoopThread(steps[1..]))
  }

  lemma {:induction false} LoopThreadKeepsQuiet(s: Session, steps: seq<Step>)
    requires Inv(s) && !HasSend(s.queue) && s.sending == [] && (s.conn.shuts == [] || Quiet(s))
    requires s.conn.lateWrites == 0 && IsRun(s, steps) && OnLoopThread(steps)
    ensures After(s, steps).conn.lateWrites == 0
    decreases |steps|
  {
    if steps != [] {
      var s' := Apply(s, steps[0]);
      StepKeepsInv(s, steps[0]);
      if s.conn.shuts != [] {
        StepKeepsQuiet(s, steps[0]);
      }
      if steps[0].PushShutdown? {
        HasSendAppend(s.queue, Shutdown);
      }
      LoopThreadKeepsQuiet(s', steps[1..]);
    }
  }

  /** If only the loop thread calls send(), no write call follows a SHUT_WR, whoever calls shutdown(). */
  lemma NothingAfterShutdown(steps: seq<Step>)
    requires IsRun(START, steps) && OnLoopThread(steps)
    ensures After(START, steps).conn.lateWrites == 0
  {
    LoopThreadKeepsQuiet(START, steps);
  }

  lemma DrainsAndShutsDown(a: Byte)
    ensures HandleWrite(Conn(Disconnecting, true, true, [a], [a], [], [], 0), 1)
            == Conn(Disconnecting, true, false, [], [a], [a], [0], 0)
  {}

  lemma WritesLate(a: Byte, b: Byte)
    ensures SendInLoop(Conn(Disconnecting, true, false, [], [a], [a], [0], 0), [b], -1).lateWrites == 1
  {}

  /** With a in the buffer, one thread sends b and shuts down, and the loop thread drains a before b runs. */
  lemma DrainedTooEarly(a: Byte, b: Byte, s: Session) returns (steps: seq<Step>)
    requires s == Session(Conn(Connected, true, true, [a], [a], [], [], 0), [], [], 0)
    ensures IsRun(s, steps) && After(s, steps).conn.lateWrites == 1
  {
    hide HandleWrite, SendInLoop;
    DrainsAndShutsDown(a);
    WritesLate(a, b);
    var s1 := s.(sending := [[b]]);
    var s2 := s.(queue := [Send([b])]);
    var s3 := s2.(conn := s.conn.(phase := Disconnecting), shutting := 1);
    var s4 := s3.(queue := [Send([b]), Shutdown], shutting := 0);
    var s5 := s4.(conn := Conn(Disconnecting, true, false, [], [a], [a], [0], 0));
    OneMore(s5, RunTask(-1), []);
    steps := [RunTask(-1)] + [];
    OneMore(s4, Writable(1), steps);
    steps := [Writable(1)] + steps;
    assert s3.queue + [Shutdown] == s4.queue;
    OneMore(s3, PushShutdown, steps);
    steps := [PushShutdown] + steps;
    OneMore(s2, TestShutdown, steps);
    steps := [TestShutdown] + steps;
    assert [] + [Send([b])] == s2.queue && s1.sending[..0] + s1.sending[1..] == [];
    OneMore(s1, PushSend(0), steps);
    steps := [PushSend(0)] + steps;
    assert [] + [[b]] == s1.sending;
    OneMore(s, TestSend([b]), steps);
    steps := [TestSend([b])] + steps;
  }

  /** With another thread it happens even if that thread is alone: it sends a, then b, then shuts down. */
  lemma LateWriteOnce(a: Byte, b: Byte) returns (steps: seq<Step>)
    ensures IsRun(START, steps) && After(START, steps).conn.lateWrites == 1
  {
    hide HandleWrite, ShutdownInLoop;
    var s0 := START.(conn := EstablishConn(NewConn()));
    var s1 := s0.(sending := [[a]]);
    var s2 := s0.(queue := [Send([a])]);
    var s3 := s0.(conn := Conn(Connected, true, true, [a], [a], [], [], 0));
    steps := DrainedTooEarly(a, b, s3);
    assert SendInLoop(s2.conn, [a], -1) == s3.conn && s2.queue[1..] == [];
    OneMore(s2, RunTask(-1), steps);
    steps := [RunTask(-1)] + steps;
    assert [] + [Send([a])] == s2.queue && s1.sending[..0] + s1.sending[1..] == [];
    OneMore(s1, PushSend(0), steps);
    steps := [PushSend(0)] + steps;
    assert [] + [[a]] == s1.sending;
    OneMore(s0, TestSend([a]), steps);
    steps := [TestSend([a])] + steps;
    OneMore(START, Establish, steps);
    steps := [Establish] + steps;
  }

  //// the methods ////

  lemma GivesUp(c: Conn, data: seq<Byte>, n: int)
    requires WriteResult(n, |data|) && c.phase.Disconnected?
    ensures SendInLoop(c, data, n) == c && !SendCompletes(c, data, n)
  {}

  lemma SendInLoopIs(c: Conn, data: seq<Byte>, n: int, wrote: int)
    requires WriteResult(n, |data|) && c.phase != Disconnected
    requires wrote == if WritesNow(c) && n >= 0 then n else 0
    ensures SendInLoop(c, data, n)
            == (if WritesNow(c) then WriteCall(c) else c)
               .(accepted := c.accepted + data, written := c.written + data[..wrote], out := c.out + data[wrote..],
                 writing := c.writing || wrote < |data|)
  {}

  class TcpConnection {
    var phase: Phase
    var reading: bool
    var writing: bool
    var out: seq<Byte>
    ghost var accepted: seq<Byte>
    ghost var written: seq<Byte>
    ghost var shuts: seq<nat>
    ghost var lateWrites: nat

    constructor ()
      ensures View() == NewConn() && ConnInv(View())
    {
      phase, reading, writing, out := Connecting, false, false, [];
      accepted, written, shuts, lateWrites := [], [], [], 0;
    }

    ghost function View(): Conn
      reads this
    {
      Conn(phase, reading, writing, out, accepted, written, shuts, lateWrites)
    }

    method ConnectEstablished()
      requires phase.Connecting?
      modifies this
      ensures View() == EstablishConn(old(View()))
      ensures old(ConnInv(View())) ==> ConnInv(View())
    {
      phase := Connected;
      reading := true;
    }

    method HandleClose()
      requires Open(View())
      modifies this
      ensures View() == CloseConn(old(View()))
      ensures old(ConnInv(View())) ==> ConnInv(View())
    {
      phase := Disconnected;
      reading, writing := false, false;
    }

    method ConnectDestroyed()
      modifies this
      ensures View() == DestroyConn(old(View()))
      ensures old(ConnInv(View())) ==> ConnInv(View())
    {
      if phase.Connected? {
        phase := Disconnected;
        reading, writing := false, false;
      }
    }

    /** The caller is the loop thread, which goes on with shutdownInLoop, or another, which queues it. */
    method Shutdown(inLoopThread: bool) returns (queued: seq<Task>)
      modifies this
      ensures inLoopThread && old(phase).Connected? ==> View() == ShutdownInLoop(MarkShutdown(old(View())))
      ensures !(inLoopThread && old(phase).Connected?) ==> View() == MarkShutdown(old(View()))
      ensures old(ConnInv(View())) ==> ConnInv(View())
      ensures queued == if old(phase).Connected? && !inLoopThread then [Task.Shutdown] else []
    {
      queued := [];
      if phase.Connected? {
        phase := Disconnecting;
        if inLoopThread {
          ShutdownWriting();
        } else {
          queued := [Task.Shutdown];
        }
      }
    }

    /** shutdownInLoop. */
    method ShutdownWriting()
      modifies this`shuts
      ensures View() == ShutdownInLoop(old(View()))
      ensures old(ConnInv(View()) && !phase.Connecting? && !phase.Connected?) ==> ConnInv(View())
    {
      if !writing {
        shuts := shuts + [|out|];
      }
    }

    /** n is what the write call returns if there is one; done says that a write-complete functor is due. */
    method SendNow(data: seq<Byte>, n: int) returns (done: bool)
      requires WriteResult(n, |data|)
      modifies this
      ensures View() == SendInLoop(old(View()), data, n)
      ensures done <==> SendCompletes(old(View()), data, n)
      ensures old(ConnInv(View()) && !phase.Connecting?) ==>
                && ConnInv(View())
                && |written| == old(|written|) + (if old(Open(View()) && out == []) && n >= 0 then n else 0)
                && (done <==> old(Open(View()) && out == []) && n >= 0 && out == [])
    {
      hide ConnInv, SendInLoop;
      ghost var before := View();
      done := false;
      if phase.Disconnected? {
        GivesUp(before, data, n);
        return;
      }
      var wrote := 0;
      accepted := accepted + data;
      if !writing && out == [] {
        if shuts != [] { lateWrites := lateWrites + 1; }
        if n >= 0 {
          wrote := n;
          done := n == |data|;
        }
      }
      written := written + data[..wrote];
      if wrote < |data| {
        out := out + data[wrote..];
        writing := true;
      }
      assert out == before.out + data[wrote..];
      SendInLoopIs(before, data, n, wrote);
      if ConnInv(before) && !before.phase.Connecting? {
        SendKeeps(before, data, n);
        SendWrites(before, data, n);
        SendCompletesWhen(before, data, n);
      }
    }

    method HandleWritable(n: int) returns (done: bool)
      requires WriteResult(n, |out|)
      modifies this
      ensures View() == HandleWrite(old(View()), n)
      ensures done <==> WriteCompletes(old(View()), n)
      ensures old(ConnInv(View())) ==>
                && ConnInv(View())
                && |written| == old(|written|) + (if old(Open(View()) && out != []) && n > 0 then n else 0)
                && (done <==> old(Open(View()) && out != []) && n > 0 && out == [])
    {
      hide ConnInv;
      ghost var before := View();
      if ConnInv(before) {
        WriteKeeps(before, n);
        WriteWrites(before, n);
        WriteCompletesWhen(before, n);
      }
      done := false;
      if writing {
        if shuts != [] { lateWrites := lateWrites + 1; }
        if n > 0 {
          written := written + out[..n];
          out := out[n..];
          if out == [] {
            writing := false;
            done := true;
            if phase.Disconnecting? {
              ShutdownWriting();
            }
          }
        }
      }
    }
  }
}
