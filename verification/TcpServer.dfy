/**
 muduo's TcpServer and the life of its connections across event loops. Loop 0 is the server's own; every
 connection belongs to one I/O loop, which may be loop 0 too. A loop runs the events of one poll and then
 the functors in its queue. User code runs inside callbacks, so its steps may fall between any two
 others. The steps Test... and Push... are those of other threads, which read the state of the connection
 first and queue their functor later.
 */
module TcpServers {
  import T = TcpConnections

  datatype Event = Established | Closed | Erased | Destroyed

  const LIFECYCLE := [Established, Closed, Erased, Destroyed]

  /** Functors; all but WriteComplete, which captures a bare this, hold a reference to the connection. */
  datatype Task =
    | Establish(id: nat)
    | RemoveInLoop(id: nat)
    | Destroy(id: nat)
    | Shutdown(id: nat)
    | Send(id: nat, data: seq<T.Byte>)
    | WriteComplete(id: nat)

  datatype Current = NoEvent | WriteEventOf(id: nat)

  datatype Loop = Loop(
    queue: seq<Task>,
    active: seq<nat>,     // channels of this poll whose handleEvent is still to come
    current: Current,     // the channel in handleEvent, if its write callback is still to come
    closing: seq<nat>)    // frames of handleClose whose closeCallback_ is still to come, innermost first

  datatype Record = Record(
    io: nat,
    conn: T.Conn,
    registered: bool,     // the channel is in the poller of its loop
    history: seq<Event>,
    sending: seq<seq<T.Byte>>,  // calls of send() and shutdown() by other threads, between
    shutting: nat)              // the test of the state and the push

  datatype Server = Server(
    loops: seq<Loop>,
    conns: seq<Record>,   // every connection ever made
    connections: set<nat>)

  datatype ReadResult = NoRead | Data | EndOfFile | Failed

  datatype Step =
    | NewConnection(io: nat)
    | Poll(l: nat, ids: seq<nat>)
    | ReadEvent(l: nat, result: ReadResult, alsoWrite: bool)
    | WriteEvent(l: nat, n: int)
    | CloseCallback(l: nat)
    | RunTask(l: nat, n: int)
    | UserSend(id: nat, data: seq<T.Byte>, n: int)
    | UserShutdown(id: nat)
    | UserForceClose(id: nat)
    | TestSend(id: nat, data: seq<T.Byte>)
    | PushSend(id: nat, i: nat)
    | TestShutdown(id: nat)
    | PushShutdown(id: nat)

  //// the code ////

  function NewRecord(io: nat): Record
  {
    Record(io, T.NewConn(), false, [], [], 0)
  }

  function SetConn(s: Server, id: nat, r: Record): Server
    requires id < |s.conns|
  {
    s.(conns := s.conns[id := r])
  }

  function SetLoop(s: Server, l: nat, x: Loop): Server
    requires l < |s.loops|
  {
    s.(loops := s.loops[l := x])
  }

  /** queueInLoop. */
  function Post(s: Server, l: nat, task: Task): Server
    requires l < |s.loops|
  {
    SetLoop(s, l, s.loops[l].(queue := s.loops[l].queue + [task]))
  }

  /** connectEstablished, up to the user's callback. */
  function DoEstablish(s: Server, id: nat): Server
    requires id < |s.conns|
  {
    var r := s.conns[id];
    SetConn(s, id, r.(conn := T.EstablishConn(r.conn), registered := true, history := r.history + [Established]))
  }

  /** handleClose, up to the user's callback. */
  function DoClose(s: Server, id: nat): Server
    requires id < |s.conns| && s.conns[id].io < |s.loops|
  {
    var r := s.conns[id];
    var io := s.loops[r.io];
    SetLoop(SetConn(s, id, r.(conn := T.CloseConn(r.conn), history := r.history + [Closed])),
            r.io, io.(closing := [id] + io.closing))
  }

  /** removeConnectionInLoop. */
  function DoErase(s: Server, id: nat): Server
    requires id < |s.conns| && s.conns[id].io < |s.loops|
  {
    var r := s.conns[id];
    Post(SetConn(s, id, r.(history := r.history + [Erased])).(connections := s.connections - {id}), r.io, Destroy(id))
  }

  /** connectDestroyed. */
  function DoDestroy(s: Server, id: nat): Server
    requires id < |s.conns|
  {
    var r := s.conns[id];
    SetConn(s, id, r.(conn := T.DestroyConn(r.conn), registered := false, history := r.history + [Destroyed]))
  }

  function DoSend(s: Server, id: nat, data: seq<T.Byte>, n: int): Server
    requires id < |s.conns| && s.conns[id].io < |s.loops| && T.WriteResult(n, |data|)
  {
    var r := s.conns[id];
    var s' := SetConn(s, id, r.(conn := T.SendInLoop(r.conn, data, n)));
    if T.SendCompletes(r.conn, data, n) then Post(s', r.io, WriteComplete(id)) else s'
  }

  function DoWrite(s: Server, id: nat, n: int): Server
    requires id < |s.conns| && s.conns[id].io < |s.loops| && T.WriteResult(n, |s.conns[id].conn.out|)
  {
    var r := s.conns[id];
    var s' := SetConn(s, id, r.(conn := T.HandleWrite(r.conn, n)));
    if T.WriteCompletes(r.conn, n) then Post(s', r.io, WriteComplete(id)) else s'
  }

  function DoShutdown(s: Server, id: nat): Server
    requires id < |s.conns|
  {
    SetConn(s, id, s.conns[id].(conn := T.ShutdownInLoop(s.conns[id].conn)))
  }

  predicate AtRest(x: Loop) { x.active == [] && x.current.NoEvent? && x.closing == [] }

  /** What poll may report: each channel of the loop at most once, and only with an event enabled. */
  predicate CanList(s: Server, l: nat, ids: seq<nat>)
  {
    && (forall i :: 0 <= i < |ids| ==>
          && ids[i] < |s.conns| && s.conns[ids[i]].io == l && s.conns[ids[i]].registered
          && (s.conns[ids[i]].conn.reading || s.conns[ids[i]].conn.writing))
    && (forall i, j :: 0 <= i < j < |ids| ==> ids[i] != ids[j])
  }

  predicate LoopWf(x: Loop, conns: nat)
  {
    && (forall i :: 0 <= i < |x.queue| ==> x.queue[i].id < conns)
    && (forall i :: 0 <= i < |x.active| ==> x.active[i] < conns)
    && (forall i :: 0 <= i < |x.closing| ==> x.closing[i] < conns)
    && (x.current.WriteEventOf? ==> x.current.id < conns)
  }

  /** Every mention of a connection or a loop is of one that exists. */
  predicate Wf(s: Server)
  {
    && |s.loops| > 0
    && (forall id :: 0 <= id < |s.conns| ==> s.conns[id].io < |s.loops|)
    && (forall l :: 0 <= l < |s.loops| ==> LoopWf(s.loops[l], |s.conns|))
  }

  predicate Enabled(s: Server, step: Step)
    requires Wf(s)
  {
    match step
    case NewConnection(io) => io < |s.loops| && s.loops[0].closing == []
    case Poll(l, ids) => l < |s.loops| && AtRest(s.loops[l]) && CanList(s, l, ids)
    case ReadEvent(l, _, _) =>
      l < |s.loops| && s.loops[l].active != [] && s.loops[l].current.NoEvent? && s.loops[l].closing == []
    case WriteEvent(l, n) =>
      && l < |s.loops| && s.loops[l].current.WriteEventOf? && s.loops[l].closing == []
      && T.WriteResult(n, |s.conns[s.loops[l].current.id].conn.out|)
    case CloseCallback(l) => l < |s.loops| && s.loops[l].closing != []
    case RunTask(l, n) =>
      && l < |s.loops| && AtRest(s.loops[l]) && s.loops[l].queue != []
      && (s.loops[l].queue[0].Send? ==> T.WriteResult(n, |s.loops[l].queue[0].data|))
    case UserSend(id, data, n) => id < |s.conns| && T.WriteResult(n, |data|)
    case UserShutdown(id) => id < |s.conns|
    case UserForceClose(id) => id < |s.conns|
    case TestSend(id, _) => id < |s.conns|
    case PushSend(id, i) => id < |s.conns| && i < |s.conns[id].sending|
    case TestShutdown(id) => id < |s.conns|
    case PushShutdown(id) => id < |s.conns| && s.conns[id].shutting > 0
  }

  /** The handler of the next listed channel; its write callback, if any, is a step of its own. */
  function DoRead(s: Server, l: nat, result: ReadResult, alsoWrite: bool): Server
    requires Wf(s) && Enabled(s, ReadEvent(l, result, alsoWrite))
  {
    var x := s.loops[l];
    var id := x.active[0];
    var s' := SetLoop(s, l, x.(active := x.active[1..], current := if alsoWrite then WriteEventOf(id) else NoEvent));
    if result.EndOfFile? then DoClose(s', id) else s'
  }

  /** removeConnection called on loop l: at once on loop 0, else through loop 0's queue. */
  function DoRemove(s: Server, l: nat, id: nat): Server
    requires |s.loops| > 0 && id < |s.conns| && s.conns[id].io < |s.loops|
  {
    if l == 0 then DoErase(s, id) else Post(s, 0, RemoveInLoop(id))
  }

  /** closeCallback_. */
  function DoCloseCallback(s: Server, l: nat): Server
    requires Wf(s) && Enabled(s, CloseCallback(l))
  {
    var x := s.loops[l];
    DoRemove(SetLoop(s, l, x.(closing := x.closing[1..])), l, x.closing[0])
  }

  function DoTask(s: Server, l: nat, n: int): Server
    requires Wf(s) && Enabled(s, RunTask(l, n))
  {
    var x := s.loops[l];
    var s' := SetLoop(s, l, x.(queue := x.queue[1..]));
    match x.queue[0]
    case Establish(id) => DoEstablish(s', id)
    case RemoveInLoop(id) => DoErase(s', id)
    case Destroy(id) => DoDestroy(s', id)
    case Shutdown(id) => DoShutdown(s', id)
    case Send(id, data) => DoSend(s', id, data, n)
    case WriteComplete(id) => s'
  }

  function DoNewConnection(s: Server, io: nat): Server
    requires io < |s.loops|
  {
    var id := |s.conns|;
    var s' := s.(conns := s.conns + [NewRecord(io)], connections := s.connections + {id});
    if io == 0 then DoEstablish(s', id) else Post(s', io, Establish(id))
  }

  /** The test of send() by another thread, and the message that it then takes to the queue. */
  function Tested(r: Record, data: seq<T.Byte>): Record
  {
    if r.conn.phase.Connected? then r.(sending := r.sending + [data]) else r
  }

  function Sent(r: Record, i: nat): Record
    requires i < |r.sending|
  {
    r.(sending := r.sending[..i] + r.sending[i + 1..])
  }

  /** The compare-and-exchange of shutdown() by another thread. */
  function Shutting(r: Record): Record
  {
    if r.conn.phase.Connected? then r.(conn := T.MarkShutdown(r.conn), shutting := r.shutting + 1) else r
  }

  function Apply(s: Server, step: Step): Server
    requires Wf(s) && Enabled(s, step)
  {
    match step
    case NewConnection(io) => DoNewConnection(s, io)
    case Poll(l, ids) => SetLoop(s, l, s.loops[l].(active := ids))
    case ReadEvent(l, result, alsoWrite) => DoRead(s, l, result, alsoWrite)
    case WriteEvent(l, n) => DoWrite(SetLoop(s, l, s.loops[l].(current := NoEvent)), s.loops[l].current.id, n)
    case CloseCallback(l) => DoCloseCallback(s, l)
    case RunTask(l, n) => DoTask(s, l, n)
    case UserSend(id, data, n) => if s.conns[id].conn.phase.Connected? then DoSend(s, id, data, n) else s
    case UserShutdown(id) =>
      if s.conns[id].conn.phase.Connected?
      then DoShutdown(SetConn(s, id, s.conns[id].(conn := T.MarkShutdown(s.conns[id].conn))), id)
      else s
    case UserForceClose(id) => if T.Open(s.conns[id].conn) then DoClose(s, id) else s
    case TestSend(id, data) => SetConn(s, id, Tested(s.conns[id], data))
    case PushSend(id, i) =>
      Post(SetConn(s, id, Sent(s.conns[id], i)), s.conns[id].io, Send(id, s.conns[id].sending[i]))
    case TestShutdown(id) => SetConn(s, id, Shutting(s.conns[id]))
    case PushShutdown(id) =>
      Post(SetConn(s, id, s.conns[id].(shutting := s.conns[id].shutting - 1)), s.conns[id].io, Shutdown(id))
  }

  /** The assertions that the code makes on the way, and that a bare this is still an object. */
  ghost predicate Asserts(s: Server, step: Step)
    requires Wf(s) && Enabled(s, step)
  {
    match step
    case ReadEvent(l, EndOfFile, _) => T.Open(s.conns[s.loops[l].active[0]].conn)
    case CloseCallback(l) => l == 0 ==> s.loops[l].closing[0] in s.connections
    case RunTask(l, _) =>
      (match s.loops[l].queue[0]
       case Establish(id) => s.conns[id].conn.phase.Connecting?
       case RemoveInLoop(id) => id in s.connections
       case Destroy(id) => s.conns[id].registered && !s.conns[id].conn.reading && !s.conns[id].conn.writing
       case WriteComplete(id) => Referenced(s, id)
       case _ => true)
    case _ => true
  }

  /** Some owner keeps the connection alive: the map, a queued functor, or a frame of handleClose. */
  ghost predicate Referenced(s: Server, id: nat)
  {
    || id in s.connections
    || (exists l, i :: 0 <= l < |s.loops| && 0 <= i < |s.loops[l].queue|
          && s.loops[l].queue[i].id == id && !s.loops[l].queue[i].WriteComplete?)
    || (exists l :: 0 <= l < |s.loops| && id in s.loops[l].closing)
  }

  //// the invariant ////

  ghost function Count<S>(q: seq<S>, t: S): nat { multiset(q)[t] }

  lemma CountPush<S>(q: seq<S>, t: S)
    ensures forall u :: Count(q + [t], u) == Count(q, u) + if u == t then 1 else 0
  {}

  lemma CountPop<S>(q: seq<S>)
    requires q != []
    ensures forall u :: Count(q, u) == Count(q[1..], u) + if u == q[0] then 1 else 0
  {
    assert q == [q[0]] + q[1..];
  }

  lemma CountIn<S>(q: seq<S>, t: S)
    ensures t in q <==> Count(q, t) > 0
  {}

  /** No write-complete functor of id is queued behind its Destroy. */
  predicate Ordered(q: seq<Task>, id: nat)
  {
    q == [] || ((q[0] == Destroy(id) ==> WriteComplete(id) !in q[1..]) && Ordered(q[1..], id))
  }

  lemma {:induction false} OrderedPush(q: seq<Task>, id: nat, t: Task)
    requires Ordered(q, id) && (t != WriteComplete(id) || Destroy(id) !in q)
    ensures Ordered(q + [t], id)
  {
    if q == [] {
      assert [t][1..] == [];
    } else {
      assert (q + [t])[1..] == q[1..] + [t];
      OrderedPush(q[1..], id, t);
    }
  }

  /** What a queue may hold for one connection, given how far that connection has come. */
  ghost predicate QueueOk(q: seq<Task>, l: nat, id: nat, r: Record)
  {
    var k := |r.history|;
    && Count(q, Establish(id)) == (if l == r.io && k == 0 then 1 else 0)
    && Count(q, Destroy(id)) == (if l == r.io && k == 3 then 1 else 0)
    && (l != 0 ==> Count(q, RemoveInLoop(id)) == 0)
    && (WriteComplete(id) in q ==> l == r.io && 1 <= k <= 3)
    && (k == 0 || l != r.io ==> forall data :: Send(id, data) !in q)
    && (Shutdown(id) in q ==> l == r.io && (r.conn.phase.Disconnecting? || r.conn.phase.Disconnected?))
    && Ordered(q, id)
  }

  ghost predicate RecordOk(r: Record)
  {
    var k := |r.history|;
    && k <= 4 && r.history == LIFECYCLE[..k]
    && (r.registered <==> 1 <= k <= 3)
    && (r.conn.phase.Connecting? <==> k == 0)
    && (T.Open(r.conn) <==> k == 1)
    && (r.sending != [] ==> k > 0)
    && (r.shutting > 0 ==> r.conn.phase.Disconnecting? || r.conn.phase.Disconnected?)
    && T.ConnInv(r.conn)
  }

  ghost predicate ConnOk(s: Server, id: nat)
  {
    && id < |s.conns| && s.conns[id].io < |s.loops| && |s.loops| > 0
    && RecordOk(s.conns[id])
    && (id in s.connections <==> |s.conns[id].history| < 3)
    && (forall l :: 0 <= l < |s.loops| ==> QueueOk(s.loops[l].queue, l, id, s.conns[id]))
    && (forall l :: 0 <= l < |s.loops| && l != s.conns[id].io ==> Count(s.loops[l].closing, id) == 0)
    && Count(s.loops[s.conns[id].io].closing, id) + Count(s.loops[0].queue, RemoveInLoop(id))
       == if |s.conns[id].history| == 2 then 1 else 0
  }

  predicate Listable(s: Server, l: nat, id: nat)
  {
    id < |s.conns| && s.conns[id].io == l && 1 <= |s.conns[id].history| <= 3
  }

  ghost predicate LoopOk(s: Server, l: nat)
    requires l < |s.loops|
  {
    var x := s.loops[l];
    && LoopWf(x, |s.conns|)
    && (forall i :: 0 <= i < |x.active| ==> Listable(s, l, x.active[i]))
    && (forall i, j :: 0 <= i < j < |x.active| ==> x.active[i] != x.active[j])
    && (x.current.WriteEventOf? ==> Listable(s, l, x.current.id))
  }

  ghost predicate LoopsOk(s: Server)
  {
    Wf(s) && (forall l :: 0 <= l < |s.loops| ==> LoopOk(s, l))
  }

  ghost predicate Inv(s: Server)
  {
    && Wf(s) && LoopsOk(s)
    && (forall id :: id in s.connections ==> id < |s.conns|)
    && (forall id :: 0 <= id < |s.conns| ==> ConnOk(s, id))
  }

  //// the other connections ////

  lemma PostOthers(s: Server, l: nat, t: Task, id: nat)
    requires l < |s.loops| && ConnOk(s, id) && t.id != id
    ensures ConnOk(Post(s, l, t), id)
  {
    hide Count, Ordered;
    CountPush(s.loops[l].queue, t);
    assert QueueOk(s.loops[l].queue, l, id, s.conns[id]);
    OrderedPush(s.loops[l].queue, id, t);
  }

  lemma PopOthers(s: Server, l: nat, id: nat)
    requires l < |s.loops| && s.loops[l].queue != [] && ConnOk(s, id) && s.loops[l].queue[0].id != id
    ensures ConnOk(SetLoop(s, l, s.loops[l].(queue := s.loops[l].queue[1..])), id)
  {
    hide Count;
    CountPop(s.loops[l].queue);
    assert QueueOk(s.loops[l].queue, l, id, s.conns[id]);
  }

  lemma FramesOthers(s: Server, l: nat, closing: seq<nat>, id: nat)
    requires l < |s.loops| && ConnOk(s, id)
    requires Count(closing, id) == Count(s.loops[l].closing, id)
    ensures ConnOk(SetLoop(s, l, s.loops[l].(closing := closing)), id)
  {
    hide Count, QueueOk;
  }

  lemma EventsOthers(s: Server, l: nat, active: seq<nat>, current: Current, id: nat)
    requires l < |s.loops| && ConnOk(s, id)
    ensures ConnOk(SetLoop(s, l, s.loops[l].(active := active, current := current)), id)
  {
    hide Count, QueueOk;
  }

  lemma SetConnOthers(s: Server, i: nat, r: Record, connections: set<nat>, id: nat)
    requires i < |s.conns| && ConnOk(s, id) && i != id && (id in connections <==> id in s.connections)
    ensures ConnOk(SetConn(s, i, r).(connections := connections), id)
  {
    hide Count, QueueOk;
  }

  //// the connection itself ////

  /** A task that the connection's stage allows is queued on its I/O loop. */
  lemma PostOwn(s: Server, t: Task)
    requires ConnOk(s, t.id)
    requires var k := |s.conns[t.id].history|;
             match t
             case WriteComplete(_) => 1 <= k <= 2
             case Send(_, _) => k > 0
             case Shutdown(_) => k > 0 && !s.conns[t.id].conn.phase.Connected?
             case _ => false
    ensures ConnOk(Post(s, s.conns[t.id].io, t), t.id)
  {
    hide Count, Ordered;
    var r := s.conns[t.id];
    var q := s.loops[r.io].queue;
    CountPush(q, t);
    assert QueueOk(q, r.io, t.id, r);
    CountIn(q, Destroy(t.id));
    OrderedPush(q, t.id, t);
  }

  /** A functor that does not belong to the life cycle leaves the queue. */
  lemma PopOwn(s: Server, l: nat, id: nat)
    requires l < |s.loops| && s.loops[l].queue != [] && ConnOk(s, id)
    requires var t := s.loops[l].queue[0]; t.Send? || t.Shutdown? || t.WriteComplete?
    ensures ConnOk(SetLoop(s, l, s.loops[l].(queue := s.loops[l].queue[1..])), id)
  {
    hide Count;
    CountPop(s.loops[l].queue);
    assert QueueOk(s.loops[l].queue, l, id, s.conns[id]);
  }

  /** The connection changes, but not its stage. */
  ghost predicate SameStage(r: Record, r': Record)
  {
    && RecordOk(r') && r'.io == r.io && r'.registered == r.registered && r'.history == r.history
    && (r.conn.phase.Disconnecting? ==> !r'.conn.phase.Connected?)
  }

  lemma ChangeOwn(s: Server, id: nat, r: Record)
    requires ConnOk(s, id) && SameStage(s.conns[id], r)
    ensures ConnOk(SetConn(s, id, r), id)
  {
    hide Count, Ordered;
    var s' := SetConn(s, id, r);
    forall l | 0 <= l < |s.loops| ensures QueueOk(s'.loops[l].queue, l, id, s'.conns[id]) {
      assert QueueOk(s.loops[l].queue, l, id, s.conns[id]);
    }
  }

  lemma EstablishOwn(s: Server, l: nat, id: nat)
    requires l < |s.loops| && s.loops[l].queue != [] && s.loops[l].queue[0] == Establish(id) && ConnOk(s, id)
    ensures |s.conns[id].history| == 0
    ensures ConnOk(DoEstablish(SetLoop(s, l, s.loops[l].(queue := s.loops[l].queue[1..])), id), id)
  {
    hide Count;
    var q := s.loops[l].queue;
    CountPop(q);
    assert QueueOk(q, l, id, s.conns[id]);
    var s' := DoEstablish(SetLoop(s, l, s.loops[l].(queue := q[1..])), id);
    forall m | 0 <= m < |s.loops| ensures QueueOk(s'.loops[m].queue, m, id, s'.conns[id]) {
      assert QueueOk(s.loops[m].queue, m, id, s.conns[id]);
    }
  }

  lemma CloseOwn(s: Server, id: nat)
    requires ConnOk(s, id) && T.Open(s.conns[id].conn)
    ensures ConnOk(DoClose(s, id), id)
  {
    hide Count, Ordered;
    var s' := DoClose(s, id);
    var closing := s.loops[s.conns[id].io].closing;
    assert Count([id] + closing, id) == Count(closing, id) + 1 by {
      CountPop([id] + closing);
      assert ([id] + closing)[1..] == closing;
    }
    forall l | 0 <= l < |s.loops| ensures QueueOk(s'.loops[l].queue, l, id, s'.conns[id]) {
      assert QueueOk(s.loops[l].queue, l, id, s.conns[id]);
    }
  }

  /** closeCallback_ on a loop other than the server's. */
  lemma HandOverOwn(s: Server, l: nat, id: nat)
    requires 0 < l < |s.loops| && s.loops[l].closing != [] && s.loops[l].closing[0] == id && ConnOk(s, id)
    ensures ConnOk(Post(SetLoop(s, l, s.loops[l].(closing := s.loops[l].closing[1..])), 0, RemoveInLoop(id)), id)
  {
    hide Count, Ordered;
    CountPop(s.loops[l].closing);
    CountPush(s.loops[0].queue, RemoveInLoop(id));
    assert QueueOk(s.loops[0].queue, 0, id, s.conns[id]);
    OrderedPush(s.loops[0].queue, id, RemoveInLoop(id));
  }

  /** Between its removal from the map and connectDestroyed there is exactly the Destroy functor. */
  lemma EraseOwn(s: Server, id: nat)
    requires id < |s.conns| && |s.loops| > 0 && s.conns[id].io < |s.loops|
    requires RecordOk(s.conns[id]) && |s.conns[id].history| == 2 && id in s.connections
    requires forall l :: 0 <= l < |s.loops| ==>
               QueueOk(s.loops[l].queue, l, id, s.conns[id])
               && Count(s.loops[l].closing, id) == 0 && Count(s.loops[l].queue, RemoveInLoop(id)) == 0
    ensures ConnOk(DoErase(s, id), id)
  {
    hide Count, Ordered;
    var s' := DoErase(s, id);
    var io := s.conns[id].io;
    CountPush(s.loops[io].queue, Destroy(id));
    OrderedPush(s.loops[io].queue, id, Destroy(id));
    forall l | 0 <= l < |s.loops| ensures QueueOk(s'.loops[l].queue, l, id, s'.conns[id]) {
      assert QueueOk(s.loops[l].queue, l, id, s.conns[id]);
    }
  }

  lemma DestroyOwn(s: Server, l: nat, id: nat)
    requires l < |s.loops| && s.loops[l].queue != [] && s.loops[l].queue[0] == Destroy(id) && ConnOk(s, id)
    ensures |s.conns[id].history| == 3 && l == s.conns[id].io
    ensures ConnOk(DoDestroy(SetLoop(s, l, s.loops[l].(queue := s.loops[l].queue[1..])), id), id)
  {
    hide Count;
    var q := s.loops[l].queue;
    CountPop(q);
    assert QueueOk(q, l, id, s.conns[id]);
    var s' := DoDestroy(SetLoop(s, l, s.loops[l].(queue := q[1..])), id);
    forall m | 0 <= m < |s.loops| ensures QueueOk(s'.loops[m].queue, m, id, s'.conns[id]) {
      assert QueueOk(s.loops[m].queue, m, id, s.conns[id]);
    }
  }

  //// the loops ////

  lemma QueueLoops(s: Server, l: nat, queue: seq<Task>)
    requires LoopsOk(s) && l < |s.loops|
    requires forall i :: 0 <= i < |queue| ==> queue[i].id < |s.conns|
    ensures LoopsOk(SetLoop(s, l, s.loops[l].(queue := queue)))
  {
    forall m | 0 <= m < |s.loops| ensures LoopOk(SetLoop(s, l, s.loops[l].(queue := queue)), m) {
      assert LoopOk(s, m);
    }
  }

  lemma PostLoops(s: Server, l: nat, t: Task)
    requires LoopsOk(s) && l < |s.loops| && t.id < |s.conns|
    ensures LoopsOk(Post(s, l, t))
  {
    assert LoopWf(s.loops[l], |s.conns|);
    QueueLoops(s, l, s.loops[l].queue + [t]);
  }

  lemma PopLoops(s: Server, l: nat)
    requires LoopsOk(s) && l < |s.loops| && s.loops[l].queue != []
    ensures s.loops[l].queue[0].id < |s.conns|
    ensures LoopsOk(SetLoop(s, l, s.loops[l].(queue := s.loops[l].queue[1..])))
  {
    assert LoopWf(s.loops[l], |s.conns|);
    QueueLoops(s, l, s.loops[l].queue[1..]);
  }

  lemma FramesLoops(s: Server, l: nat, closing: seq<nat>)
    requires LoopsOk(s) && l < |s.loops|
    requires forall i :: 0 <= i < |closing| ==> closing[i] < |s.conns|
    ensures LoopsOk(SetLoop(s, l, s.loops[l].(closing := closing)))
  {
    forall m | 0 <= m < |s.loops| ensures LoopOk(SetLoop(s, l, s.loops[l].(closing := closing)), m) {
      assert LoopOk(s, m);
    }
  }

  /** The stage of a connection only grows, and reaches the last one while its loop is at rest. */
  lemma RecordLoops(s: Server, id: nat, r: Record, connections: set<nat>)
    requires LoopsOk(s) && id < |s.conns| && r.io == s.conns[id].io
    requires |s.conns[id].history| <= |r.history|
    requires |r.history| <= 3 || |r.history| == |s.conns[id].history| || AtRest(s.loops[r.io])
    ensures LoopsOk(SetConn(s, id, r).(connections := connections))
  {
    var s' := SetConn(s, id, r).(connections := connections);
    forall m | 0 <= m < |s.loops| ensures LoopOk(s', m) {
      assert LoopOk(s, m);
    }
  }

  //// one step ////

  /** The parts of ConnOk that the assertions of the code are about. */
  lemma RecordsOf(s: Server, id: nat)
    requires ConnOk(s, id)
    ensures RecordOk(s.conns[id]) && s.conns[id].io < |s.loops|
    ensures id in s.connections <==> |s.conns[id].history| < 3
  {}

  lemma PoppedHead(s: Server, l: nat) returns (id: nat, popped: Server)
    requires Inv(s) && l < |s.loops| && s.loops[l].queue != []
    ensures id == s.loops[l].queue[0].id && id < |s.conns| && ConnOk(s, id)
    ensures popped == SetLoop(s, l, s.loops[l].(queue := s.loops[l].queue[1..]))
    ensures LoopsOk(popped) && RecordOk(s.conns[id])
    ensures forall i :: 0 <= i < |s.conns| && i != id ==> ConnOk(popped, i)
  {
    PopLoops(s, l);
    id := s.loops[l].queue[0].id;
    popped := SetLoop(s, l, s.loops[l].(queue := s.loops[l].queue[1..]));
    forall i | 0 <= i < |s.conns| && i != id ensures ConnOk(popped, i) {
      assert ConnOk(s, i);
      PopOthers(s, l, i);
    }
    RecordsOf(s, id);
  }

  lemma RecordOthers(s: Server, id: nat, r: Record)
    requires id < |s.conns| && forall i :: 0 <= i < |s.conns| && i != id ==> ConnOk(s, i)
    ensures forall i :: 0 <= i < |s.conns| && i != id ==> ConnOk(SetConn(s, id, r), i)
  {
    hide ConnOk;
    forall i | 0 <= i < |s.conns| && i != id ensures ConnOk(SetConn(s, id, r), i) {
      SetConnOthers(s, id, r, s.connections, i);
    }
  }

  lemma EstablishTaskKeepsInv(s: Server, l: nat, n: int)
    requires Inv(s) && Enabled(s, RunTask(l, n)) && s.loops[l].queue[0].Establish?
    ensures Asserts(s, RunTask(l, n)) && Inv(DoTask(s, l, n))
  {
    hide ConnOk, LoopsOk;
    var id, popped := PoppedHead(s, l);
    var s' := DoTask(s, l, n);
    EstablishOwn(s, l, id);
    RecordOthers(popped, id, s'.conns[id]);
    RecordLoops(popped, id, s'.conns[id], s.connections);
  }

  lemma DestroyTaskKeepsInv(s: Server, l: nat, n: int)
    requires Inv(s) && Enabled(s, RunTask(l, n)) && s.loops[l].queue[0].Destroy?
    ensures Asserts(s, RunTask(l, n)) && Inv(DoTask(s, l, n))
  {
    hide ConnOk, LoopsOk;
    var id, popped := PoppedHead(s, l);
    var s' := DoTask(s, l, n);
    DestroyOwn(s, l, id);
    RecordOthers(popped, id, s'.conns[id]);
    RecordLoops(popped, id, s'.conns[id], s.connections);
  }

  lemma EraseOthers(s: Server, id: nat)
    requires LoopsOk(s) && id < |s.conns| && s.conns[id].io < |s.loops| && |s.conns[id].history| < 3
    requires forall i :: 0 <= i < |s.conns| && i != id ==> ConnOk(s, i)
    ensures LoopsOk(DoErase(s, id))
    ensures forall i :: 0 <= i < |s.conns| && i != id ==> ConnOk(DoErase(s, id), i)
  {
    hide ConnOk, LoopsOk;
    var r := s.conns[id].(history := s.conns[id].history + [Erased]);
    var erased := SetConn(s, id, r).(connections := s.connections - {id});
    RecordLoops(s, id, r, s.connections - {id});
    PostLoops(erased, r.io, Destroy(id));
    forall i | 0 <= i < |s.conns| && i != id ensures ConnOk(DoErase(s, id), i) {
      SetConnOthers(s, id, r, s.connections - {id}, i);
      PostOthers(erased, r.io, Destroy(id), i);
    }
  }

  lemma RemoveOwn(s: Server, l: nat, id: nat)
    requires l < |s.loops| && s.loops[l].queue != [] && s.loops[l].queue[0] == RemoveInLoop(id) && ConnOk(s, id)
    ensures |s.conns[id].history| == 2 && l == 0
    ensures ConnOk(DoErase(SetLoop(s, l, s.loops[l].(queue := s.loops[l].queue[1..])), id), id)
  {
    hide Count;
    var q := s.loops[l].queue;
    CountPop(q);
    var popped := SetLoop(s, l, s.loops[l].(queue := q[1..]));
    assert QueueOk(q, l, id, s.conns[id]);
    forall m | 0 <= m < |s.loops|
      ensures QueueOk(popped.loops[m].queue, m, id, s.conns[id]) && Count(popped.loops[m].queue, RemoveInLoop(id)) == 0
    {
      assert QueueOk(s.loops[m].queue, m, id, s.conns[id]);
    }
    EraseOwn(popped, id);
  }

  lemma RemoveTaskKeepsInv(s: Server, l: nat, n: int)
    requires Inv(s) && Enabled(s, RunTask(l, n)) && s.loops[l].queue[0].RemoveInLoop?
    ensures Asserts(s, RunTask(l, n)) && Inv(DoTask(s, l, n))
  {
    hide ConnOk, LoopsOk;
    var id, popped := PoppedHead(s, l);
    RecordsOf(s, id);
    RemoveOwn(s, l, id);
    EraseOthers(popped, id);
  }

  //// sends, writes and shutdowns ////

  /** A step that changes one connection within its stage. */
  lemma ChangeKeepsInv(s: Server, id: nat, r: Record)
    requires Inv(s) && id < |s.conns| && SameStage(s.conns[id], r)
    ensures Inv(SetConn(s, id, r))
  {
    hide ConnOk, LoopsOk;
    assert ConnOk(s, id);
    ChangeOwn(s, id, r);
    RecordOthers(s, id, r);
    RecordLoops(s, id, r, s.connections);
  }

  lemma PostKeepsInv(s: Server, t: Task)
    requires Inv(s) && t.id < |s.conns|
    requires var k := |s.conns[t.id].history|;
             match t
             case WriteComplete(_) => 1 <= k <= 2
             case Send(_, _) => k > 0
             case Shutdown(_) => k > 0 && !s.conns[t.id].conn.phase.Connected?
             case _ => false
    ensures Inv(Post(s, s.conns[t.id].io, t))
  {
    hide ConnOk, LoopsOk;
    assert ConnOk(s, t.id);
    PostOwn(s, t);
    PostLoops(s, s.conns[t.id].io, t);
    forall i | 0 <= i < |s.conns| && i != t.id ensures ConnOk(Post(s, s.conns[t.id].io, t), i) {
      assert ConnOk(s, i);
      PostOthers(s, s.conns[t.id].io, t, i);
    }
  }

  lemma PopKeepsInv(s: Server, l: nat)
    requires Inv(s) && l < |s.loops| && s.loops[l].queue != []
    requires var t := s.loops[l].queue[0]; t.Send? || t.Shutdown? || t.WriteComplete?
    ensures Inv(SetLoop(s, l, s.loops[l].(queue := s.loops[l].queue[1..])))
  {
    hide ConnOk, LoopsOk;
    var id, popped := PoppedHead(s, l);
    PopOwn(s, l, id);
    LoopsAreWf(popped);
  }

  lemma LoopsAreWf(s: Server)
    requires LoopsOk(s)
    ensures Wf(s)
  {}

  lemma SendKeepsInv(s: Server, id: nat, data: seq<T.Byte>, n: int)
    requires Inv(s) && id < |s.conns| && T.WriteResult(n, |data|) && !s.conns[id].conn.phase.Connecting?
    ensures Inv(DoSend(s, id, data, n))
  {
    hide ConnOk, LoopsOk, T.SendInLoop, T.ConnInv;
    var r := s.conns[id];
    assert ConnOk(s, id);
    RecordsOf(s, id);
    T.SendKeeps(r.conn, data, n);
    ChangeKeepsInv(s, id, r.(conn := T.SendInLoop(r.conn, data, n)));
    if T.SendCompletes(r.conn, data, n) {
      PostKeepsInv(SetConn(s, id, r.(conn := T.SendInLoop(r.conn, data, n))), WriteComplete(id));
    }
  }

  lemma WriteKeepsInv(s: Server, id: nat, n: int)
    requires Inv(s) && id < |s.conns| && T.WriteResult(n, |s.conns[id].conn.out|)
    ensures Inv(DoWrite(s, id, n))
  {
    hide ConnOk, LoopsOk, T.HandleWrite;
    var r := s.conns[id];
    assert ConnOk(s, id);
    RecordsOf(s, id);
    T.WriteKeeps(r.conn, n);
    ChangeKeepsInv(s, id, r.(conn := T.HandleWrite(r.conn, n)));
    if T.WriteCompletes(r.conn, n) {
      PostKeepsInv(SetConn(s, id, r.(conn := T.HandleWrite(r.conn, n))), WriteComplete(id));
    }
  }

  lemma ShutdownKeepsInv(s: Server, id: nat)
    requires Inv(s) && id < |s.conns|
    requires s.conns[id].conn.phase.Disconnecting? || s.conns[id].conn.phase.Disconnected?
    ensures Inv(DoShutdown(s, id))
  {
    hide ConnOk, LoopsOk;
    assert ConnOk(s, id);
    RecordsOf(s, id);
    ChangeKeepsInv(s, id, s.conns[id].(conn := T.ShutdownInLoop(s.conns[id].conn)));
  }

  lemma MarkKeepsInv(s: Server, id: nat)
    requires Inv(s) && id < |s.conns|
    ensures Inv(SetConn(s, id, s.conns[id].(conn := T.MarkShutdown(s.conns[id].conn))))
  {
    hide ConnOk, LoopsOk;
    assert ConnOk(s, id);
    RecordsOf(s, id);
    ChangeKeepsInv(s, id, s.conns[id].(conn := T.MarkShutdown(s.conns[id].conn)));
  }

  lemma OtherTaskKeepsInv(s: Server, l: nat, n: int)
    requires Inv(s) && Enabled(s, RunTask(l, n))
    requires var t := s.loops[l].queue[0]; t.Send? || t.Shutdown? || t.WriteComplete?
    ensures Asserts(s, RunTask(l, n)) && Inv(DoTask(s, l, n))
  {
    hide ConnOk, LoopsOk;
    var id, popped := PoppedHead(s, l);
    PopKeepsInv(s, l);
    TaskStage(s, l, 0);
    match s.loops[l].queue[0]
    case Send(_, data) => SendKeepsInv(popped, id, data, n);
    case Shutdown(_) => ShutdownKeepsInv(popped, id);
    case WriteComplete(_) => CompleteIsReferenced(s, l, 0);
  }

  /** What a queued functor says about the stage of its connection. */
  lemma TaskStage(s: Server, l: nat, i: nat)
    requires Inv(s) && l < |s.loops| && i < |s.loops[l].queue|
    ensures var t := s.loops[l].queue[i];
            && t.id < |s.conns|
            && (t.Send? ==> !s.conns[t.id].conn.phase.Connecting?)
            && (t.Shutdown? ==> s.conns[t.id].conn.phase.Disconnecting? || s.conns[t.id].conn.phase.Disconnected?)
            && (t.WriteComplete? ==> 1 <= |s.conns[t.id].history| <= 3)
  {
    assert LoopWf(s.loops[l], |s.conns|);
    var t := s.loops[l].queue[i];
    assert ConnOk(s, t.id);
    assert QueueOk(s.loops[l].queue, l, t.id, s.conns[t.id]);
    assert t in s.loops[l].queue;
  }

  //// references ////

  /** A connection whose channel is registered has an owner. */
  lemma RegisteredIsReferenced(s: Server, id: nat)
    requires Inv(s) && id < |s.conns| && s.conns[id].registered
    ensures Referenced(s, id)
  {
    assert ConnOk(s, id);
    var io := s.conns[id].io;
    if |s.conns[id].history| == 3 {
      assert QueueOk(s.loops[io].queue, io, id, s.conns[id]);
      CountIn(s.loops[io].queue, Destroy(id));
      var i :| 0 <= i < |s.loops[io].queue| && s.loops[io].queue[i] == Destroy(id);
      assert s.loops[io].queue[i].id == id && !s.loops[io].queue[i].WriteComplete?;
    }
  }

  /** So has one for which a functor with a bare this is queued. */
  lemma CompleteIsReferenced(s: Server, l: nat, i: nat)
    requires Inv(s) && l < |s.loops| && i < |s.loops[l].queue| && s.loops[l].queue[i].WriteComplete?
    ensures s.loops[l].queue[i].id < |s.conns| && s.conns[s.loops[l].queue[i].id].registered
    ensures Referenced(s, s.loops[l].queue[i].id)
  {
    TaskStage(s, l, i);
    assert ConnOk(s, s.loops[l].queue[i].id);
    RegisteredIsReferenced(s, s.loops[l].queue[i].id);
  }

  //// events and callbacks ////

  lemma EventsKeepInv(s: Server, l: nat, active: seq<nat>, current: Current)
    requires Inv(s) && l < |s.loops|
    requires forall i :: 0 <= i < |active| ==> Listable(s, l, active[i])
    requires forall i, j :: 0 <= i < j < |active| ==> active[i] != active[j]
    requires current.WriteEventOf? ==> Listable(s, l, current.id)
    ensures Inv(SetLoop(s, l, s.loops[l].(active := active, current := current)))
  {
    hide ConnOk;
    var s' := SetLoop(s, l, s.loops[l].(active := active, current := current));
    forall i | 0 <= i < |s.conns| ensures ConnOk(s', i) {
      EventsOthers(s, l, active, current, i);
    }
    forall m | 0 <= m < |s.loops| ensures LoopOk(s', m) {
      assert LoopOk(s, m);
    }
  }

  lemma PollKeepsInv(s: Server, l: nat, ids: seq<nat>)
    requires Inv(s) && Enabled(s, Poll(l, ids))
    ensures Inv(Apply(s, Poll(l, ids))) && forall i :: 0 <= i < |ids| ==> |s.conns[ids[i]].history| == 1
  {
    hide LoopsOk;
    forall i | 0 <= i < |ids| ensures Listable(s, l, ids[i]) && |s.conns[ids[i]].history| == 1 {
      assert ConnOk(s, ids[i]);
    }
    EventsKeepInv(s, l, ids, NoEvent);
  }

  lemma CloseKeepsInv(s: Server, id: nat)
    requires Inv(s) && id < |s.conns| && T.Open(s.conns[id].conn)
    ensures s.conns[id].io < |s.loops| && Inv(DoClose(s, id))
  {
    hide ConnOk, LoopsOk;
    assert ConnOk(s, id);
    RecordsOf(s, id);
    CloseOwn(s, id);
    var s' := DoClose(s, id);
    var r := s'.conns[id];
    var closing := s.loops[r.io].closing;
    var changed := SetConn(s, id, r);
    RecordLoops(s, id, r, s.connections);
    assert LoopWf(s.loops[r.io], |s.conns|);
    FramesLoops(changed, r.io, [id] + closing);
    RecordOthers(s, id, r);
    forall i | 0 <= i < |s.conns| && i != id ensures ConnOk(s', i) {
      assert Count([id] + closing, i) == Count(closing, i) by {
        CountPop([id] + closing);
        assert ([id] + closing)[1..] == closing;
      }
      FramesOthers(changed, r.io, [id] + closing, i);
    }
    LoopsAreWf(s');
  }

  lemma PopFrame(s: Server, l: nat) returns (id: nat, popped: Server)
    requires Inv(s) && l < |s.loops| && s.loops[l].closing != []
    ensures id == s.loops[l].closing[0] && id < |s.conns| && ConnOk(s, id)
    ensures popped == SetLoop(s, l, s.loops[l].(closing := s.loops[l].closing[1..]))
    ensures LoopsOk(popped)
    ensures forall i :: 0 <= i < |s.conns| && i != id ==> ConnOk(popped, i)
    ensures s.conns[id].io == l && |s.conns[id].history| == 2 && RecordOk(s.conns[id]) && id in s.connections
  {
    hide LoopsOk;
    assert LoopWf(s.loops[l], |s.conns|);
    var closing := s.loops[l].closing;
    id := closing[0];
    popped := SetLoop(s, l, s.loops[l].(closing := closing[1..]));
    FramesLoops(s, l, closing[1..]);
    CountPop(closing);
    forall i | 0 <= i < |s.conns| && i != id ensures ConnOk(popped, i) {
      assert ConnOk(s, i);
      FramesOthers(s, l, closing[1..], i);
    }
    assert ConnOk(s, id);
  }

  lemma CloseCallbackKeepsInv(s: Server, l: nat)
    requires Inv(s) && Enabled(s, CloseCallback(l))
    ensures Asserts(s, CloseCallback(l)) && Inv(DoCloseCallback(s, l))
  {
    hide ConnOk, LoopsOk;
    var id, popped := PopFrame(s, l);
    if l == 0 {
      InlineEraseOwn(s, id);
      EraseOthers(popped, id);
      LoopsAreWf(DoErase(popped, id));
    } else {
      HandOverOwn(s, l, id);
      PostLoops(popped, 0, RemoveInLoop(id));
      forall i | 0 <= i < |s.conns| && i != id ensures ConnOk(Post(popped, 0, RemoveInLoop(id)), i) {
        PostOthers(popped, 0, RemoveInLoop(id), i);
      }
      LoopsAreWf(Post(popped, 0, RemoveInLoop(id)));
    }
  }

  lemma InlineEraseOwn(s: Server, id: nat)
    requires ConnOk(s, id) && s.conns[id].io == 0 && s.loops[0].closing != [] && s.loops[0].closing[0] == id
    ensures ConnOk(DoErase(SetLoop(s, 0, s.loops[0].(closing := s.loops[0].closing[1..])), id), id)
  {
    hide Count, Ordered;
    CountPop(s.loops[0].closing);
    var popped := SetLoop(s, 0, s.loops[0].(closing := s.loops[0].closing[1..]));
    forall m | 0 <= m < |s.loops|
      ensures QueueOk(popped.loops[m].queue, m, id, s.conns[id])
      ensures Count(popped.loops[m].queue, RemoveInLoop(id)) == 0 && Count(popped.loops[m].closing, id) == 0
    {
      assert QueueOk(s.loops[m].queue, m, id, s.conns[id]);
    }
    EraseOwn(popped, id);
  }

  //// a new connection ////

  function Added(s: Server, io: nat): Server
  {
    s.(conns := s.conns + [NewRecord(io)], connections := s.connections + {|s.conns|})
  }

  lemma {:induction false} NeverMentioned(q: seq<Task>, id: nat)
    requires forall i :: 0 <= i < |q| ==> q[i].id < id
    ensures Ordered(q, id) && forall t: Task :: t.id == id ==> Count(q, t) == 0
  {
    if q != [] {
      NeverMentioned(q[1..], id);
      CountPop(q);
    }
  }

  lemma AddedOthers(s: Server, io: nat, id: nat)
    requires ConnOk(s, id) && io < |s.loops|
    ensures ConnOk(Added(s, io), id)
  {
    hide Count, QueueOk;
  }

  lemma AddedLoops(s: Server, io: nat)
    requires LoopsOk(s) && io < |s.loops|
    ensures LoopsOk(Added(s, io))
  {
    forall m | 0 <= m < |s.loops| ensures LoopOk(Added(s, io), m) {
      assert LoopOk(s, m);
    }
  }

  /** A queue without a word of the connection, and the same queue with its Establish. */
  lemma FirstWord(q: seq<Task>, l: nat, id: nat, r: Record)
    requires forall i :: 0 <= i < |q| ==> q[i].id < id
    requires RecordOk(r) && |r.history| <= 1
    ensures l != r.io || |r.history| == 1 ==> QueueOk(q, l, id, r)
    ensures l == r.io && |r.history| == 0 ==> QueueOk(q + [Establish(id)], l, id, r)
    ensures Count(q, RemoveInLoop(id)) == 0 && Count(q + [Establish(id)], RemoveInLoop(id)) == 0
  {
    hide Count, Ordered;
    NeverMentioned(q, id);
    CountPush(q, Establish(id));
    OrderedPush(q, id, Establish(id));
  }

  lemma AddedOwn(s: Server, io: nat)
    requires LoopsOk(s) && io < |s.loops|
    ensures ConnOk(DoNewConnection(s, io), |s.conns|)
  {
    hide Count, QueueOk;
    var id: nat := |s.conns|;
    var s' := DoNewConnection(s, io);
    assert LIFECYCLE[..1] == [] + [Established];
    assert RecordOk(s'.conns[id]);
    forall m | 0 <= m < |s.loops|
      ensures QueueOk(s'.loops[m].queue, m, id, s'.conns[id]) && Count(s'.loops[m].closing, id) == 0
      ensures Count(s'.loops[m].queue, RemoveInLoop(id)) == 0
    {
      assert LoopOk(s, m);
      FirstWord(s.loops[m].queue, m, id, s'.conns[id]);
      CountIn(s.loops[m].closing, id);
    }
  }

  lemma NewConnectionKeepsInv(s: Server, io: nat)
    requires Inv(s) && Enabled(s, NewConnection(io))
    ensures Inv(DoNewConnection(s, io))
  {
    hide ConnOk, LoopsOk;
    var id := |s.conns|;
    var added := Added(s, io);
    var s' := DoNewConnection(s, io);
    AddedOwn(s, io);
    AddedLoops(s, io);
    forall i | 0 <= i < id ensures ConnOk(added, i) {
      AddedOthers(s, io, i);
    }
    if io == 0 {
      RecordLoops(added, id, s'.conns[id], added.connections);
      RecordOthers(added, id, s'.conns[id]);
    } else {
      PostLoops(added, io, Establish(id));
      forall i | 0 <= i < id ensures ConnOk(s', i) {
        PostOthers(added, io, Establish(id), i);
      }
    }
    LoopsAreWf(s');
  }

  //// one event ////

  lemma ReadKeepsInv(s: Server, l: nat, result: ReadResult, alsoWrite: bool)
    requires Inv(s) && Enabled(s, ReadEvent(l, result, alsoWrite)) && Asserts(s, ReadEvent(l, result, alsoWrite))
    ensures Inv(DoRead(s, l, result, alsoWrite))
  {
    hide ConnOk;
    assert LoopOk(s, l);
    var active := s.loops[l].active;
    var current := if alsoWrite then WriteEventOf(active[0]) else NoEvent;
    EventsKeepInv(s, l, active[1..], current);
    if result.EndOfFile? {
      CloseKeepsInv(SetLoop(s, l, s.loops[l].(active := active[1..], current := current)), active[0]);
    }
  }

  lemma WriteEventKeepsInv(s: Server, l: nat, n: int)
    requires Inv(s) && Enabled(s, WriteEvent(l, n))
    ensures Inv(Apply(s, WriteEvent(l, n)))
  {
    hide ConnOk, T.HandleWrite;
    assert LoopOk(s, l);
    EventsKeepInv(s, l, s.loops[l].active, NoEvent);
    WriteKeepsInv(SetLoop(s, l, s.loops[l].(current := NoEvent)), s.loops[l].current.id, n);
  }

  lemma StepKeepsInv(s: Server, step: Step)
    requires Inv(s) && Enabled(s, step) && Asserts(s, step)
    ensures Inv(Apply(s, step))
  {
    hide ConnOk, LoopsOk, DoRead, DoSend, DoWrite, DoClose, DoShutdown, DoNewConnection, DoCloseCallback, DoTask;
    match step
    case NewConnection(io) => NewConnectionKeepsInv(s, io);
    case Poll(l, ids) => PollKeepsInv(s, l, ids);
    case ReadEvent(l, result, alsoWrite) => ReadKeepsInv(s, l, result, alsoWrite);
    case WriteEvent(l, n) => WriteEventKeepsInv(s, l, n);
    case CloseCallback(l) => CloseCallbackKeepsInv(s, l);
    case RunTask(l, n) => TaskKeepsInv(s, l, n);
    case UserSend(id, data, n) => if s.conns[id].conn.phase.Connected? { SendKeepsInv(s, id, data, n); }
    case UserShutdown(id) =>
      if s.conns[id].conn.phase.Connected? {
        MarkKeepsInv(s, id);
        ShutdownKeepsInv(SetConn(s, id, s.conns[id].(conn := T.MarkShutdown(s.conns[id].conn))), id);
      }
    case UserForceClose(id) => if T.Open(s.conns[id].conn) { CloseKeepsInv(s, id); }
    case TestSend(id, data) => TestKeepsInv(s, id, data);
    case PushSend(id, i) => PushKeepsInv(s, id, Sent(s.conns[id], i), Send(id, s.conns[id].sending[i]));
    case TestShutdown(id) => TestKeepsInv(s, id, []);
    case PushShutdown(id) =>
      PushKeepsInv(s, id, s.conns[id].(shutting := s.conns[id].shutting - 1), Shutdown(id));
  }

  lemma TaskKeepsInv(s: Server, l: nat, n: int)
    requires Inv(s) && Enabled(s, RunTask(l, n))
    ensures Asserts(s, RunTask(l, n)) && Inv(DoTask(s, l, n))
  {
    hide ConnOk, LoopsOk, DoTask;
    match s.loops[l].queue[0]
    case Establish(_) => EstablishTaskKeepsInv(s, l, n);
    case RemoveInLoop(_) => RemoveTaskKeepsInv(s, l, n);
    case Destroy(_) => DestroyTaskKeepsInv(s, l, n);
    case _ => OtherTaskKeepsInv(s, l, n);
  }

  /** The tests of send() and shutdown() by another thread. */
  lemma TestKeepsInv(s: Server, id: nat, data: seq<T.Byte>)
    requires Inv(s) && id < |s.conns|
    ensures Inv(SetConn(s, id, Tested(s.conns[id], data))) && Inv(SetConn(s, id, Shutting(s.conns[id])))
  {
    hide ConnOk, LoopsOk;
    assert ConnOk(s, id);
    RecordsOf(s, id);
    ChangeKeepsInv(s, id, Tested(s.conns[id], data));
    ChangeKeepsInv(s, id, Shutting(s.conns[id]));
  }

  /** Their pushes. */
  lemma PushKeepsInv(s: Server, id: nat, r: Record, t: Task)
    requires Inv(s) && id < |s.conns| && t.id == id
    requires r == s.conns[id].(sending := r.sending, shutting := r.shutting)
    requires |r.sending| <= |s.conns[id].sending| && r.shutting <= s.conns[id].shutting
    requires (t.Send? && s.conns[id].sending != []) || (t.Shutdown? && s.conns[id].shutting > 0)
    ensures r.io < |s.loops| && Inv(Post(SetConn(s, id, r), r.io, t))
  {
    hide ConnOk, LoopsOk;
    assert ConnOk(s, id);
    RecordsOf(s, id);
    ChangeKeepsInv(s, id, r);
    PostKeepsInv(SetConn(s, id, r), t);
  }

  //// whole runs ////

  ghost predicate IsRun(s: Server, steps: seq<Step>)
    decreases |steps|
  {
    Wf(s) && (steps == [] || (Enabled(s, steps[0]) && IsRun(Apply(s, steps[0]), steps[1..])))
  }

  ghost function After(s: Server, steps: seq<Step>): (s': Server)
    requires IsRun(s, steps)
    ensures Wf(s')
    decreases |steps|
  {
    if steps == [] then s else After(Apply(s, steps[0]), steps[1..])
  }

  function Initial(loops: nat): Server
  {
    Server(seq(loops, _ => Loop([], [], NoEvent, [])), [], {})
  }

  /** Every listed channel is still open. */
  ghost predicate Fresh(s: Server)
  {
    forall l, i :: 0 <= l < |s.loops| && 0 <= i < |s.loops[l].active| ==>
      s.loops[l].active[i] < |s.conns| && |s.conns[s.loops[l].active[i]].history| == 1
  }

  /** forceClose is not called on a connection whose own event of the same poll is still to come. */
  predicate Guarded(s: Server, step: Step)
    requires Wf(s) && Enabled(s, step)
  {
    step.UserForceClose? ==> step.id !in s.loops[s.conns[step.id].io].active
  }

  ghost predicate GuardedRun(s: Server, steps: seq<Step>)
    requires IsRun(s, steps)
    decreases |steps|
  {
    steps == [] || (Guarded(s, steps[0]) && GuardedRun(Apply(s, steps[0]), steps[1..]))
  }

  lemma AssertsHold(s: Server, step: Step)
    requires Inv(s) && Fresh(s) && Enabled(s, step)
    ensures Asserts(s, step)
  {
    hide DoTask, DoCloseCallback;
    match step
    case ReadEvent(l, _, _) =>
      assert ConnOk(s, s.loops[l].active[0]);
    case CloseCallback(l) => CloseCallbackKeepsInv(s, l);
    case RunTask(l, n) => TaskKeepsInv(s, l, n);
    case _ =>
  }

  /** Nothing but a close ends the open stage, and nothing but a poll lists a channel. */
  ghost predicate KeepsOpen(s: Server, s': Server)
  {
    && |s'.loops| == |s.loops| && |s.conns| <= |s'.conns|
    && (forall l :: 0 <= l < |s.loops| ==> s'.loops[l].active == s.loops[l].active)
    && (forall id :: 0 <= id < |s.conns| && |s.conns[id].history| == 1 ==> |s'.conns[id].history| == 1)
  }

  lemma SendKeepsOpen(s: Server, id: nat, data: seq<T.Byte>, n: int)
    requires id < |s.conns| && s.conns[id].io < |s.loops| && T.WriteResult(n, |data|)
    ensures KeepsOpen(s, DoSend(s, id, data, n))
  {
    hide T.SendInLoop;
  }

  lemma WriteKeepsOpen(s: Server, id: nat, n: int)
    requires id < |s.conns| && s.conns[id].io < |s.loops| && T.WriteResult(n, |s.conns[id].conn.out|)
    ensures KeepsOpen(s, DoWrite(s, id, n))
  {
    hide T.HandleWrite;
  }

  lemma CallbackKeepsOpen(s: Server, l: nat)
    requires Inv(s) && Enabled(s, CloseCallback(l))
    ensures KeepsOpen(s, DoCloseCallback(s, l))
  {
    hide ConnOk, LoopsOk;
    var id, popped := PopFrame(s, l);
  }

  lemma StepKeepsOpen(s: Server, step: Step)
    requires Inv(s) && Enabled(s, step) && !step.Poll? && !step.ReadEvent? && !step.UserForceClose?
    ensures KeepsOpen(s, Apply(s, step))
  {
    hide ConnOk, LoopsOk, DoTask, DoCloseCallback, DoSend, DoWrite;
    match step
    case RunTask(l, n) => TaskKeepsOpen(s, l, n);
    case CloseCallback(l) => CallbackKeepsOpen(s, l);
    case UserSend(id, data, n) => SendKeepsOpen(s, id, data, n);
    case WriteEvent(l, n) =>
      WriteKeepsOpen(SetLoop(s, l, s.loops[l].(current := NoEvent)), s.loops[l].current.id, n);
    case _ =>
  }

  lemma StepKeepsFresh(s: Server, step: Step)
    requires Inv(s) && Fresh(s) && Enabled(s, step) && Guarded(s, step)
    ensures Fresh(Apply(s, step))
  {
    hide ConnOk, LoopOk, DoRead;
    match step
    case Poll(l, ids) => PollKeepsInv(s, l, ids);
    case ReadEvent(l, result, alsoWrite) => ReadKeepsFresh(s, l, result, alsoWrite);
    case UserForceClose(id) => ForceCloseKeepsFresh(s, id);
    case _ =>
      hide Apply;
      StepKeepsOpen(s, step);
  }

  lemma ForceCloseKeepsFresh(s: Server, id: nat)
    requires Inv(s) && Fresh(s) && Enabled(s, UserForceClose(id)) && Guarded(s, UserForceClose(id))
    ensures Fresh(Apply(s, UserForceClose(id)))
  {
    assert ConnOk(s, id);
    forall l | 0 <= l < |s.loops| ensures id !in s.loops[l].active {
      assert LoopOk(s, l);
    }
  }

  lemma TaskKeepsOpen(s: Server, l: nat, n: int)
    requires Inv(s) && Enabled(s, RunTask(l, n))
    ensures KeepsOpen(s, DoTask(s, l, n))
  {
    hide ConnOk, LoopsOk;
    var id, popped := PoppedHead(s, l);
    match s.loops[l].queue[0]
    case Establish(_) => EstablishOwn(s, l, id);
    case RemoveInLoop(_) => RemoveOwn(s, l, id);
    case Destroy(_) => DestroyOwn(s, l, id);
    case _ =>
  }

  lemma ReadKeepsFresh(s: Server, l: nat, result: ReadResult, alsoWrite: bool)
    requires Inv(s) && Fresh(s) && Enabled(s, ReadEvent(l, result, alsoWrite))
    ensures Fresh(DoRead(s, l, result, alsoWrite))
  {
    hide ConnOk;
    var id := s.loops[l].active[0];
    var s' := DoRead(s, l, result, alsoWrite);
    assert LoopOk(s, l);
    forall m, i | 0 <= m < |s'.loops| && 0 <= i < |s'.loops[m].active|
      ensures s'.loops[m].active[i] < |s'.conns| && |s'.conns[s'.loops[m].active[i]].history| == 1
    {
      assert LoopOk(s, m);
      if m == l {
        assert s'.loops[m].active[i] == s.loops[l].active[i + 1] != id;
      } else {
        assert s'.loops[m].active[i] == s.loops[m].active[i] != id;
      }
    }
  }

  lemma {:induction false} RunKeepsInv(s: Server, steps: seq<Step>)
    requires Inv(s) && Fresh(s) && IsRun(s, steps) && GuardedRun(s, steps)
    ensures Inv(After(s, steps)) && Fresh(After(s, steps))
    decreases |steps|
  {
    hide Inv, Fresh, Wf, Enabled, Apply, Asserts, Guarded;
    if steps != [] {
      AssertsHold(s, steps[0]);
      StepKeepsInv(s, steps[0]);
      StepKeepsFresh(s, steps[0]);
      RunKeepsInv(Apply(s, steps[0]), steps[1..]);
    }
  }

  /** Exactly one functor or frame is there to take a connection from its stage to the next, on its loop. */
  ghost predicate OneIsDue(s: Server, id: nat)
    requires id < |s.conns|
  {
    var r := s.conns[id];
    && r.io < |s.loops|
    && (forall l :: 0 <= l < |s.loops| ==>
          && Count(s.loops[l].queue, Establish(id)) == (if l == r.io && Established !in r.history then 1 else 0)
          && Count(s.loops[l].queue, Destroy(id))
             == (if l == r.io && Erased in r.history && Destroyed !in r.history then 1 else 0)
          && (l != r.io ==> Count(s.loops[l].closing, id) == 0)
          && (l != 0 ==> Count(s.loops[l].queue, RemoveInLoop(id)) == 0))
    && Count(s.loops[r.io].closing, id) + Count(s.loops[0].queue, RemoveInLoop(id))
       == if Closed in r.history && Erased !in r.history then 1 else 0
  }

  /**
   What holds of a connection, in the words of the events that it has been through. The last line is what
   the destructor of TcpConnection asserts: without an owner the connection is disconnected.
   */
  ghost predicate Orderly(s: Server, id: nat)
    requires id < |s.conns|
  {
    var r := s.conns[id];
    && r.history <= LIFECYCLE && OneIsDue(s, id)
    && (id in s.connections <==> Erased !in r.history)
    && (r.registered <==> Established in r.history && Destroyed !in r.history)
    && (Established !in r.history || Closed in r.history ==> !r.conn.reading && !r.conn.writing)
    && T.ConnInv(r.conn)
    && (r.registered ==> Referenced(s, id))
    && (!Referenced(s, id) ==> r.conn.phase.Disconnected? && r.history == LIFECYCLE)
  }

  lemma MappedIsReferenced(s: Server, id: nat)
    ensures id in s.connections ==> Referenced(s, id)
  {}

  lemma HistoryOf(r: Record)
    requires RecordOk(r)
    ensures r.history <= LIFECYCLE
    ensures Established in r.history <==> |r.history| > 0
    ensures Closed in r.history <==> |r.history| > 1
    ensures Erased in r.history <==> |r.history| > 2
    ensures Destroyed in r.history <==> |r.history| > 3
  {
    var k := |r.history|;
    assert k == 0 || k == 1 || k == 2 || k == 3 || k == 4;
    assert LIFECYCLE[..1] == [Established] && LIFECYCLE[..2] == [Established, Closed];
    assert LIFECYCLE[..3] == [Established, Closed, Erased] && LIFECYCLE[..4] == LIFECYCLE;
    assert LIFECYCLE == [Established, Closed, Erased, Destroyed];
  }

  lemma InvIsOrderly(s: Server, id: nat)
    requires Inv(s) && id < |s.conns|
    ensures Orderly(s, id)
  {
    hide Count, Referenced;
    assert ConnOk(s, id);
    HistoryOf(s.conns[id]);
    if s.conns[id].registered {
      RegisteredIsReferenced(s, id);
    }
    MappedIsReferenced(s, id);
    forall l | 0 <= l < |s.loops| ensures QueueOk(s.loops[l].queue, l, id, s.conns[id]) {}
  }

  /**
   On every run on which forceClose is not called on a connection whose event of the same poll is still
   to come: each connection is established once, then closed once, then erased once, then destroyed once,
   as far as it gets, and from each of these but the open stage exactly one functor or frame is there to
   take it on. It is in the map until it is erased and registered until it is destroyed, with no event
   enabled from its close on, and what it wrote and buffered stays what it accepted. A connection that is
   registered, or listed by a poll, or still in handleEvent for its write callback, or has a write-complete
   functor queued, has an owner; one without an owner is disconnected and destroyed. And whatever happens
   next, no assertion on the way fails.
   */
  lemma LifeCycle(loops: nat, steps: seq<Step>)
    requires loops > 0 && IsRun(Initial(loops), steps) && GuardedRun(Initial(loops), steps)
    ensures var s := After(Initial(loops), steps);
            && (forall id :: 0 <= id < |s.conns| ==> Orderly(s, id))
            && (forall l, i :: 0 <= l < |s.loops| && 0 <= i < |s.loops[l].queue| ==>
                  s.loops[l].queue[i].WriteComplete? ==> Referenced(s, s.loops[l].queue[i].id))
            && (forall l, i :: 0 <= l < |s.loops| && 0 <= i < |s.loops[l].active| ==>
                  Referenced(s, s.loops[l].active[i]))
            && (forall l :: 0 <= l < |s.loops| && s.loops[l].current.WriteEventOf? ==>
                  Referenced(s, s.loops[l].current.id))
            && forall step :: Enabled(s, step) ==> Asserts(s, step)
  {
    InitialInv(loops);
    RunKeepsInv(Initial(loops), steps);
    var s := After(Initial(loops), steps);
    hide Referenced, ConnOk, LoopsOk, Orderly, Enabled, Asserts, IsRun, After, GuardedRun, Fresh, Initial;
    forall id | 0 <= id < |s.conns| ensures Orderly(s, id) {
      InvIsOrderly(s, id);
    }
    forall l, i | 0 <= l < |s.loops| && 0 <= i < |s.loops[l].queue| && s.loops[l].queue[i].WriteComplete?
      ensures Referenced(s, s.loops[l].queue[i].id)
    {
      CompleteIsReferenced(s, l, i);
    }
    forall l, i | 0 <= l < |s.loops| && 0 <= i < |s.loops[l].active|
      ensures Referenced(s, s.loops[l].active[i])
    {
      ListedIsReferenced(s, l, i);
    }
    forall l | 0 <= l < |s.loops| && s.loops[l].current.WriteEventOf?
      ensures Referenced(s, s.loops[l].current.id)
    {
      HandledIsReferenced(s, l);
    }
    forall step | Enabled(s, step) ensures Asserts(s, step) {
      AssertsHold(s, step);
    }
  }

  lemma InitialInv(loops: nat)
    requires loops > 0
    ensures Inv(Initial(loops)) && Fresh(Initial(loops))
  {}

  lemma ListedIsReferenced(s: Server, l: nat, i: nat)
    requires Inv(s) && l < |s.loops| && i < |s.loops[l].active|
    ensures Referenced(s, s.loops[l].active[i])
  {
    assert LoopOk(s, l);
    assert Listable(s, l, s.loops[l].active[i]);
    assert ConnOk(s, s.loops[l].active[i]);
    RegisteredIsReferenced(s, s.loops[l].active[i]);
  }

  lemma HandledIsReferenced(s: Server, l: nat)
    requires Inv(s) && l < |s.loops| && s.loops[l].current.WriteEventOf?
    ensures Referenced(s, s.loops[l].current.id)
  {
    assert LoopOk(s, l);
    assert ConnOk(s, s.loops[l].current.id);
    RegisteredIsReferenced(s, s.loops[l].current.id);
  }

  //// when forceClose is unsafe ////

  lemma OneMore(s: Server, step: Step, rest: seq<Step>)
    requires Wf(s) && Enabled(s, step) && IsRun(Apply(s, step), rest)
    ensures IsRun(s, [step] + rest) && After(s, [step] + rest) == After(Apply(s, step), rest)
    ensures GuardedRun(s, [step] + rest) <==> Guarded(s, step) && GuardedRun(Apply(s, step), rest)
  {
    assert ([step] + rest)[1..] == rest;
  }

  /** Reading end of file from a channel that was listed and then closed fails handleClose's assertion. */
  lemma {:induction false} ReachesFailure(s: Server, l: nat, id: nat) returns (steps: seq<Step>)
    requires Inv(s) && l < |s.loops| && id in s.loops[l].active && |s.conns[id].history| >= 2
    ensures IsRun(s, steps) && GuardedRun(s, steps)
    ensures var e := After(s, steps);
            && Enabled(e, ReadEvent(l, EndOfFile, false)) && !Asserts(e, ReadEvent(l, EndOfFile, false))
    decreases |s.loops[l].active|, s.loops[l].current.WriteEventOf?, |s.loops[l].closing|
  {
    hide LoopsOk, ConnOk, IsRun, GuardedRun, After, DoCloseCallback, DoWrite;
    var x := s.loops[l];
    if x.closing != [] {
      CloseCallbackKeepsInv(s, l);
      CallbackOnly(s, l);
      steps := ReachesFailure(Apply(s, CloseCallback(l)), l, id);
      OneMore(s, CloseCallback(l), steps);
      steps := [CloseCallback(l)] + steps;
    } else if x.current.WriteEventOf? {
      WriteEventKeepsInv(s, l, -1);
      WriteOnly(s, l);
      steps := ReachesFailure(Apply(s, WriteEvent(l, -1)), l, id);
      OneMore(s, WriteEvent(l, -1), steps);
      steps := [WriteEvent(l, -1)] + steps;
    } else if x.active[0] == id {
      steps := [];
      ClosedIsNotOpen(s, id);
      NoSteps(s);
    } else {
      ReadKeepsInv(s, l, Failed, false);
      steps := ReachesFailure(Apply(s, ReadEvent(l, Failed, false)), l, id);
      OneMore(s, ReadEvent(l, Failed, false), steps);
      steps := [ReadEvent(l, Failed, false)] + steps;
    }
  }

  lemma NoSteps(s: Server)
    requires Wf(s)
    ensures IsRun(s, []) && GuardedRun(s, []) && After(s, []) == s
  {}

  lemma ClosedIsNotOpen(s: Server, id: nat)
    requires Inv(s) && id < |s.conns| && |s.conns[id].history| >= 2
    ensures !T.Open(s.conns[id].conn)
  {
    assert ConnOk(s, id);
  }

  lemma CallbackOnly(s: Server, l: nat)
    requires Inv(s) && Enabled(s, CloseCallback(l))
    ensures var s' := DoCloseCallback(s, l);
            && |s'.loops| == |s.loops| && |s'.conns| == |s.conns|
            && s'.loops[l].active == s.loops[l].active && s'.loops[l].current == s.loops[l].current
            && |s'.loops[l].closing| < |s.loops[l].closing|
            && forall id :: 0 <= id < |s.conns| ==> |s'.conns[id].history| >= |s.conns[id].history|
  {
    var id, popped := PopFrame(s, l);
  }

  lemma WriteOnly(s: Server, l: nat)
    requires Inv(s) && Enabled(s, WriteEvent(l, -1))
    ensures var s' := Apply(s, WriteEvent(l, -1));
            && |s'.loops| == |s.loops| && |s'.conns| == |s.conns|
            && s'.loops[l].active == s.loops[l].active && s'.loops[l].current.NoEvent?
            && forall id :: 0 <= id < |s.conns| ==> |s'.conns[id].history| == |s.conns[id].history|
  {
    hide T.HandleWrite;
  }

  /**
   Called on an open connection, forceClose leaves every later assertion safe exactly when the
   connection's own event of the current poll is not still to come.
   */
  lemma ForceCloseSafeExactlyWhen(s: Server, id: nat)
    requires Inv(s) && Fresh(s) && id < |s.conns| && T.Open(s.conns[id].conn)
    ensures s.conns[id].io < |s.loops|
    ensures var s' := Apply(s, UserForceClose(id));
            (forall steps, step ::
               IsRun(s', steps) && GuardedRun(s', steps) && Enabled(After(s', steps), step)
               ==> Asserts(After(s', steps), step))
            <==> id !in s.loops[s.conns[id].io].active
  {
    hide LoopsOk, ConnOk, IsRun, GuardedRun, After;
    var s' := Apply(s, UserForceClose(id));
    hide Enabled, Asserts;
    CloseKeepsInv(s, id);
    var io := s.conns[id].io;
    if id in s.loops[io].active {
      CloseGrows(s, id);
      var steps := ReachesFailure(s', io, id);
      var step := ReadEvent(io, EndOfFile, false);
      assert Enabled(After(s', steps), step) && !Asserts(After(s', steps), step);
    } else {
      GuardedForceClose(s, id);
      forall steps, step |
        IsRun(s', steps) && GuardedRun(s', steps) && Enabled(After(s', steps), step)
        ensures Asserts(After(s', steps), step)
      {
        RunKeepsInv(s', steps);
        AssertsHold(After(s', steps), step);
      }
    }
  }

  lemma CloseGrows(s: Server, id: nat)
    requires Inv(s) && id < |s.conns| && T.Open(s.conns[id].conn)
    ensures s.conns[id].io < |s.loops|
    ensures var s' := DoClose(s, id);
            s'.loops[s.conns[id].io].active == s.loops[s.conns[id].io].active && |s'.conns[id].history| == 2
  {
    assert ConnOk(s, id);
  }

  lemma GuardedForceClose(s: Server, id: nat)
    requires Inv(s) && Fresh(s) && id < |s.conns| && id !in s.loops[s.conns[id].io].active
    ensures Fresh(Apply(s, UserForceClose(id)))
  {
    StepKeepsFresh(s, UserForceClose(id));
  }

  //// such a run ////

  const IDLE := Loop([], [], NoEvent, [])
  const ACCEPTED := NewRecord(1)
  const OPENED := Record(1, T.EstablishConn(T.NewConn()), true, [Established], [], 0)

  /** A server loop without work and one I/O loop. */
  function TwoLoops(queue: seq<Task>, active: seq<nat>, conns: seq<Record>, connections: set<nat>): Server
  {
    Server([IDLE, Loop(queue, active, NoEvent, [])], conns, connections)
  }

  const NONE := TwoLoops([], [], [], {})
  const FIRST := TwoLoops([Establish(0)], [], [ACCEPTED], {0})
  const BOTH := TwoLoops([Establish(0), Establish(1)], [], [ACCEPTED, ACCEPTED], {0, 1})
  const HALF := TwoLoops([Establish(1)], [], [OPENED, ACCEPTED], {0, 1})
  const OPEN := TwoLoops([], [], [OPENED, OPENED], {0, 1})
  const LISTED := TwoLoops([], [0, 1], [OPENED, OPENED], {0, 1})
  const READING := TwoLoops([], [1], [OPENED, OPENED], {0, 1})

  const SHUT := Record(1, T.CloseConn(OPENED.conn), true, [Established, Closed], [], 0)
  const CLOSING := Server([IDLE, Loop([], [1], NoEvent, [1])], [OPENED, SHUT], {0, 1})
  const CLOSED := Server([IDLE.(queue := [RemoveInLoop(1)]), Loop([], [1], NoEvent, [])], [OPENED, SHUT], {0, 1})

  predicate Leads(s: Server, step: Step, s': Server)
  {
    Wf(s) && Enabled(s, step) && Apply(s, step) == s'
  }

  lemma AcceptsFirst()
    ensures Leads(NONE, NewConnection(1), FIRST)
  {
    assert [] + [Establish(0)] == [Establish(0)] && [] + [ACCEPTED] == [ACCEPTED];
  }

  lemma AcceptsSecond()
    ensures Leads(FIRST, NewConnection(1), BOTH)
  {
    assert [Establish(0)] + [Establish(1)] == [Establish(0), Establish(1)];
    assert [ACCEPTED] + [ACCEPTED] == [ACCEPTED, ACCEPTED] && {0} + {1} == {0, 1};
  }

  lemma Establishes()
    ensures Leads(BOTH, RunTask(1, 0), HALF) && Leads(HALF, RunTask(1, 0), OPEN)
  {
    assert [Establish(0), Establish(1)][1..] == [Establish(1)] && [Establish(1)][1..] == [];
    assert [] + [Established] == [Established];
    assert [ACCEPTED, ACCEPTED][0 := OPENED] == [OPENED, ACCEPTED];
    assert [OPENED, ACCEPTED][1 := OPENED] == [OPENED, OPENED];
  }

  lemma PollsAndReads()
    ensures Leads(OPEN, Poll(1, [0, 1]), LISTED) && Leads(LISTED, ReadEvent(1, Data, false), READING)
  {
    assert [0, 1][1..] == [1];
  }

  /** At end of file of the next channel of loop l, handleClose's assertion fails. */
  ghost predicate FailsNext(s: Server, l: nat)
  {
    Wf(s) && Enabled(s, ReadEvent(l, EndOfFile, false)) && !Asserts(s, ReadEvent(l, EndOfFile, false))
  }

  lemma ClosesTheOther()
    ensures Leads(READING, UserForceClose(1), CLOSING) && Leads(CLOSING, CloseCallback(1), CLOSED)
  {
    assert [1] + [] == [1] && [1][1..] == [] && [Established] + [Closed] == [Established, Closed];
    assert [] + [RemoveInLoop(1)] == [RemoveInLoop(1)];
  }

  lemma ThenFails()
    ensures Wf(CLOSED) && FailsNext(CLOSED, 1)
  {}

  lemma NoneIsInitial()
    ensures Initial(2) == NONE
  {}

  lemma FourMore(s: Server, a: Step, s1: Server, b: Step, s2: Server, c: Step, s3: Server, d: Step, s4: Server,
                 rest: seq<Step>)
    requires Leads(s, a, s1) && Leads(s1, b, s2) && Leads(s2, c, s3) && Leads(s3, d, s4) && IsRun(s4, rest)
    ensures IsRun(s, [a, b, c, d] + rest) && After(s, [a, b, c, d] + rest) == After(s4, rest)
  {
    hide Wf, Enabled, Apply, IsRun, After, GuardedRun;
    OneMore(s3, d, rest);
    OneMore(s2, c, [d] + rest);
    OneMore(s1, b, [c] + ([d] + rest));
    OneMore(s, a, [b] + ([c] + ([d] + rest)));
    assert [a, b, c, d] + rest == [a] + ([b] + ([c] + ([d] + rest)));
  }

  /**
   Two connections on one loop, both with an event in the same poll. The message callback of the first
   force-closes the second; the second's end of file is then handled and handleClose's assertion fails.
   */
  lemma ForceCloseOnce() returns (steps: seq<Step>)
    ensures steps == [NewConnection(1), NewConnection(1), RunTask(1, 0), RunTask(1, 0), Poll(1, [0, 1]),
                      ReadEvent(1, Data, false), UserForceClose(1), CloseCallback(1)]
    ensures IsRun(Initial(2), steps) && FailsNext(After(Initial(2), steps), 1)
  {
    hide Leads, FailsNext, IsRun, After, TwoLoops, Initial;
    NoneIsInitial();
    AcceptsFirst();
    AcceptsSecond();
    Establishes();
    PollsAndReads();
    ClosesTheOther();
    ThenFails();
    steps := EightSteps(NONE, FIRST, BOTH, HALF, OPEN, LISTED, READING, CLOSING, CLOSED);
  }

  lemma EightSteps(none: Server, first: Server, both: Server, half: Server, open: Server, listed: Server,
                   reading: Server, closing: Server, closed: Server)
    returns (steps: seq<Step>)
    requires Leads(none, NewConnection(1), first) && Leads(first, NewConnection(1), both)
    requires Leads(both, RunTask(1, 0), half) && Leads(half, RunTask(1, 0), open)
    requires Leads(open, Poll(1, [0, 1]), listed) && Leads(listed, ReadEvent(1, Data, false), reading)
    requires Leads(reading, UserForceClose(1), closing) && Leads(closing, CloseCallback(1), closed) && Wf(closed)
    ensures steps == [NewConnection(1), NewConnection(1), RunTask(1, 0), RunTask(1, 0), Poll(1, [0, 1]),
                      ReadEvent(1, Data, false), UserForceClose(1), CloseCallback(1)]
    ensures IsRun(none, steps) && After(none, steps) == closed
  {
    hide Wf, Enabled, Apply, IsRun, After, GuardedRun, Leads;
    NoSteps(closed);
    FourMore(open, Poll(1, [0, 1]), listed, ReadEvent(1, Data, false), reading, UserForceClose(1), closing,
             CloseCallback(1), closed, []);
    steps := [Poll(1, [0, 1]), ReadEvent(1, Data, false), UserForceClose(1), CloseCallback(1)] + [];
    FourMore(none, NewConnection(1), first, NewConnection(1), both, RunTask(1, 0), half, RunTask(1, 0), open, steps);
    steps := [NewConnection(1), NewConnection(1), RunTask(1, 0), RunTask(1, 0)] + steps;
  }

  //// the methods ////

  /** The server with its loops; NewConnection, CloseCallback and RunRemoveInLoop are entered from outside. */
  class TcpServer {
    var loops: seq<Loop>
    var conns: seq<Record>
    var connections: set<nat>

    constructor (n: nat)
      requires n > 0
      ensures View() == Initial(n) && Inv(View())
    {
      InitialInv(n);
      loops := seq(n, _ => Loop([], [], NoEvent, []));
      conns := [];
      connections := {};
    }

    ghost function View(): Server
      reads this
    {
      Server(loops, conns, connections)
    }

    method QueueInLoop(l: nat, task: Task)
      requires l < |loops|
      modifies this`loops
      ensures View() == Post(old(View()), l, task)
    {
      loops := loops[l := loops[l].(queue := loops[l].queue + [task])];
    }

    /** The acceptor's callback, on loop 0; io is the loop that the thread pool hands out. */
    method NewConnection(io: nat)
      requires Inv(View()) && Enabled(View(), Step.NewConnection(io))
      modifies this
      ensures Inv(View()) && View() == Apply(old(View()), Step.NewConnection(io))
    {
      NewConnectionKeepsInv(View(), io);
      hide ConnOk, LoopsOk;
      var id := |conns|;
      conns := conns + [NewRecord(io)];
      connections := connections + {id};
      if io == 0 {
        var r := conns[id];
        conns := conns[id := r.(conn := T.EstablishConn(r.conn), registered := true,
                                history := r.history + [Established])];
      } else {
        QueueInLoop(io, Establish(id));
      }
    }

    /** The end of a handleClose on loop l. */
    method CloseCallback(l: nat)
      requires Inv(View()) && Enabled(View(), Step.CloseCallback(l))
      modifies this
      ensures Inv(View()) && View() == Apply(old(View()), Step.CloseCallback(l))
    {
      ghost var id', popped := PopFrame(View(), l);
      CloseCallbackKeepsInv(View(), l);
      hide ConnOk, LoopsOk;
      var id := loops[l].closing[0];
      loops := loops[l := loops[l].(closing := loops[l].closing[1..])];
      var n := RemoveConnection(l, id);
      assert n == 1;
    }

    /** n is what erase returns, or 1 where it is left to loop 0. */
    method RemoveConnection(l: nat, id: nat) returns (n: nat)
      requires |loops| > 0 && id < |conns| && conns[id].io < |loops|
      modifies this
      ensures View() == DoRemove(old(View()), l, id)
      ensures n == 1 <==> l != 0 || id in old(connections)
    {
      n := 1;
      if l == 0 {
        n := RemoveConnectionInLoop(id);
      } else {
        QueueInLoop(0, RemoveInLoop(id));
      }
    }

    /** The functor that removeConnection has queued, run by loop 0. */
    method RunRemoveInLoop()
      requires Inv(View()) && Enabled(View(), RunTask(0, 0)) && loops[0].queue[0].RemoveInLoop?
      modifies this
      ensures Inv(View()) && View() == Apply(old(View()), RunTask(0, 0))
    {
      ghost var id', popped := PoppedHead(View(), 0);
      RemoveTaskKeepsInv(View(), 0, 0);
      hide ConnOk, LoopsOk;
      var id := loops[0].queue[0].id;
      loops := loops[0 := loops[0].(queue := loops[0].queue[1..])];
      var n := RemoveConnectionInLoop(id);
      assert n == 1;
    }

    /** n is what erase returns; the code asserts that it is 1, and both callers above find that it is. */
    method RemoveConnectionInLoop(id: nat) returns (n: nat)
      requires id < |conns| && conns[id].io < |loops|
      modifies this
      ensures View() == DoErase(old(View()), id)
      ensures n == 1 <==> id in old(connections)
    {
      n := if id in connections then 1 else 0;
      connections := connections - {id};
      conns := conns[id := conns[id].(history := conns[id].history + [Erased])];
      QueueInLoop(conns[id].io, Destroy(id));
    }
  }
}
