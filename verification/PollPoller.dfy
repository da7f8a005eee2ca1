/**
 muduo's PollPoller: the array handed to poll(2), the map from descriptors to channels, and the index
 that each channel keeps of its own slot. A channel without events has its slot masked by the negative
 descriptor -fd-1. The table is the value; the classes at the end are the code.
 */
module PollPollers {

  datatype Slot = Slot(fd: int, events: nat, revents: int)

  datatype Table = Table(fds: seq<Slot>, index: map<nat, int>)

  function Mask(fd: nat): int { 0 - fd - 1 }

  function Decode(fd: int): nat { if fd < 0 then 0 - fd - 1 else fd }

  //// the operations ////

  /** updateChannel of a channel that has no index yet. */
  function Add(t: Table, fd: nat, events: nat): Table
  {
    Table(t.fds + [Slot(fd, events, 0)], t.index[fd := |t.fds|])
  }

  /** updateChannel of one that has. */
  function Change(t: Table, fd: nat, events: nat): Table
    requires Inv(t) && fd in t.index
  {
    t.(fds := t.fds[t.index[fd] := Slot(if events == 0 then Mask(fd) else fd, events, 0)])
  }

  /** removeChannel: the last slot takes the place of the removed one. */
  function Remove(t: Table, fd: nat): Table
    requires Inv(t) && fd in t.index
  {
    var idx, last := t.index[fd], |t.fds| - 1;
    if idx == last then Table(t.fds[..last], t.index - {fd})
    else
      var swapped := t.fds[idx := t.fds[last]][last := t.fds[idx]];
      Table(swapped[..last], (t.index - {fd})[Decode(t.fds[last].fd) := idx])
  }

  //// the invariant ////

  /** Slots and registered descriptors are in bijection, and the indices say which is whose. */
  predicate Inv(t: Table)
  {
    && |t.fds| == |t.index|
    && (forall fd :: fd in t.index ==> 0 <= t.index[fd] < |t.fds| && Decode(t.fds[t.index[fd]].fd) == fd)
    && (forall i :: 0 <= i < |t.fds| ==> Decode(t.fds[i].fd) in t.index && t.index[Decode(t.fds[i].fd)] == i)
  }

  /** A slot is masked exactly when no event is wanted. */
  predicate Masked(t: Table)
  {
    forall i :: 0 <= i < |t.fds| ==> (t.fds[i].fd < 0 <==> t.fds[i].events == 0)
  }

  /** What the table is for: the events wanted of each registered descriptor. */
  function Wanted(t: Table): map<nat, nat>
    requires Inv(t)
  {
    map fd | fd in t.index :: t.fds[t.index[fd]].events
  }

  lemma AddSlots(t: Table, fd: nat, events: nat, i: nat)
    requires i <= |t.fds|
    ensures |Add(t, fd, events).fds| == |t.fds| + 1
    ensures Add(t, fd, events).fds[i] == if i < |t.fds| then t.fds[i] else Slot(fd, events, 0)
  {}

  lemma AddIndex(t: Table, fd: nat, events: nat, other: nat)
    requires fd !in t.index
    ensures |Add(t, fd, events).index| == |t.index| + 1
    ensures other in Add(t, fd, events).index <==> other in t.index || other == fd
    ensures other in t.index ==> Add(t, fd, events).index[other] == t.index[other]
    ensures other == fd ==> Add(t, fd, events).index[other] == |t.fds|
  {}

  lemma AddKeepsInv(t: Table, fd: nat, events: nat)
    requires Inv(t) && fd !in t.index
    ensures Inv(Add(t, fd, events))
    ensures Masked(t) ==> (Masked(Add(t, fd, events)) <==> events != 0)
  {
    hide Add;
    var t' := Add(t, fd, events);
    AddIndex(t, fd, events, fd);
    AddSlots(t, fd, events, |t.fds|);
    forall other | other in t'.index
      ensures 0 <= t'.index[other] < |t'.fds| && Decode(t'.fds[t'.index[other]].fd) == other
    {
      AddIndex(t, fd, events, other);
      AddSlots(t, fd, events, t'.index[other]);
    }
    forall i | 0 <= i < |t'.fds|
      ensures Decode(t'.fds[i].fd) in t'.index && t'.index[Decode(t'.fds[i].fd)] == i
      ensures Masked(t) && i < |t.fds| ==> (t'.fds[i].fd < 0 <==> t'.fds[i].events == 0)
    {
      AddSlots(t, fd, events, i);
      AddIndex(t, fd, events, Decode(t'.fds[i].fd));
    }
  }

  lemma AddKeeps(t: Table, fd: nat, events: nat)
    requires Inv(t) && fd !in t.index
    ensures Inv(Add(t, fd, events))
    ensures Wanted(Add(t, fd, events)) == Wanted(t)[fd := events]
    ensures Masked(t) ==> (Masked(Add(t, fd, events)) <==> events != 0)
  {
    hide Decode, Masked;
    AddKeepsInv(t, fd, events);
    var w, w' := Wanted(t)[fd := events], Wanted(Add(t, fd, events));
    assert w'.Keys == w.Keys;
    assert forall other :: other in t.index ==> t.index[other] < |t.fds|;
  }

  lemma ChangeKeeps(t: Table, fd: nat, events: nat)
    requires Inv(t) && fd in t.index
    ensures Inv(Change(t, fd, events))
    ensures Wanted(Change(t, fd, events)) == Wanted(t)[fd := events]
    ensures Masked(t) ==> Masked(Change(t, fd, events))
    ensures Change(t, fd, events).index == t.index
  {}

  /** What slot i holds after the removal. */
  lemma RemoveSlots(t: Table, fd: nat, i: nat)
    requires Inv(t) && fd in t.index && i < |t.fds| - 1
    ensures i < |Remove(t, fd).fds|
    ensures Remove(t, fd).fds[i] == if i == t.index[fd] then t.fds[|t.fds| - 1] else t.fds[i]
  {}

  /** Removal repairs one index, that of the channel in the last slot. */
  lemma RemoveIndex(t: Table, fd: nat, other: nat)
    requires Inv(t) && fd in t.index
    ensures |Remove(t, fd).index| == |t.index| - 1
    ensures other in Remove(t, fd).index <==> other in t.index && other != fd
    ensures other in t.index && other != fd ==>
              Remove(t, fd).index[other] == if t.index[other] == |t.fds| - 1 then t.index[fd] else t.index[other]
  {
    var t' := Remove(t, fd);
    assert t'.index.Keys == t.index.Keys - {fd};
    assert |t'.index| == |t'.index.Keys| && |t.index| == |t.index.Keys|;
  }

  lemma RemoveKeepsInv(t: Table, fd: nat)
    requires Inv(t) && fd in t.index
    ensures Inv(Remove(t, fd)) && (Masked(t) ==> Masked(Remove(t, fd)))
  {
    hide Remove;
    var t' := Remove(t, fd);
    RemoveIndex(t, fd, fd);
    RemoveLength(t, fd);
    forall other | other in t'.index
      ensures 0 <= t'.index[other] < |t'.fds| && Decode(t'.fds[t'.index[other]].fd) == other
    {
      RemoveIndex(t, fd, other);
      RemoveSlots(t, fd, t'.index[other]);
    }
    forall i | 0 <= i < |t'.fds|
      ensures Decode(t'.fds[i].fd) in t'.index && t'.index[Decode(t'.fds[i].fd)] == i
      ensures Masked(t) ==> (t'.fds[i].fd < 0 <==> t'.fds[i].events == 0)
    {
      RemoveSlots(t, fd, i);
      RemoveIndex(t, fd, Decode(t'.fds[i].fd));
    }
  }

  lemma RemoveLength(t: Table, fd: nat)
    requires Inv(t) && fd in t.index
    ensures |Remove(t, fd).fds| == |t.fds| - 1
  {}

  /** Removal keeps the bijection and forgets one descriptor. */
  lemma RemoveKeeps(t: Table, fd: nat)
    requires Inv(t) && fd in t.index
    ensures Inv(Remove(t, fd)) && (Masked(t) ==> Masked(Remove(t, fd)))
    ensures Wanted(Remove(t, fd)) == Wanted(t) - {fd}
  {
    hide Remove, Decode, Masked, Inv;
    RemoveKeepsInv(t, fd);
    forall other: nat
      ensures other in Remove(t, fd).index <==> other in t.index && other != fd
      ensures other in t.index && other != fd ==> Wanted(Remove(t, fd))[other] == Wanted(t)[other]
    {
      RemoveIndex(t, fd, other);
      if other in t.index && other != fd {
        RemoveWanted(t, fd, other);
      }
    }
  }

  lemma RemoveWanted(t: Table, fd: nat, other: nat)
    requires Inv(t) && fd in t.index && Inv(Remove(t, fd)) && other in t.index && other != fd
    ensures other in Remove(t, fd).index && Wanted(Remove(t, fd))[other] == Wanted(t)[other]
    ensures Reports(Remove(t, fd))[other] == Reports(t)[other]
  {
    hide Remove, Decode;
    RemoveIndex(t, fd, other);
    RemoveSlots(t, fd, Remove(t, fd).index[other]);
    DistinctSlots(t, fd, other);
  }

  lemma DistinctSlots(t: Table, fd: nat, other: nat)
    requires Inv(t) && fd in t.index && other in t.index && other != fd
    ensures t.index[fd] != t.index[other]
  {}

  //// runs ////

  datatype Op = Update(fd: nat, events: nat) | Erase(fd: nat)

  predicate Enabled(t: Table, op: Op)
  {
    op.Erase? ==> op.fd in t.index
  }

  function Apply(t: Table, op: Op): Table
    requires Inv(t) && Enabled(t, op)
  {
    match op
    case Update(fd, events) => if fd in t.index then Change(t, fd, events) else Add(t, fd, events)
    case Erase(fd) => Remove(t, fd)
  }

  ghost predicate IsRun(t: Table, ops: seq<Op>)
    decreases |ops|
  {
    Inv(t) && (ops == [] || (Enabled(t, ops[0]) && IsRun(Apply(t, ops[0]), ops[1..])))
  }

  ghost function After(t: Table, ops: seq<Op>): Table
    requires IsRun(t, ops)
    decreases |ops|
  {
    if ops == [] then t else After(Apply(t, ops[0]), ops[1..])
  }

  /** The same run on a plain map. */
  function AfterMap(m: map<nat, nat>, ops: seq<Op>): map<nat, nat>
    decreases |ops|
  {
    if ops == [] then m
    else AfterMap(ApplyMap(m, ops[0]), ops[1..])
  }

  /** Every operation finds what its assertions ask for: a removed channel is registered. */
  predicate Sensible(registered: set<nat>, ops: seq<Op>)
    decreases |ops|
  {
    ops == [] ||
    (match ops[0]
     case Update(fd, _) => Sensible(registered + {fd}, ops[1..])
     case Erase(fd) => fd in registered && Sensible(registered - {fd}, ops[1..]))
  }

  /** The first update of a channel always enables an event. */
  predicate StartsEnabled(registered: set<nat>, ops: seq<Op>)
    decreases |ops|
  {
    ops == [] ||
    (match ops[0]
     case Update(fd, events) => (fd in registered || events != 0) && StartsEnabled(registered + {fd}, ops[1..])
     case Erase(fd) => StartsEnabled(registered - {fd}, ops[1..]))
  }

  function ApplyMap(m: map<nat, nat>, op: Op): map<nat, nat>
  {
    if op.Update? then m[op.fd := op.events] else m - {op.fd}
  }

  lemma StepRefinesMap(t: Table, op: Op)
    requires Inv(t) && Enabled(t, op)
    ensures var t' := Apply(t, op);
            && Inv(t') && Wanted(t') == ApplyMap(Wanted(t), op)
            && t'.index.Keys == (if op.Update? then t.index.Keys + {op.fd} else t.index.Keys - {op.fd})
            && (Masked(t) && (op.Update? && op.fd !in t.index ==> op.events != 0) ==> Masked(t'))
  {
    hide Add, Change, Remove, Masked, Inv;
    var t' := Apply(t, op);
    match op {
      case Update(fd, events) =>
        if fd in t.index { ChangeKeeps(t, fd, events); } else { AddKeeps(t, fd, events); }
      case Erase(fd) => RemoveKeeps(t, fd);
    }
    assert Wanted(t').Keys == t'.index.Keys && Wanted(t).Keys == t.index.Keys;
  }

  /**
   Over every sequence of updates and removals the table stays a bijection and holds, behind its swaps,
   what a plain map would hold; and if first updates enable an event, exactly the slots that want
   nothing are masked.
   */
  lemma {:induction false} RunRefinesMap(t: Table, ops: seq<Op>)
    requires Inv(t) && Sensible(t.index.Keys, ops)
    ensures IsRun(t, ops)
    ensures Inv(After(t, ops)) && Wanted(After(t, ops)) == AfterMap(Wanted(t), ops)
    ensures Masked(t) && StartsEnabled(t.index.Keys, ops) ==> Masked(After(t, ops))
    decreases |ops|
  {
    hide Inv, Masked, Wanted, Apply;
    if ops != [] {
      StepRefinesMap(t, ops[0]);
      RunRefinesMap(Apply(t, ops[0]), ops[1..]);
    }
  }

  /** The assertion of removeChannel about the slot of a channel that wants no event. */
  predicate RemoveAsserts(t: Table, fd: nat)
    requires Inv(t) && fd in t.index
  {
    t.fds[t.index[fd]].fd == Mask(fd) && t.fds[t.index[fd]].events == 0
  }

  /** It holds of a masked table exactly when nothing is wanted of the channel. */
  lemma RemoveIsSafe(t: Table, fd: nat)
    requires Inv(t) && Masked(t) && fd in t.index
    ensures RemoveAsserts(t, fd) <==> Wanted(t)[fd] == 0
  {}

  /** A channel whose first update enables nothing is not masked, and cannot be removed before another one. */
  lemma FirstUpdateMasks(t: Table, fd: nat, events: nat)
    requires Inv(t) && Masked(t) && fd !in t.index
    ensures Inv(Add(t, fd, events)) && (Masked(Add(t, fd, events)) <==> events != 0)
    ensures !RemoveAsserts(Add(t, fd, events), fd)
    ensures Inv(Change(Add(t, fd, events), fd, 0)) && RemoveAsserts(Change(Add(t, fd, events), fd, 0), fd)
  {
    AddKeeps(t, fd, events);
    ChangeKeeps(Add(t, fd, events), fd, 0);
  }

  //// active channels ////

  function Positive(fds: seq<Slot>): nat
  {
    if fds == [] then 0 else (if fds[0].revents > 0 then 1 else 0) + Positive(fds[1..])
  }

  /** The descriptors with something to report, in array order. */
  function Active(fds: seq<Slot>): seq<int>
  {
    if fds == [] then [] else (if fds[0].revents > 0 then [fds[0].fd] else []) + Active(fds[1..])
  }

  /** What poll(2) promises: nothing is reported for a negative descriptor. */
  predicate Reported(t: Table)
  {
    forall i :: 0 <= i < |t.fds| && t.fds[i].fd < 0 ==> t.fds[i].revents == 0
  }

  lemma {:induction false} ActiveWitness(fds: seq<Slot>, k: nat) returns (i: nat)
    requires k < |Active(fds)|
    ensures k <= i < |fds| && Active(fds)[k] == fds[i].fd && fds[i].revents > 0 && |Active(fds[..i])| == k
    decreases |fds|
  {
    if fds[0].revents > 0 && k == 0 {
      i := 0;
      assert fds[..0] == [];
    } else {
      i := ActiveWitness(fds[1..], if fds[0].revents > 0 then k - 1 else k);
      i := i + 1;
      assert fds[..i][1..] == fds[1..][..i - 1];
    }
  }

  /**
   The active list names registered channels that want an event, each once, and every one of them that
   poll reported.
   */
  lemma ActiveIsExact(t: Table)
    requires Inv(t) && Masked(t) && Reported(t)
    ensures forall k :: 0 <= k < |Active(t.fds)| ==>
              var fd := Active(t.fds)[k];
              fd >= 0 && fd in t.index && t.fds[t.index[fd]].revents > 0 && Wanted(t)[fd] != 0
    ensures forall k, m :: 0 <= k < m < |Active(t.fds)| ==> Active(t.fds)[k] != Active(t.fds)[m]
    ensures forall fd :: fd in t.index && t.fds[t.index[fd]].revents > 0 ==> (fd as int) in Active(t.fds)
  {
    forall k | 0 <= k < |Active(t.fds)|
      ensures var fd := Active(t.fds)[k];
              fd >= 0 && fd in t.index && t.fds[t.index[fd]].revents > 0 && Wanted(t)[fd] != 0
    {
      var i := ActiveWitness(t.fds, k);
    }
    forall k, m | 0 <= k < m < |Active(t.fds)| ensures Active(t.fds)[k] != Active(t.fds)[m] {
      var i := ActiveWitness(t.fds, k);
      var j := ActiveWitness(t.fds, m);
      assert i != j;
    }
    forall fd | fd in t.index && t.fds[t.index[fd]].revents > 0 ensures (fd as int) in Active(t.fds) {
      ActiveHas(t.fds, t.index[fd]);
    }
  }

  lemma {:induction false} ActiveHas(fds: seq<Slot>, i: nat)
    requires i < |fds| && fds[i].revents > 0
    ensures fds[i].fd in Active(fds)
    decreases i
  {
    if i > 0 {
      ActiveHas(fds[1..], i - 1);
    }
  }

  //// reports ////

  /** What the last poll has reported of each descriptor, and 0 for one updated since. */
  function Reports(t: Table): map<nat, int>
    requires Inv(t)
  {
    map fd | fd in t.index :: t.fds[t.index[fd]].revents
  }

  lemma AddReports(t: Table, fd: nat, events: nat)
    requires Inv(t) && fd !in t.index
    ensures Inv(Add(t, fd, events)) && Reports(Add(t, fd, events)) == Reports(t)[fd := 0]
  {
    hide Decode, Masked;
    AddKeepsInv(t, fd, events);
    var r, r' := Reports(t)[fd := 0], Reports(Add(t, fd, events));
    assert r'.Keys == r.Keys;
    assert forall other :: other in t.index ==> t.index[other] < |t.fds|;
  }

  lemma RemoveReports(t: Table, fd: nat)
    requires Inv(t) && fd in t.index
    ensures Inv(Remove(t, fd)) && Reports(Remove(t, fd)) == Reports(t) - {fd}
  {
    hide Remove, Decode, Masked, Inv;
    RemoveKeepsInv(t, fd);
    forall other: nat
      ensures other in Remove(t, fd).index <==> other in t.index && other != fd
      ensures other in t.index && other != fd ==> Reports(Remove(t, fd))[other] == Reports(t)[other]
    {
      RemoveIndex(t, fd, other);
      if other in t.index && other != fd {
        RemoveWanted(t, fd, other);
      }
    }
  }

  lemma ChangeReports(t: Table, fd: nat, events: nat)
    requires Inv(t) && fd in t.index
    ensures Inv(Change(t, fd, events)) && Reports(Change(t, fd, events)) == Reports(t)[fd := 0]
  {
    ChangeKeeps(t, fd, events);
  }

  /** An update takes back what was reported of its own channel, and no operation that of another. */
  lemma OnlyPollReports(t: Table, op: Op)
    requires Inv(t) && Enabled(t, op)
    ensures Inv(Apply(t, op))
    ensures Reports(Apply(t, op)) == if op.Update? then Reports(t)[op.fd := 0] else Reports(t) - {op.fd}
  {
    hide Add, Change, Remove, Inv, Reports;
    match op
    case Update(fd, events) =>
      if fd in t.index { ChangeReports(t, fd, events); } else { AddReports(t, fd, events); }
    case Erase(fd) => RemoveReports(t, fd);
  }

  //// the classes ////

  lemma SlotOf(t: Table, fd: nat)
    requires Inv(t) && fd in t.index
    ensures 0 <= t.index[fd] < |t.fds| && Decode(t.fds[t.index[fd]].fd) == fd
  {}

  lemma OwnerOf(t: Table, i: nat)
    requires Inv(t) && i < |t.fds|
    ensures Decode(t.fds[i].fd) in t.index && t.index[Decode(t.fds[i].fd)] == i
  {}

  lemma FromSlot(fds: seq<Slot>, i: nat)
    requires i < |fds|
    ensures Positive(fds[i..]) == (if fds[i].revents > 0 then 1 else 0) + Positive(fds[i + 1..])
    ensures fds[i].revents > 0 ==> Active(fds[i..]) == [fds[i].fd] + Active(fds[i + 1..])
    ensures fds[i].revents <= 0 ==> Active(fds[i..]) == Active(fds[i + 1..])
  {}

  class Channel {
    const fd: nat
    var events: nat
    var revents: int
    var index: int

    constructor (fd: nat)
      ensures this.fd == fd && events == 0 && index == -1
    {
      this.fd := fd;
      events, revents, index := 0, 0, -1;
    }
  }

  class PollPoller {
    var pollFds: seq<Slot>
    var channels: map<nat, Channel>

    constructor ()
      ensures Valid() && View() == Table([], map[])
    {
      pollFds := [];
      channels := map[];
    }

    ghost function View(): Table
      reads this, channels.Values
    {
      Table(pollFds, map fd | fd in channels :: channels[fd].index)
    }

    ghost predicate Valid()
      reads this, channels.Values
    {
      Inv(View()) && forall fd :: fd in channels ==> channels[fd].fd == fd
    }

    /** What updateChannel asserts of a channel, new or known by its index. */
    predicate UpdateAsserts(c: Channel)
      reads this, c
    {
      if c.index < 0 then c.fd !in channels
      else
        && c.fd in channels && channels[c.fd] == c && c.index < |pollFds|
        && (pollFds[c.index].fd == c.fd || pollFds[c.index].fd == Mask(c.fd))
    }

    /** The channel has set its own events before the call. */
    method UpdateChannel(c: Channel)
      requires Valid() && UpdateAsserts(c)
      modifies this, c`index
      ensures Valid() && channels == old(channels)[c.fd := c]
      ensures old(c.index) < 0 ==> View() == Add(old(View()), c.fd, c.events)
      ensures old(c.index) >= 0 ==> View() == Change(old(View()), c.fd, c.events)
    {
      hide Inv, Decode, Wanted, Masked;
      ghost var before := View();
      if c.index < 0 {
        AddKeeps(before, c.fd, c.events);
        pollFds := pollFds + [Slot(c.fd, c.events, 0)];
        c.index := |pollFds| - 1;
        channels := channels[c.fd := c];
        assert View().index == Add(before, c.fd, c.events).index;
      } else {
        ChangeKeeps(before, c.fd, c.events);
        SlotOf(before, c.fd);
        assert before.index[c.fd] == c.index;
        var idx := c.index;
        pollFds := pollFds[idx := Slot(c.fd, c.events, 0)];
        if c.events == 0 {
          pollFds := pollFds[idx := pollFds[idx].(fd := Mask(c.fd))];
        }
        assert channels == old(channels)[c.fd := c];
        assert View().index == before.index;
        assert pollFds == Change(before, c.fd, c.events).fds;
      }
    }

    /** The removed channel keeps its index, so it cannot be added again: updateChannel's assertion fails. */
    method RemoveChannel(c: Channel)
      requires Valid() && c.fd in channels && channels[c.fd] == c && c.events == 0
      requires RemoveAsserts(View(), c.fd)
      modifies this, channels.Values`index
      ensures Valid() && channels == old(channels) - {c.fd}
      ensures View() == Remove(old(View()), c.fd)
      ensures c.index == old(c.index) >= 0 && !UpdateAsserts(c)
    {
      hide Inv, Wanted, Masked;
      ghost var before := View();
      RemoveKeeps(before, c.fd);
      SlotOf(before, c.fd);
      OwnerOf(before, |pollFds| - 1);
      assert before.index[c.fd] == c.index;
      var idx := c.index;
      channels := channels - {c.fd};
      var last := |pollFds| - 1;
      if idx == last {
        pollFds := pollFds[..last];
        assert View().index == before.index - {c.fd};
      } else {
        var channelAtEnd := pollFds[last].fd;
        pollFds := pollFds[idx := pollFds[last]][last := pollFds[idx]];
        if channelAtEnd < 0 {
          channelAtEnd := 0 - channelAtEnd - 1;
        }
        assert channelAtEnd == Decode(before.fds[last].fd) && before.index[channelAtEnd] == last;
        channels[channelAtEnd].index := idx;
        pollFds := pollFds[..last];
        assert View().index == (before.index - {c.fd})[channelAtEnd := idx];
      }
    }

    /** numEvents is what poll(2) returned, pollFds what it filled in. */
    method FillActiveChannels(numEvents: nat) returns (active: seq<Channel>)
      requires Valid() && Reported(View()) && numEvents == Positive(pollFds)
      modifies channels.Values`revents
      ensures |active| == |Active(pollFds)|
      ensures forall k :: 0 <= k < |active| ==>
                active[k].fd == Active(pollFds)[k] && active[k].fd in channels && channels[active[k].fd] == active[k]
      ensures forall k :: 0 <= k < |active| ==>
                0 <= active[k].index < |pollFds| && active[k].revents == pollFds[active[k].index].revents
      ensures Valid() && View() == old(View())
    {
      hide Inv, Wanted, Masked, Active, Positive;
      active := [];
      ghost var before := View();
      ghost var done: seq<int> := [];
      var n := numEvents;
      var i := 0;
      assert pollFds[0..] == pollFds && done + Active(pollFds) == Active(pollFds);
      while i < |pollFds| && n > 0
        invariant i <= |pollFds| && n == Positive(pollFds[i..])
        invariant Valid() && View() == before
        invariant Active(pollFds) == done + Active(pollFds[i..]) && |done| == |active|
        invariant forall k :: 0 <= k < |active| ==>
                    active[k].fd == done[k] && active[k].fd in channels && channels[active[k].fd] == active[k]
        invariant forall k :: 0 <= k < |active| ==>
                    0 <= active[k].index < |pollFds| && active[k].revents == pollFds[active[k].index].revents
      {
        var slot := pollFds[i];
        FromSlot(pollFds, i);
        if slot.revents > 0 {
          OwnerOf(before, i);
          assert Decode(slot.fd) == slot.fd && before.index[slot.fd] == i;
          n := n - 1;
          var channel := channels[slot.fd];
          assert channel.fd == slot.fd && channel.index == i && channels[channel.fd] == channel;
          channel.revents := slot.revents;
          assert View().index == before.index;
          active := active + [channel];
          assert done + ([slot.fd] + Active(pollFds[i + 1..])) == done + [slot.fd] + Active(pollFds[i + 1..]);
          done := done + [slot.fd];
          assert active[|active| - 1].fd == done[|active| - 1];
        }
        i := i + 1;
      }
      NothingLeft(pollFds[i..]);
      assert done + [] == done;
    }
  }

  lemma {:induction false} NothingLeft(fds: seq<Slot>)
    requires fds == [] || Positive(fds) == 0
    ensures Active(fds) == []
  {
    if fds != [] {
      NothingLeft(fds[1..]);
    }
  }
}
