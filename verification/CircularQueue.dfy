/** spdlog's circular_q: a ring buffer that overwrites its oldest item when full. */
module CircularQueue {

  /** The last n items of s. */
  function KeepLast<T>(s: seq<T>, n: nat): (r: seq<T>)
  {
    if |s| <= n then s else s[|s| - n..]
  }

  /** The slots from head up to tail, going round the end of a. */
  function Window<T>(a: seq<T>, head: nat, tail: nat): seq<T>
    requires head <= |a| && tail <= |a|
  {
    if tail >= head then a[head..tail] else a[head..] + a[..tail]
  }

  function Next(i: nat, m: nat): nat { if i + 1 == m then 0 else i + 1 }

  /** Writing at tail and advancing it appends; when tail meets head the oldest item goes. */
  lemma WindowPush<T>(a: seq<T>, head: nat, tail: nat, x: T)
    requires head < |a| && tail < |a|
    ensures var r, tail' := a[tail := x], Next(tail, |a|);
            tail' != head ==> Window(r, head, tail') == Window(a, head, tail) + [x]
    ensures var r, tail' := a[tail := x], Next(tail, |a|);
            tail' == head ==> Window(r, Next(head, |a|), tail') == (Window(a, head, tail) + [x])[1..]
    ensures Next(tail, |a|) == head <==> |Window(a, head, tail)| == |a| - 1
  {
    var r := a[tail := x];
    if tail + 1 < |a| {
      if tail >= head {
        assert r[head..tail + 1] == a[head..tail] + [x];
      } else {
        assert r[head..] == a[head..] && r[..tail + 1] == a[..tail] + [x];
        if tail + 1 == head {
          WindowFull(a, head, x);
        }
      }
    } else {
      assert r[head..] == a[head..tail] + [x];
      if head == 0 {
        assert Window(a, head, tail) + [x] == r;
        if |a| > 1 {
          assert Window(r, 1, 0) == r[1..];
        }
      }
    }
  }

  lemma WindowFull<T>(a: seq<T>, head: nat, x: T)
    requires 0 < head < |a|
    ensures Window(a[head - 1 := x], Next(head, |a|), head) == (a[head..] + a[..head - 1] + [x])[1..]
  {
    var r := a[head - 1 := x];
    assert r[..head] == a[..head - 1] + [x];
    if head + 1 < |a| {
      assert r[head + 1..] == a[head..][1..];
    } else {
      assert a[head..] == [a[head]];
    }
  }

  lemma WindowSize<T>(a: seq<T>, head: nat, tail: nat)
    requires head <= |a| && tail <= |a|
    ensures head == tail ==> Window(a, head, tail) == []
    ensures head < |a| && tail < |a| ==> |Window(a, head, tail)| < |a|
  {}

  class CircularQ<T(0)> {
    var maxItems: nat
    var head: nat
    var tail: nat
    var overruns: nat
    var v: array<T>

    ghost predicate Valid()
      reads this
    {
      && v.Length == maxItems
      && (maxItems == 0 ==> head == tail == 0)
      && (maxItems > 0 ==> head < maxItems && tail < maxItems)
    }

    /** The stored items, oldest first. */
    ghost function Contents(): seq<T>
      requires Valid()
      reads this, v
    {
      Window(v[..], head, tail)
    }

    /** One slot is kept free to tell a full queue from an empty one. */
    ghost function Capacity(): nat
      requires Valid()
      reads this
    {
      if maxItems == 0 then 0 else maxItems - 1
    }

    constructor Disabled()
      ensures Valid() && maxItems == 0 && Contents() == [] && overruns == 0
      ensures fresh(v)
    {
      maxItems, head, tail, overruns := 0, 0, 0, 0;
      v := new T[0];
    }

    constructor (capacity: nat)
      ensures Valid() && maxItems > 0 && Capacity() == capacity && Contents() == [] && overruns == 0
      ensures fresh(v)
    {
      maxItems, head, tail, overruns := capacity + 1, 0, 0, 0;
      v := new T[capacity + 1];
    }

    method PushBack(item: T)
      requires Valid()
      modifies this`head, this`tail, this`overruns, v
      ensures Valid()
      ensures maxItems == 0 ==> Contents() == [] && overruns == old(overruns)
      ensures maxItems > 0 ==> Contents() == KeepLast(old(Contents()) + [item], Capacity())
      ensures maxItems > 0 ==> overruns == old(overruns) + (if |old(Contents())| == Capacity() then 1 else 0)
    {
      hide Window;
      WindowSize(v[..], head, tail);
      if maxItems > 0 {
        NextWraps(tail, maxItems);
        NextWraps(head, maxItems);
        WindowPush(v[..], head, tail, item);
        ghost var slots := v[..];
        v[tail] := item;
        assert v[..] == slots[tail := item];
        tail := (tail + 1) % maxItems;
        if tail == head {
          head := (head + 1) % maxItems;
          overruns := overruns + 1;
        }
      }
    }

    function Front(): T
      requires Valid() && Contents() != []
      reads this, v
      ensures Front() == Contents()[0]
    {
      v[head]
    }

    function Size(): nat
      requires Valid()
      reads this, v
      ensures Size() == |Contents()| <= Capacity()
    {
      if tail >= head then tail - head else maxItems - (head - tail)
    }

    function At(i: nat): T
      requires Valid() && i < |Contents()|
      reads this, v
      ensures At(i) == Contents()[i]
    {
      IndexWraps(head, i, maxItems);
      v[(head + i) % maxItems]
    }

    method PopFront()
      requires Valid() && Contents() != []
      modifies this`head
      ensures Valid() && Contents() == old(Contents())[1..]
    {
      NextWraps(head, maxItems);
      head := (head + 1) % maxItems;
    }

    predicate Empty()
      requires Valid()
      reads this, v
      ensures Empty() <==> Contents() == []
    {
      tail == head
    }

    /** A disabled queue is never full. */
    predicate Full()
      requires Valid()
      reads this, v
      ensures Full() <==> maxItems > 0 && |Contents()| == Capacity()
    {
      if maxItems > 0 then NextWraps(tail, maxItems); (tail + 1) % maxItems == head else false
    }

    /** ringbuffer_sink's last_raw: lim == 0 asks for everything. */
    method LastRaw(lim: nat) returns (ret: seq<T>)
      requires Valid()
      ensures ret == if lim == 0 then Contents() else KeepLast(Contents(), lim)
    {
      var available := Size();
      var n := if lim > 0 then (if lim < available then lim else available) else available;
      ret := [];
      var i := available - n;
      while i < available
        invariant available - n <= i <= available
        invariant ret == Contents()[available - n..i]
      {
        ret := ret + [At(i)];
        i := i + 1;
      }
    }
  }

  lemma NextWraps(i: nat, m: nat)
    requires i < m
    ensures (i + 1) % m == if i + 1 == m then 0 else i + 1
  {}

  lemma IndexWraps(head: nat, i: nat, m: nat)
    requires head < m && i < m
    ensures (head + i) % m == if head + i < m then head + i else head + i - m
  {}

  //// histories ////

  datatype Op<T> = Push(item: T) | Pop

  /** What a queue holds, what left it at the front in order, and how much of that was overwritten. */
  datatype Model<T> = Model(items: seq<T>, removed: seq<T>, overruns: nat)

  /** One call, as PushBack and PopFront specify it; a pop of an empty queue is not made. */
  function Apply<T>(m: Model<T>, capacity: nat, op: Op<T>): Model<T>
  {
    match op
    case Push(x) =>
      if |m.items| < capacity then m.(items := m.items + [x])
      else
        var all := m.items + [x];
        Model(KeepLast(all, capacity), m.removed + all[..|all| - |KeepLast(all, capacity)|], m.overruns + 1)
    case Pop =>
      if m.items == [] then m else m.(items := m.items[1..], removed := m.removed + [m.items[0]])
  }

  function Run<T>(m: Model<T>, capacity: nat, ops: seq<Op<T>>): Model<T>
    decreases |ops|
  {
    if ops == [] then m else Run(Apply(m, capacity, ops[0]), capacity, ops[1..])
  }

  function Pushes<T>(ops: seq<Op<T>>): seq<T>
  {
    if ops == [] then []
    else (match ops[0] case Push(x) => [x] case Pop => []) + Pushes(ops[1..])
  }

  /** Calls of pop_front made on a nonempty queue. */
  function Pops<T>(m: Model<T>, capacity: nat, ops: seq<Op<T>>): nat
    decreases |ops|
  {
    if ops == [] then 0
    else (if ops[0].Pop? && m.items != [] then 1 else 0) + Pops(Apply(m, capacity, ops[0]), capacity, ops[1..])
  }

  lemma ApplyKeepsOrder<T>(m: Model<T>, capacity: nat, op: Op<T>)
    ensures var m' := Apply(m, capacity, op); m'.removed + m'.items == m.removed + m.items + Pushes([op])
  {
    var m' := Apply(m, capacity, op);
    assert [op][1..] == [];
    match op
    case Push(x) =>
      var all := m.items + [x];
      var dropped := all[..|all| - |KeepLast(all, capacity)|];
      assert Pushes([op]) == [x];
      if |m.items| >= capacity {
        assert m'.removed + m'.items == m.removed + (dropped + m'.items);
        assert dropped + m'.items == all;
      }
      assert m.removed + all == m.removed + m.items + [x];
    case Pop =>
      assert Pushes([op]) == [];
      if m.items != [] {
        assert m'.removed + m'.items == m.removed + ([m.items[0]] + m.items[1..]);
      }
  }

  lemma ApplyPush<T>(m: Model<T>, capacity: nat, x: T)
    requires |m.items| <= capacity
    ensures Apply(m, capacity, Push(x)).items == KeepLast(m.items + [x], capacity)
    ensures |Apply(m, capacity, Push(x)).items| <= capacity
    ensures Apply(m, capacity, Push(x)).overruns == m.overruns + if |m.items| == capacity then 1 else 0
  {}

  /** A push adds an item, or loses the oldest and counts an overrun; a pop takes one if there is one. */
  lemma ApplyCounts<T>(m: Model<T>, capacity: nat, op: Op<T>)
    requires |m.items| <= capacity
    ensures var m' := Apply(m, capacity, op);
            && |m'.items| <= capacity
            && |m.items| + (if op.Push? then 1 else 0)
               == (if op.Pop? && m.items != [] then 1 else 0) + |m'.items| + (m'.overruns - m.overruns)
  {}

  /** Over any history the items leave in push order, and every push is popped, stored or overwritten. */
  lemma {:induction false} Conservation<T>(m: Model<T>, capacity: nat, ops: seq<Op<T>>)
    requires |m.items| <= capacity
    ensures var r := Run(m, capacity, ops);
            r.removed + r.items == m.removed + m.items + Pushes(ops)
    ensures var r := Run(m, capacity, ops);
            |m.items| + |Pushes(ops)| == Pops(m, capacity, ops) + |r.items| + (r.overruns - m.overruns)
    ensures |Run(m, capacity, ops).items| <= capacity
    decreases |ops|
  {
    hide KeepLast, Apply;
    if ops != [] {
      var m' := Apply(m, capacity, ops[0]);
      ApplyCounts(m, capacity, ops[0]);
      Conservation(m', capacity, ops[1..]);
      ApplyKeepsOrder(m, capacity, ops[0]);
      assert Pushes([ops[0]]) == if ops[0].Push? then [ops[0].item] else [] by {
        assert [ops[0]][1..] == [];
      }
      assert Pushes(ops) == Pushes([ops[0]]) + Pushes(ops[1..]);
      Regroup(m.removed + m.items, Pushes([ops[0]]), Pushes(ops[1..]));
    }
  }

  lemma KeepAll<T>(s: seq<T>, n: nat)
    requires |s| <= n
    ensures KeepLast(s, n) == s
  {}

  /** Without pops the queue holds exactly the last pushes. */
  lemma {:induction false} OnlyPushes<T>(m: Model<T>, capacity: nat, ops: seq<Op<T>>)
    requires |m.items| <= capacity && forall i :: 0 <= i < |ops| ==> ops[i].Push?
    ensures Run(m, capacity, ops).items == KeepLast(m.items + Pushes(ops), capacity)
    decreases |ops|
  {
    hide KeepLast, Apply;
    if ops == [] {
      assert m.items + [] == m.items;
      KeepAll(m.items, capacity);
    } else {
      var x := ops[0].item;
      ApplyPush(m, capacity, x);
      OnlyPushes(Apply(m, capacity, ops[0]), capacity, ops[1..]);
      KeepLastAgain(m.items + [x], Pushes(ops[1..]), capacity);
      assert m.items + Pushes(ops) == m.items + [x] + Pushes(ops[1..]);
    }
  }

  /** What stands before n items or more is not among the last n. */
  lemma KeepLastBehind<T>(p: seq<T>, s: seq<T>, n: nat)
    requires |s| >= n
    ensures KeepLast(p + s, n) == KeepLast(s, n)
  {
    assert (p + s)[|p| + |s| - n..] == s[|s| - n..];
  }

  lemma KeepBack<T>(s: seq<T>, n: nat)
    requires |s| > n
    ensures KeepLast(s, n) == s[|s| - n..] && s == s[..|s| - n] + s[|s| - n..]
  {}

  lemma Regroup<T>(a: seq<T>, b: seq<T>, c: seq<T>)
    ensures a + b + c == a + (b + c)
  {}

  /** Dropping early what would be dropped later anyway changes nothing. */
  lemma KeepLastAgain<T>(a: seq<T>, b: seq<T>, n: nat)
    ensures KeepLast(KeepLast(a, n) + b, n) == KeepLast(a + b, n)
  {
    hide KeepLast;
    if |a| <= n {
      KeepAll(a, n);
    } else {
      KeepBack(a, n);
      Regroup(a[..|a| - n], a[|a| - n..], b);
      KeepLastBehind(a[..|a| - n], a[|a| - n..] + b, n);
    }
  }

  //// histories of calls ////

  /**
   Makes the calls on the object; popped counts the pop_fronts, none of them on an empty queue. Every push
   is popped, stored or counted as overrun, except that a disabled queue drops what is pushed uncounted.
   */
  method Replay<T(0)>(q: CircularQ<T>, ops: seq<Op<T>>) returns (popped: nat)
    requires q.Valid()
    modifies q, q.v
    ensures q.Valid() && q.v == old(q.v) && q.maxItems == old(q.maxItems)
    ensures q.maxItems > 0 ==>
              var m := Model(old(q.Contents()), [], old(q.overruns));
              && q.Contents() == Run(m, q.Capacity(), ops).items && q.overruns == Run(m, q.Capacity(), ops).overruns
              && popped == Pops(m, q.Capacity(), ops)
    ensures q.maxItems == 0 ==> q.Contents() == [] && q.overruns == old(q.overruns) && popped == 0
    ensures |old(q.Contents())| + |Pushes(ops)| == popped + |q.Contents()| + (q.overruns - old(q.overruns))
            <==> q.maxItems > 0 || Pushes(ops) == []
  {
    hide KeepLast, Window;
    ghost var cap, m := q.Capacity(), Model(q.Contents(), [], q.overruns);
    ghost var start := m;
    popped := 0;
    var i := 0;
    assert ops[0..] == ops;
    WindowSize(q.v[..], q.head, q.tail);
    while i < |ops|
      invariant i <= |ops| && q.Valid() && q.v == old(q.v) && q.maxItems == old(q.maxItems) && q.Capacity() == cap
      invariant q.maxItems > 0 ==> q.Contents() == m.items && q.overruns == m.overruns && |m.items| <= cap
      invariant q.maxItems > 0 ==> Run(start, cap, ops) == Run(m, cap, ops[i..])
      invariant q.maxItems > 0 ==> Pops(start, cap, ops) == popped + Pops(m, cap, ops[i..])
      invariant q.maxItems == 0 ==> q.Contents() == [] && q.overruns == old(q.overruns) && popped == 0
    {
      assert ops[i..][1..] == ops[i + 1..];
      match ops[i] {
        case Push(x) =>
          if q.maxItems > 0 { ApplyPush(m, cap, x); }
          q.PushBack(x);
        case Pop =>
          if !q.Empty() {
            q.PopFront();
            popped := popped + 1;
          }
      }
      m := Apply(m, cap, ops[i]);
      i := i + 1;
    }
    if q.maxItems > 0 {
      Conservation(start, cap, ops);
    }
  }
}
