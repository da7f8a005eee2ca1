/**
 The two scanners of fmt's parse_format_string: one pass for short strings, and for long ones a search
 for '{' and a second search for '}' in the text before it. The replacement field parser is a parameter:
 it gets the handler's state and the position of '{', and either goes on behind the field or fails.
 The error handler throws, so the first error ends the scan.
 */
module FormatScanner {

  datatype Event<E> = Text(from: nat, to: nat) | Field(e: E)

  datatype Outcome<H, E> = Next(h: H, pos: nat, events: seq<E>) | Failed(events: seq<E>, message: string)

  datatype Error = NoError | Error(message: string)

  /** The calls that the handler gets. */
  datatype Trace<E> = Trace(events: seq<Event<E>>, error: Error)

  const UNMATCHED := "unmatched '}' in format string"

  ghost predicate Advances<H(!new), E>(s: string, field: (H, nat) -> Outcome<H, E>)
  {
    forall h: H, p: nat :: p < |s| && field(h, p).Next? ==> p < field(h, p).pos <= |s|
  }

  function Fields<E>(es: seq<E>): seq<Event<E>>
  {
    seq(|es|, i requires 0 <= i < |es| => Field(es[i]))
  }

  function Before<E>(events: seq<Event<E>>, t: Trace<E>): Trace<E>
  {
    t.(events := events + t.events)
  }

  //// the one-pass loop ////

  /** What the one-pass loop still does at p, with text pending since begin. */
  ghost function Scan<H(!new), E>(s: string, field: (H, nat) -> Outcome<H, E>, h: H, begin: nat, p: nat): Trace<E>
    requires begin <= p <= |s| && Advances(s, field)
    decreases |s| - p
  {
    if p == |s| then Trace([Text(begin, p)], NoError)
    else if s[p] == '{' then
      (match field(h, p)
       case Failed(es, message) => Trace([Text(begin, p)] + Fields(es), Error(message))
       case Next(h', pos, es) => Before([Text(begin, p)] + Fields(es), Scan(s, field, h', pos, pos)))
    else if s[p] == '}' then
      if p + 1 == |s| || s[p + 1] != '}' then Trace([], Error(UNMATCHED))
      else Before([Text(begin, p + 1)], Scan(s, field, h, p + 2, p + 2))
    else Scan(s, field, h, begin, p + 1)
  }

  method ShortScan<H(!new), E>(s: string, field: (H, nat) -> Outcome<H, E>, start: H) returns (t: Trace<E>)
    requires Advances(s, field)
    ensures t == Scan(s, field, start, 0, 0)
  {
    var begin, p, h := 0, 0, start;
    var events: seq<Event<E>> := [];
    while p != |s|
      invariant begin <= p <= |s|
      invariant Before(events, Scan(s, field, h, begin, p)) == Scan(s, field, start, 0, 0)
      decreases |s| - p
    {
      var c := s[p];
      p := p + 1;
      if c == '{' {
        var pending := [Text(begin, p - 1)];
        match field(h, p - 1) {
          case Failed(es, message) =>
            assert events + pending + Fields(es) == events + (pending + Fields(es));
            return Trace(events + pending + Fields(es), Error(message));
          case Next(h', pos, es) =>
            Regroup(events, pending + Fields(es), Scan(s, field, h', pos, pos));
            events := events + (pending + Fields(es));
            begin, p, h := pos, pos, h';
        }
      } else if c == '}' {
        if p == |s| || s[p] != '}' {
          assert events + [] == events;
          return Trace(events, Error(UNMATCHED));
        }
        Regroup(events, [Text(begin, p)], Scan(s, field, h, p + 1, p + 1));
        events := events + [Text(begin, p)];
        p := p + 1;
        begin := p;
      }
    }
    t := Trace(events + [Text(begin, |s|)], NoError);
  }

  lemma Regroup<E>(first: seq<Event<E>>, second: seq<Event<E>>, t: Trace<E>)
    ensures Before(first, Before(second, t)) == Before(first + second, t)
  {}

  //// the long-string scanner ////

  /** memchr: the first c in s[from..to], or to. */
  method Find(s: string, from: nat, to: nat, c: char) returns (p: nat)
    requires from <= to <= |s|
    ensures from <= p <= to && (p < to ==> s[p] == c)
    ensures forall i :: from <= i < p ==> s[i] != c
  {
    p := from;
    while p < to && s[p] != c
      invariant from <= p <= to
      invariant forall i :: from <= i < p ==> s[i] != c
    {
      p := p + 1;
    }
  }

  function DropEmpty<E>(events: seq<Event<E>>): seq<Event<E>>
  {
    if events == [] then []
    else if events[0].Text? && events[0].from == events[0].to then DropEmpty(events[1..])
    else [events[0]] + DropEmpty(events[1..])
  }

  /** The same calls in the same order and the same error, but for empty pieces of text. */
  predicate Same<E(==)>(t: Trace<E>, u: Trace<E>)
  {
    DropEmpty(t.events) == DropEmpty(u.events) && t.error == u.error
  }

  lemma {:induction false} DropAppend<E>(a: seq<Event<E>>, b: seq<Event<E>>)
    ensures DropEmpty(a + b) == DropEmpty(a) + DropEmpty(b)
  {
    if a == [] {
      assert a + b == b;
    } else {
      assert (a + b)[1..] == a[1..] + b;
      DropAppend(a[1..], b);
    }
  }

  lemma BeforeSame<E>(events: seq<Event<E>>, events': seq<Event<E>>, t: Trace<E>, u: Trace<E>)
    requires Same(t, u) && DropEmpty(events) == DropEmpty(events')
    ensures Same(Before(events, t), Before(events', u))
  {
    DropAppend(events, t.events);
    DropAppend(events', u.events);
  }

  predicate NoBrace(s: string, from: nat, to: nat, c: char)
  {
    to <= |s| && forall i :: from <= i < to ==> s[i] != c
  }

  /** Text without braces only moves the one-pass loop on. */
  lemma {:induction false} PlainText<H(!new), E>(s: string, field: (H, nat) -> Outcome<H, E>, h: H,
                                                 begin: nat, p: nat, q: nat)
    requires begin <= p <= q <= |s| && Advances(s, field)
    requires NoBrace(s, p, q, '{') && NoBrace(s, p, q, '}')
    ensures Scan(s, field, h, begin, p) == Scan(s, field, h, begin, q)
    decreases q - p
  {
    if p < q {
      PlainText(s, field, h, begin, p + 1, q);
    }
  }

  /** At '{' or at the end, text pending since begin is one more event. */
  lemma PendingText<H(!new), E>(s: string, field: (H, nat) -> Outcome<H, E>, h: H, begin: nat, p: nat)
    requires begin <= p <= |s| && Advances(s, field) && (p < |s| ==> s[p] == '{')
    ensures Same(Scan(s, field, h, begin, p), Before([Text(begin, p)], Scan(s, field, h, p, p)))
  {
    var pending: seq<Event<E>>, empty: seq<Event<E>> := [Text(begin, p)], [Text(p, p)];
    assert empty[1..] == [];
    var rest: Trace<E>;
    if p == |s| {
      rest := Trace([], NoError);
      assert pending + [] == pending;
      assert empty + [] == empty;
    } else {
      match field(h, p)
      case Failed(es, message) => rest := Trace(Fields(es), Error(message));
      case Next(h', pos, es) =>
        rest := Before(Fields(es), Scan(s, field, h', pos, pos));
        Regroup([Text(begin, p)], Fields(es), Scan(s, field, h', pos, pos));
        Regroup([Text(p, p)], Fields(es), Scan(s, field, h', pos, pos));
    }
    assert Scan(s, field, h, begin, p) == Before([Text(begin, p)], rest);
    assert Scan(s, field, h, p, p) == Before([Text(p, p)], rest);
    DropAppend([Text(p, p)], rest.events);
    assert [] + DropEmpty(rest.events) == DropEmpty(rest.events);
    BeforeSame([Text(begin, p)], [Text(begin, p)], rest, Scan(s, field, h, p, p));
  }

  /**
   The local writer of the long scanner: the text in s[pbegin..pend], which ends at a '{' or at the end of
   the string. It makes the calls that the one-pass loop makes on its way to pend.
   */
  method Write<H(!new), E>(s: string, ghost field: (H, nat) -> Outcome<H, E>, ghost h: H, pbegin: nat, pend: nat)
    returns (t: Trace<E>)
    requires pbegin <= pend && NoBrace(s, pbegin, pend, '{') && (pend < |s| ==> s[pend] == '{')
    requires Advances(s, field)
    ensures t.error.Error? ==> Same(Scan(s, field, h, pbegin, pbegin), t)
    ensures t.error.NoError? ==>
              Same(Scan(s, field, h, pbegin, pbegin), Before(t.events, Scan(s, field, h, pend, pend)))
  {
    var events: seq<Event<E>> := [];
    var begin := pbegin;
    ghost var whole := Scan(s, field, h, pbegin, pbegin);
    if pbegin == pend {
      assert [] + whole.events == whole.events;
      return Trace([], NoError);
    }
    assert Before(events, whole) == whole by {
      assert [] + whole.events == whole.events;
    }
    while true
      invariant pbegin <= begin <= pend
      invariant Same(whole, Before(events, Scan(s, field, h, begin, begin)))
      decreases pend - begin
    {
      var p := Find(s, begin, pend, '}');
      PlainText(s, field, h, begin, begin, p);
      if p == pend {
        PendingText(s, field, h, begin, pend);
        BeforeSame(events, events, Scan(s, field, h, begin, pend),
                   Before([Text(begin, pend)], Scan(s, field, h, pend, pend)));
        Regroup(events, [Text(begin, pend)], Scan(s, field, h, pend, pend));
        return Trace(events + [Text(begin, pend)], NoError);
      }
      p := p + 1;
      if p == pend || s[p] != '}' {
        assert events + [] == events;
        return Trace(events, Error(UNMATCHED));
      }
      Regroup(events, [Text(begin, p)], Scan(s, field, h, p + 1, p + 1));
      events := events + [Text(begin, p)];
      begin := p + 1;
    }
  }

  /** The long scanner makes the calls of the one-pass loop, but for empty pieces of text. */
  method LongScan<H(!new), E>(s: string, field: (H, nat) -> Outcome<H, E>, start: H) returns (t: Trace<E>)
    requires Advances(s, field)
    ensures Same(Scan(s, field, start, 0, 0), t)
  {
    var begin, h := 0, start;
    var events: seq<Event<E>> := [];
    ghost var whole := Scan(s, field, start, 0, 0);
    assert [] + whole.events == whole.events;
    while begin != |s|
      invariant begin <= |s|
      invariant Same(whole, Before(events, Scan(s, field, h, begin, begin)))
      decreases |s| - begin
    {
      var p := begin;
      if s[begin] != '{' {
        p := Find(s, begin + 1, |s|, '{');
      }
      var text := Write(s, field, h, begin, p);
      if p == |s| || text.error.Error? {
        AtEnd(s, field, h, begin, p, text);
        BeforeSame(events, events, Scan(s, field, h, begin, begin), text);
        return Before(events, text);
      }
      var upTo := events + text.events;
      BeforeSame(events, events, Scan(s, field, h, begin, begin), Before(text.events, Scan(s, field, h, p, p)));
      Regroup(events, text.events, Scan(s, field, h, p, p));
      AtField(s, field, h, p);
      match field(h, p) {
        case Failed(es, message) =>
          BeforeSame(upTo, upTo, Scan(s, field, h, p, p), Trace(Fields(es), Error(message)));
          return Trace(upTo + Fields(es), Error(message));
        case Next(h', pos, es) =>
          BeforeSame(upTo, upTo, Scan(s, field, h, p, p), Before(Fields(es), Scan(s, field, h', pos, pos)));
          Regroup(upTo, Fields(es), Scan(s, field, h', pos, pos));
          events := upTo + Fields(es);
          begin, h := pos, h';
      }
    }
    ghost var empty: seq<Event<E>> := [Text(|s|, |s|)];
    assert empty[1..] == [];
    DropAppend(events, empty);
    assert DropEmpty(events) + [] == DropEmpty(events);
    t := Trace(events, NoError);
  }

  lemma AtEnd<H(!new), E>(s: string, field: (H, nat) -> Outcome<H, E>, h: H, begin: nat, p: nat, text: Trace<E>)
    requires begin <= p <= |s| && Advances(s, field)
    requires p == |s| || text.error.Error?
    requires text.error.Error? ==> Same(Scan(s, field, h, begin, begin), text)
    requires text.error.NoError? ==>
               Same(Scan(s, field, h, begin, begin), Before(text.events, Scan(s, field, h, p, p)))
    ensures Same(Scan(s, field, h, begin, begin), text)
  {
    if text.error.NoError? {
      var empty: seq<Event<E>> := [Text(p, p)];
      assert empty[1..] == [];
      DropAppend(text.events, empty);
      assert DropEmpty(text.events) + [] == DropEmpty(text.events);
    }
  }

  ghost function AfterField<H(!new), E>(s: string, field: (H, nat) -> Outcome<H, E>, o: Outcome<H, E>, p: nat): Trace<E>
    requires Advances(s, field) && (o.Next? ==> p < o.pos <= |s|)
  {
    match o
    case Failed(es, message) => Trace(Fields(es), Error(message))
    case Next(h', pos, es) => Before(Fields(es), Scan(s, field, h', pos, pos))
  }

  /** At a '{' with no text pending, what the loop does is what the field parser does. */
  lemma AtField<H(!new), E>(s: string, field: (H, nat) -> Outcome<H, E>, h: H, p: nat)
    requires p < |s| && s[p] == '{' && Advances(s, field)
    ensures Same(Scan(s, field, h, p, p), AfterField(s, field, field(h, p), p))
  {
    var empty: seq<Event<E>> := [Text(p, p)];
    assert empty[1..] == [];
    match field(h, p)
    case Failed(es, message) =>
      DropAppend(empty, Fields(es));
      assert [] + DropEmpty(Fields(es)) == DropEmpty(Fields(es));
    case Next(h', pos, es) =>
      var rest := Before(Fields(es), Scan(s, field, h', pos, pos));
      Regroup(empty, Fields(es), Scan(s, field, h', pos, pos));
      DropAppend(empty, rest.events);
      assert [] + DropEmpty(rest.events) == DropEmpty(rest.events);
  }

  //// what is formatted ////

  datatype Out<E> = Literal(c: char) | Formatted(e: E)

  function Chars<E>(text: string): seq<Out<E>>
  {
    seq(|text|, i requires 0 <= i < |text| => Literal(text[i]))
  }

  function FormattedAll<E>(es: seq<E>): seq<Out<E>>
  {
    seq(|es|, i requires 0 <= i < |es| => Formatted(es[i]))
  }

  function OutOf<E>(s: string, event: Event<E>): seq<Out<E>>
  {
    match event
    case Text(from, to) => if from <= to <= |s| then Chars(s[from..to]) else []
    case Field(e) => [Formatted(e)]
  }

  /** The output, text taken character by character. */
  function Flatten<E>(s: string, events: seq<Event<E>>): seq<Out<E>>
  {
    if events == [] then [] else OutOf(s, events[0]) + Flatten(s, events[1..])
  }

  /** The meaning of a format string: doubled '}' is one, a single '}' is an error, '{' starts a field. */
  ghost function Meaning<H(!new), E>(s: string, field: (H, nat) -> Outcome<H, E>, h: H, p: nat): (seq<Out<E>>, Error)
    requires p <= |s| && Advances(s, field)
    decreases |s| - p
  {
    if p == |s| then ([], NoError)
    else if s[p] == '{' then
      (match field(h, p)
       case Failed(es, message) => (FormattedAll(es), Error(message))
       case Next(h', pos, es) =>
         var rest := Meaning(s, field, h', pos);
         (FormattedAll(es) + rest.0, rest.1))
    else if s[p] != '}' then
      var rest := Meaning(s, field, h, p + 1);
      ([Literal(s[p])] + rest.0, rest.1)
    else if p + 1 < |s| && s[p + 1] == '}' then
      var rest := Meaning(s, field, h, p + 2);
      ([Literal('}')] + rest.0, rest.1)
    else ([], Error(UNMATCHED))
  }

  /** The text before p reaches the handler: what ends it is no unmatched '}'. */
  predicate Passes(s: string, p: nat)
    requires p <= |s|
    decreases |s| - p
  {
    p == |s| || s[p] == '{' ||
    (if s[p] == '}' then p + 1 < |s| && s[p + 1] == '}' else Passes(s, p + 1))
  }

  /**
   What the handler has been given when the scan ends, with an error or without: all before a field that
   fails and what the field has given until then, but of the text that ends in an unmatched '}' nothing.
   */
  ghost function Delivered<H(!new), E>(s: string, field: (H, nat) -> Outcome<H, E>, h: H, p: nat): seq<Out<E>>
    requires p <= |s| && Advances(s, field)
    decreases |s| - p
  {
    if p == |s| then []
    else if s[p] == '{' then
      (match field(h, p)
       case Failed(es, _) => FormattedAll(es)
       case Next(h', pos, es) => FormattedAll(es) + Delivered(s, field, h', pos))
    else if !Passes(s, p) then []
    else [Literal(s[p])] + Delivered(s, field, h, if s[p] == '}' then p + 2 else p + 1)
  }

  /** That is the beginning of what the format string means, and all of it if it has a meaning. */
  lemma {:induction false} DeliversMeaning<H(!new), E>(s: string, field: (H, nat) -> Outcome<H, E>, h: H, p: nat)
    requires p <= |s| && Advances(s, field)
    ensures var m := Meaning(s, field, h, p);
            && Delivered(s, field, h, p) <= m.0
            && (m.1.NoError? ==> Passes(s, p) && Delivered(s, field, h, p) == m.0)
    decreases |s| - p
  {
    if p < |s| {
      if s[p] == '{' {
        if field(h, p).Next? {
          DeliversMeaning(s, field, field(h, p).h, field(h, p).pos);
        }
      } else if s[p] != '}' {
        DeliversMeaning(s, field, h, p + 1);
      } else if p + 1 < |s| && s[p + 1] == '}' {
        DeliversMeaning(s, field, h, p + 2);
      }
    }
  }

  lemma {:induction false} FlattenAppend<E>(s: string, a: seq<Event<E>>, b: seq<Event<E>>)
    ensures Flatten(s, a + b) == Flatten(s, a) + Flatten(s, b)
  {
    hide OutOf;
    if a == [] {
      assert a + b == b && [] + Flatten(s, b) == Flatten(s, b);
    } else {
      assert (a + b)[0] == a[0] && (a + b)[1..] == a[1..] + b;
      FlattenAppend(s, a[1..], b);
      RegroupOut(OutOf(s, a[0]), Flatten(s, a[1..]), Flatten(s, b));
    }
  }

  lemma {:induction false} FlattenDrop<E>(s: string, events: seq<Event<E>>)
    ensures Flatten(s, DropEmpty(events)) == Flatten(s, events)
  {
    if events != [] {
      FlattenDrop(s, events[1..]);
      var rest := DropEmpty(events[1..]);
      assert ([events[0]] + rest)[1..] == rest;
    }
  }

  lemma {:induction false} FlattenFields<E>(s: string, es: seq<E>)
    ensures Flatten(s, Fields(es)) == FormattedAll(es)
  {
    if es != [] {
      FlattenFields(s, es[1..]);
      assert Fields(es)[1..] == Fields(es[1..]);
      assert FormattedAll(es) == [Formatted(es[0])] + FormattedAll(es[1..]);
    }
  }

  lemma FlattenText<E>(s: string, from: nat, to: nat)
    requires from <= to <= |s|
    ensures Flatten<E>(s, [Text(from, to)]) == Chars(s[from..to])
  {}

  lemma CharsSplit<E>(s: string, begin: nat, p: nat, rest: seq<Out<E>>)
    requires begin <= p < |s|
    ensures Chars<E>(s[begin..p + 1]) + rest == Chars(s[begin..p]) + ([Literal(s[p])] + rest)
  {}

  /** The one-pass loop says what the format string means, behind the text that is still pending. */
  lemma {:induction false} ScanMeans<H(!new), E>(s: string, field: (H, nat) -> Outcome<H, E>, h: H, begin: nat, p: nat)
    requires begin <= p <= |s| && Advances(s, field)
    ensures var t := Scan(s, field, h, begin, p);
            var m := Meaning(s, field, h, p);
            && t.error == m.1
            && (t.error.NoError? ==> Flatten(s, t.events) == Chars(s[begin..p]) + m.0)
            && Flatten(s, t.events) == (if Passes(s, p) then Chars(s[begin..p]) else []) + Delivered(s, field, h, p)
    decreases |s| - p
  {
    hide Flatten, Chars;
    DeliversMeaning(s, field, h, p);
    if p == |s| {
      FlattenText<E>(s, begin, p);
    } else if s[p] == '{' {
      match field(h, p) {
        case Failed(es, message) =>
          FlattenAppend(s, [Text(begin, p)], Fields(es));
          FlattenText<E>(s, begin, p);
          FlattenFields(s, es);
        case Next(h', pos, es) =>
          ScanMeans(s, field, h', pos, pos);
          var rest := Scan(s, field, h', pos, pos);
          FlattenAppend(s, [Text(begin, p)] + Fields(es), rest.events);
          FlattenAppend(s, [Text(begin, p)], Fields(es));
          FlattenText<E>(s, begin, p);
          FlattenFields(s, es);
          NothingPending(s, pos, Delivered(s, field, h', pos));
          RegroupOut(Chars(s[begin..p]), FormattedAll(es), Delivered(s, field, h', pos));
      }
    } else if s[p] == '}' {
      if p + 1 < |s| && s[p + 1] == '}' {
        ScanMeans(s, field, h, p + 2, p + 2);
        var rest := Scan(s, field, h, p + 2, p + 2);
        FlattenAppend(s, [Text(begin, p + 1)], rest.events);
        FlattenText<E>(s, begin, p + 1);
        NothingPending(s, p + 2, Delivered(s, field, h, p + 2));
        CharsSplit(s, begin, p, Delivered(s, field, h, p + 2));
      } else {
        FlattenNone<E>(s);
      }
    } else {
      ScanMeans(s, field, h, begin, p + 1);
      CharsSplit(s, begin, p, Delivered(s, field, h, p + 1));
      if !Passes(s, p + 1) {
        DeliversNothing(s, field, h, p + 1);
      }
    }
  }

  lemma FlattenNone<E>(s: string)
    ensures Flatten<E>(s, []) == []
  {}

  lemma DeliversNothing<H(!new), E>(s: string, field: (H, nat) -> Outcome<H, E>, h: H, p: nat)
    requires p <= |s| && Advances(s, field) && !Passes(s, p)
    ensures Delivered(s, field, h, p) == []
  {}

  lemma NothingPending<E>(s: string, p: nat, rest: seq<Out<E>>)
    requires p <= |s|
    ensures Chars<E>(s[p..p]) + rest == rest
  {}

  lemma RegroupOut<E>(a: seq<Out<E>>, b: seq<Out<E>>, c: seq<Out<E>>)
    ensures a + b + c == a + (b + c)
  {}

  /**
   Whatever the length, and for every field parser: the scan succeeds exactly when the format string has
   a meaning, fails with its first error otherwise, and what the handler is given is that meaning, or the
   part of it that was delivered before the error.
   */
  lemma ScannersAgree<H(!new), E>(s: string, field: (H, nat) -> Outcome<H, E>, start: H, t: Trace<E>)
    requires Advances(s, field) && Same(Scan(s, field, start, 0, 0), t)
    ensures var m := Meaning(s, field, start, 0);
            && t.error == m.1 && (t.error.NoError? ==> Flatten(s, t.events) == m.0)
            && Flatten(s, t.events) == Delivered(s, field, start, 0) <= m.0
  {
    ScanMeans(s, field, start, 0, 0);
    DeliversMeaning(s, field, start, 0);
    NothingPending(s, 0, Delivered(s, field, start, 0));
    FlattenDrop(s, t.events);
    FlattenDrop(s, Scan(s, field, start, 0, 0).events);
  }

  /** parse_format_string: which scanner runs depends on the length, what the handler sees does not. */
  method ParseFormatString<H(!new), E>(s: string, field: (H, nat) -> Outcome<H, E>, start: H) returns (t: Trace<E>)
    requires Advances(s, field)
    ensures Same(Scan(s, field, start, 0, 0), t)
    ensures var m := Meaning(s, field, start, 0);
            && t.error == m.1 && (t.error.NoError? ==> Flatten(s, t.events) == m.0)
            && Flatten(s, t.events) == Delivered(s, field, start, 0) <= m.0
  {
    if |s| < 32 {
      t := ShortScan(s, field, start);
    } else {
      t := LongScan(s, field, start);
    }
    ScannersAgree(s, field, start, t);
  }
}
