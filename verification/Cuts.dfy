/**
  Header names and values where the input is cut. The wrappers do not append them, so they are
  the one part of a message that sees the cuts.
 */
module Cuts {
  import opened Chars
  import opened ParserTypes
  import opened Transitions
  import opened Machine
  import opened Invariant
  import opened Traces
  import opened Segmentation
  import opened Headers
  import opened Callbacks

  /** The callbacks for names and values. */
  predicate IsLine(e: Event) {
    IsNamed(e) || IsValued(e)
  }

  function HeaderLines(events: seq<Event>): seq<Event> {
    if events == [] then [] else (if IsLine(events[0]) then [events[0]] else []) + HeaderLines(events[1..])
  }

  lemma LinesFirst(e: Event, rest: seq<Event>)
    ensures HeaderLines([e] + rest) == (if IsLine(e) then [e] else []) + HeaderLines(rest)
  {
    hide IsLine;
    assert ([e] + rest)[1..] == rest;
  }

  lemma Regrouped(a: seq<Event>, b: seq<Event>, c: seq<Event>)
    ensures a + (b + c) == a + b + c
  {
  }

  lemma {:induction false} LinesAppend(a: seq<Event>, b: seq<Event>)
    ensures HeaderLines(a + b) == HeaderLines(a) + HeaderLines(b)
    decreases |a|
  {
    hide HeaderLines, IsLine;
    if a == [] {
      assert a + b == b;
      assert HeaderLines([]) == [] by { NoHeaderLines(); }
    } else {
      var e, rest := a[0], a[1..];
      assert a == [e] + rest;
      Regrouped([e], rest, b);
      LinesFirst(e, rest + b);
      LinesFirst(e, rest);
      LinesAppend(rest, b);
      Regrouped(if IsLine(e) then [e] else [], HeaderLines(rest), HeaderLines(b));
    }
  }

  lemma NoHeaderLines()
    ensures HeaderLines([]) == []
  {
  }

  lemma LinesOfOne(e: Event)
    ensures HeaderLines([e]) == if IsLine(e) then [e] else []
  {
    assert [e][1..] == [];
  }

  /** How many names are told. */
  function NameCount(events: seq<Event>): nat {
    if events == [] then 0 else (if IsNamed(events[0]) then 1 else 0) + NameCount(events[1..])
  }

  lemma {:induction false} NameCountAppend(a: seq<Event>, b: seq<Event>)
    ensures NameCount(a + b) == NameCount(a) + NameCount(b)
    decreases |a|
  {
    hide IsNamed;
    if a == [] {
      assert a + b == b;
    } else {
      assert (a + b)[1..] == a[1..] + b;
      NameCountAppend(a[1..], b);
    }
  }

  lemma NameCountOfOne(e: Event)
    ensures NameCount([e]) == if IsNamed(e) then 1 else 0
  {
    assert [e][1..] == [];
  }

  // ---- Where the cuts fall ----

  /** The states in which the calls but the last one end. */
  function CutStates(p: Parser, n: nat, pieces: seq<string>): seq<State>
    decreases |pieces|
  {
    if |pieces| <= 1 then []
    else
      var r := Call(p, n, pieces[0]);
      [r.c.p.state] + CutStates(r.c.p, r.c.nread, pieces[1..])
  }

  /** No cut falls inside a field name or a value. */
  predicate CutsOutside(p: Parser, n: nat, pieces: seq<string>) {
    forall s <- CutStates(p, n, pieces) :: !InLetters(s)
  }

  function CutNames(states: seq<State>): nat {
    if states == [] then 0 else (if states[0] == Head(HeaderField) then 1 else 0) + CutNames(states[1..])
  }

  // ---- Two runs over the same bytes ----

  /** `c` is in a call that began later than that of `d`. */
  predicate Together(c: Core, d: Core) {
    CoreInv(c) && CoreInv(d) && c.p == d.p && c.halted == d.halted && (c.skipping ==> d.skipping)
  }

  predicate SameLetters(c: Core, d: Core) {
    InLetters(c.p.state) ==> c.slice == d.slice
  }

  /** What one byte, or a run of them, tells in both. */
  predicate TellAlike(c: Core, d: Core, x: Core, e: seq<Event>, y: Core, f: seq<Event>) {
    && NameCount(e) == NameCount(f)
    && (SameLetters(c, d) ==> HeaderLines(e) == HeaderLines(f) && SameLetters(x, y))
  }

  lemma HandTogether(p: Parser, s: Slice, t: Slice, o: Outcome, ch: char)
    requires SliceFits(p, s) && SliceFits(p, t) && MarksFlow(p, o)
    ensures
      var (a, e) := Hand(s, o.flush, ch);
      var (b, f) := Hand(t, o.flush, ch);
      && NameCount(e) == NameCount(f)
      && ((InLetters(p.state) ==> s == t) ==>
            && HeaderLines(e) == HeaderLines(f)
            && (InLetters(o.p.state) ==> Extend(a, o.mark, ch) == Extend(b, o.mark, ch)))
  {
    var (a, e) := Hand(s, o.flush, ch);
    var (b, f) := Hand(t, o.flush, ch);
    if e != [] {
      LinesOfOne(e[0]);
      NameCountOfOne(e[0]);
      assert e == [e[0]];
    }
    if f != [] {
      LinesOfOne(f[0]);
      NameCountOfOne(f[0]);
      assert f == [f[0]];
    }
    hide HeaderLines, NameCount;
  }

  lemma StepTogether(c: Core, d: Core, ch: char)
    requires Together(c, d) && Going(c) && Step(c, ch).c.p.errno == OK
    ensures
      var x, y := Step(c, ch), Step(d, ch);
      y.c.p.errno == OK && Together(x.c, y.c) && TellAlike(c, d, x.c, x.events, y.c, y.events)
  {
    hide Transition, Inv, MarksFlow, SliceFits, HeaderLines, NameCount;
    SkippingTakesMore(c.p, c.skipping, d.skipping, ch);
    var o := Transition(c.p, c.skipping, ch);
    TransitionInv(c.p, c.skipping, ch);
    StepInv(c, ch);
    StepInv(d, ch);
    HandTogether(c.p, c.slice, d.slice, o, ch);
    LinesAppend(Hand(c.slice, o.flush, ch).1, o.notes);
    LinesAppend(Hand(d.slice, o.flush, ch).1, o.notes);
    NameCountAppend(Hand(c.slice, o.flush, ch).1, o.notes);
    NameCountAppend(Hand(d.slice, o.flush, ch).1, o.notes);
  }

  lemma {:induction false} RunTogether(c: Core, d: Core, data: string)
    requires Together(c, d) && c.p.errno == OK && Run(c, data).c.p.errno == OK
    ensures
      var x, y := Run(c, data), Run(d, data);
      y.c.p.errno == OK && Together(x.c, y.c) && TellAlike(c, d, x.c, x.events, y.c, y.events)
    decreases |data|
  {
    hide Step, CoreInv, SameLetters, HeaderLines, NameCount;
    if data != [] && Going(c) {
      var ch, rest := data[0], data[1..];
      var x, y := Step(c, ch), Step(d, ch);
      RunStopped(x.c, rest);
      StepTogether(c, d, ch);
      RunTogether(x.c, y.c, rest);
      LinesAppend(x.events, Run(x.c, rest).events);
      LinesAppend(y.events, Run(y.c, rest).events);
      NameCountAppend(x.events, Run(x.c, rest).events);
      NameCountAppend(y.events, Run(y.c, rest).events);
    }
  }

  /** The end of a call tells a name only where it ends in one. */
  lemma RestOfCall(c: Core)
    requires CoreInv(c)
    ensures NameCount(Rest(c.slice)) == if c.p.state == Head(HeaderField) then 1 else 0
    ensures !InLetters(c.p.state) ==> HeaderLines(Rest(c.slice)) == []
  {
    if c.slice.Open? {
      LinesOfOne(Data(c.slice.kind, c.slice.bytes));
      NameCountOfOne(Data(c.slice.kind, c.slice.bytes));
    }
    hide Inv;
  }

  /** Calls one by one, against one call that is already under way. */
  predicate FeedTells(c: Core, d: Core, f: FeedOut, states: seq<State>, r: RunOut) {
    && NameCount(f.events) == NameCount(Finish(r).events) + CutNames(states)
    && (SameLetters(c, d) && (forall s <- states :: !InLetters(s)) ==>
          HeaderLines(f.events) == HeaderLines(Finish(r).events))
  }

  lemma FinishTells(c: Core, d: Core, x: RunOut, y: RunOut)
    requires Together(x.c, y.c) && TellAlike(c, d, x.c, x.events, y.c, y.events)
    ensures NameCount(Finish(x).events) == NameCount(Finish(y).events)
    ensures SameLetters(c, d) ==> HeaderLines(Finish(x).events) == HeaderLines(Finish(y).events)
  {
    hide Inv, HeaderLines, NameCount;
    if Going(x.c) {
      RestOfCall(x.c);
      RestOfCall(y.c);
      LinesAppend(x.events, Rest(x.c.slice));
      LinesAppend(y.events, Rest(y.c.slice));
      NameCountAppend(x.events, Rest(x.c.slice));
      NameCountAppend(y.events, Rest(y.c.slice));
    }
  }

  lemma FeedLast(p: Parser, n: nat, d: Core, data: string)
    requires Together(Begin(p, n), d) && p.errno == OK && Feed(p, n, [data]).ok
    ensures FeedTells(Begin(p, n), d, Feed(p, n, [data]), [], Run(d, data))
  {
    hide Run, CoreInv, Step, SameLetters, HeaderLines, NameCount;
    var c := Begin(p, n);
    assert Call(p, n, data).events + [] == Call(p, n, data).events;
    RunTogether(c, d, data);
    FinishTells(c, d, Run(c, data), Run(d, data));
    assert CutNames([]) == 0;
  }

  lemma {:induction false} FeedTogether(p: Parser, n: nat, d: Core, pieces: seq<string>)
    requires Together(Begin(p, n), d) && p.errno == OK
    requires pieces != [] && NonEmpty(pieces) && Feed(p, n, pieces).ok
    ensures FeedTells(Begin(p, n), d, Feed(p, n, pieces), CutStates(p, n, pieces), Run(d, Concat(pieces)))
    decreases |pieces|
  {
    hide Run, CoreInv, Step, HeaderLines, NameCount, Succeeds, Feed, CutStates, SameLetters, CutNames;
    var c, data, rest := Begin(p, n), pieces[0], pieces[1..];
    FirstCallIs(p, n, pieces);
    if rest == [] {
      assert pieces == [data];
      FeedLast(p, n, d, data);
      OneIsNotCut(p, n, data);
    } else {
      var x, y := Run(c, data), Run(d, data);
      CallKeeps(p, n, data);
      RunTogether(c, d, data);
      RunAppend(d, data, Concat(rest));
      RestOfCall(x.c);
      var m := Finish(x).c.nread;
      NextIsTogether(x.c, y.c, m);
      FeedTogether(x.c.p, m, y.c, rest);
      var f, z := Feed(x.c.p, m, rest), Run(y.c, Concat(rest));
      FinishAppend(y.events, y.used, z);
      LinesAppend(y.events, Finish(z).events);
      NameCountAppend(y.events, Finish(z).events);
      LinesAppend(x.events, Rest(x.c.slice));
      NameCountAppend(x.events, Rest(x.c.slice));
      LinesAppend(Finish(x).events, f.events);
      NameCountAppend(Finish(x).events, f.events);
      CutsBefore(x.c.p.state, CutStates(x.c.p, m, rest));
      OutsideIsSame(x.c, y.c, m);
    }
  }

  lemma OneIsNotCut(p: Parser, n: nat, data: string)
    ensures CutStates(p, n, [data]) == [] && Concat([data]) == data
  {
    assert [data][1..] == [];
    assert Concat([data]) == data + Concat([]);
  }

  lemma NextIsTogether(c: Core, d: Core, m: nat)
    requires Together(c, d) && Going(c) && m == c.nread + (if c.inside then 1 else 0)
    ensures Together(Begin(c.p, m), d)
  {
    hide Inv, SliceFits;
    BeginInv(c.p, m);
  }

  lemma OutsideIsSame(c: Core, d: Core, m: nat)
    requires c.p == d.p
    ensures !InLetters(c.p.state) ==> SameLetters(Begin(c.p, m), d)
  {
  }

  lemma CallKeeps(p: Parser, n: nat, data: string)
    requires Succeeds(p, n, data)
    ensures Run(Begin(p, n), data).c.p.errno == OK
  {
    hide Run;
  }

  lemma CutsBefore(s: State, states: seq<State>)
    ensures CutNames([s] + states) == (if s == Head(HeaderField) then 1 else 0) + CutNames(states)
    ensures (forall x <- [s] + states :: !InLetters(x)) <==> !InLetters(s) && forall x <- states :: !InLetters(x)
  {
    assert ([s] + states)[1..] == states && s in [s] + states && forall x <- states :: x in [s] + states;
  }

  // ---- The headers that are heard ----

  /** The headers after one more callback, as both wrappers keep them. */
  function HeaderHeard(headers: seq<Header>, e: Event): seq<Header> {
    match e
    case Data(Field, bytes) => headers + [Header(bytes, "")]
    case Data(Value, bytes) => WithValue(headers, bytes)
    case _ => headers
  }

  function HeadersHeard(headers: seq<Header>, events: seq<Event>): seq<Header>
    decreases |events|
  {
    if events == [] then headers else HeadersHeard(HeaderHeard(headers, events[0]), events[1..])
  }

  lemma {:induction false} HeadersHeardAppend(headers: seq<Header>, a: seq<Event>, b: seq<Event>)
    ensures HeadersHeard(headers, a + b) == HeadersHeard(HeadersHeard(headers, a), b)
    decreases |a|
  {
    hide HeaderHeard;
    if a == [] {
      assert a + b == b;
    } else {
      assert (a + b)[1..] == a[1..] + b;
      HeadersHeardAppend(HeaderHeard(headers, a[0]), a[1..], b);
    }
  }

  lemma {:induction false} LinesAreHeard(headers: seq<Header>, events: seq<Event>)
    ensures HeadersHeard(headers, HeaderLines(events)) == HeadersHeard(headers, events)
    decreases |events|
  {
    if events != [] {
      var e, rest := events[0], events[1..];
      LinesAreHeard(HeaderHeard(headers, e), rest);
      if IsLine(e) {
        assert HeaderLines(events) == [e] + HeaderLines(rest) && ([e] + HeaderLines(rest))[1..] == HeaderLines(rest);
      } else {
        assert HeaderLines(events) == HeaderLines(rest);
      }
    }
  }

  lemma HeaderIsHeard(before: seq<Header>, h: Header, rest: seq<Event>)
    ensures HeadersHeard(before, [Data(Field, h.name), Data(Value, h.value)] + rest) == HeadersHeard(before + [h], rest)
  {
    var x, y := Data(Field, h.name), Data(Value, h.value);
    assert ([x, y] + rest)[1..] == [y] + rest && ([y] + rest)[1..] == rest;
    var named := before + [Header(h.name, "")];
    assert HeaderHeard(before, x) == named;
    assert named[..|named| - 1] == before;
    assert HeaderHeard(named, y) == before + [h];
  }

  lemma {:induction false} ReportsAreHeard(before: seq<Header>, headers: seq<Header>)
    ensures HeadersHeard(before, Reports(headers)) == before + headers
    decreases |headers|
  {
    if headers == [] {
      assert before + headers == before;
    } else {
      var h, rest := headers[0], headers[1..];
      hide HeadersHeard;
      HeaderIsHeard(before, h, Reports(rest));
      ReportsAreHeard(before + [h], rest);
      assert before + [h] + rest == before + headers;
    }
  }

  lemma {:induction false} NamesAreHeard(headers: seq<Header>, events: seq<Event>)
    ensures |HeadersHeard(headers, events)| == |headers| + NameCount(events)
    decreases |events|
  {
    if events != [] {
      NamesAreHeard(HeaderHeard(headers, events[0]), events[1..]);
    }
  }

  /** The bytes of all values. */
  function ValueSize(headers: seq<Header>): nat {
    if headers == [] then 0
    else ValueSize(headers[..|headers| - 1]) + |headers[|headers| - 1].value|
  }

  lemma {:induction false} ValueSizeAppend(a: seq<Header>, b: seq<Header>)
    ensures ValueSize(a + b) == ValueSize(a) + ValueSize(b)
    decreases |b|
  {
    if b == [] {
      assert a + b == a;
    } else {
      var k := |b| - 1;
      assert (a + b)[..|a + b| - 1] == a + b[..k];
      ValueSizeAppend(a, b[..k]);
    }
  }

  // ---- A cut inside a value ----

  /** `c` marks a value of which `front` was marked before, as it still is in `d`. */
  predicate Behind(c: Core, d: Core, front: string) {
    && Together(c, d) && c.p.state == Head(HeaderValue) && c.slice.Open? && c.slice.kind == Value
    && d.slice == Open(Value, front + c.slice.bytes)
  }

  /** The first of these is a value, and `front` is missing in the one and not in the other. */
  predicate TellsBehind(front: string, e: seq<Event>, f: seq<Event>) {
    && e != [] && f != [] && IsValued(e[0]) && f[0] == Data(Value, front + e[0].bytes) && e[1..] == f[1..]
  }

  lemma StepBehind(c: Core, d: Core, front: string, ch: char)
    requires Behind(c, d, front) && Going(c) && Step(c, ch).c.p.errno == OK
    ensures
      var x, y := Step(c, ch), Step(d, ch);
      y.c.p.errno == OK && Together(x.c, y.c) && x.c.halted == c.halted
      && if x.c.p.state == Head(HeaderValue) then x.events == [] && y.events == [] && Behind(x.c, y.c, front)
         else
           && x.events == [Data(Value, c.slice.bytes)] && y.events == [Data(Value, front + c.slice.bytes)]
           && SameLetters(x.c, y.c)
  {
    StepTogether(c, d, ch);
    ValueOutcome(c.p, c.skipping, ch);
    SkippingTakesMore(c.p, c.skipping, d.skipping, ch);
    hide Transition, Inv, MarksFlow, HeaderLines, NameCount;
    assert front + c.slice.bytes + [ch] == front + (c.slice.bytes + [ch]);
  }

  /** A byte in a value marks it, or hands it over. */
  lemma ValueOutcome(p: Parser, skipping: bool, ch: char)
    requires p.state == Head(HeaderValue)
    ensures
      var o := Transition(p, skipping, ch);
      o.p.errno == OK ==>
        && o.notes == [] && o.mark == NoMark && !o.halt
        && (if o.p.state == p.state then o.flush == Keep
            else o.flush == Before(Value) && o.p.state.Head? && !InLetters(o.p.state))
  {
    hide OnSpecialValue, IsHeaderChar;
    SpecialShape(p, ch);
  }

  lemma FirstLine(e: Event, rest: seq<Event>)
    requires IsLine(e)
    ensures HeaderLines([e] + rest) == [e] + HeaderLines(rest)
  {
    LinesFirst(e, rest);
  }

  /** A run from there is still inside of the value, or has told it and nothing else differs. */
  lemma {:induction false} RunBehind(c: Core, d: Core, front: string, data: string)
    requires Behind(c, d, front) && c.p.errno == OK && Run(c, data).c.p.errno == OK
    ensures
      var x, y := Run(c, data), Run(d, data);
      && y.c.p.errno == OK && Together(x.c, y.c)
      && (|| (x.events == [] && y.events == [] && Behind(x.c, y.c, front) && x.c.halted == c.halted)
          || (TellsBehind(front, HeaderLines(x.events), HeaderLines(y.events)) && SameLetters(x.c, y.c)))
    decreases |data|
  {
    hide Step, Inv, SliceFits, HeaderLines, NameCount, SameLetters;
    if data != "" && Going(c) {
      var ch, rest := data[0], data[1..];
      var x, y := Step(c, ch), Step(d, ch);
      RunStopped(x.c, rest);
      StepBehind(c, d, front, ch);
      if x.c.p.state == Head(HeaderValue) {
        RunBehind(x.c, y.c, front, rest);
        assert [] + Run(x.c, rest).events == Run(x.c, rest).events;
        assert [] + Run(y.c, rest).events == Run(y.c, rest).events;
      } else {
        RunTogether(x.c, y.c, rest);
        FirstLine(x.events[0], Run(x.c, rest).events);
        FirstLine(y.events[0], Run(y.c, rest).events);
      }
    }
  }

  /** So does a call from there. */
  lemma FinishBehind(c: Core, d: Core, front: string, data: string)
    requires Behind(c, d, front) && c.p.errno == OK && !c.halted && Run(c, data).c.p.errno == OK
    ensures
      TellsBehind(front, HeaderLines(Finish(Run(c, data)).events), HeaderLines(Finish(Run(d, data)).events))
  {
    hide Run, Inv, HeaderLines, NameCount;
    RunBehind(c, d, front, data);
    var x, y := Run(c, data), Run(d, data);
    if x.events == [] && y.events == [] && Behind(x.c, y.c, front) && x.c.halted == c.halted {
      ValueIsLeft(x.c.slice);
      ValueIsLeft(y.c.slice);
      assert [] + Rest(x.c.slice) == Rest(x.c.slice) && [] + Rest(y.c.slice) == Rest(y.c.slice);
    } else if Going(x.c) {
      RestOfCall(x.c);
      RestOfCall(y.c);
      LinesAppend(x.events, Rest(x.c.slice));
      LinesAppend(y.events, Rest(y.c.slice));
      TellsMoreBehind(front, HeaderLines(x.events), HeaderLines(y.events), HeaderLines(Rest(x.c.slice)));
    }
  }

  lemma ValueIsLeft(slice: Slice)
    requires slice.Open? && slice.kind == Value
    ensures HeaderLines(Rest(slice)) == [Data(Value, slice.bytes)]
  {
    LinesOfOne(Data(Value, slice.bytes));
  }

  lemma TellsMoreBehind(front: string, e: seq<Event>, f: seq<Event>, more: seq<Event>)
    requires TellsBehind(front, e, f)
    ensures TellsBehind(front, e + more, f + more)
  {
    assert (e + more)[1..] == e[1..] + more && (f + more)[1..] == f[1..] + more;
  }

  lemma {:induction false} SliceIsLong(c: Core, data: string)
    requires CoreInv(c) && Going(c) && data != "" && Run(c, data).c.p.errno == OK
    ensures Run(c, data).c.slice.Open? ==> Run(c, data).c.slice.bytes != ""
    decreases |data|
  {
    hide Transition, Inv;
    var d := Step(c, data[0]).c;
    RunStopped(d, data[1..]);
    StepInv(c, data[0]);
    if data[1..] != "" && Going(d) {
      SliceIsLong(d, data[1..]);
    }
  }

  // ---- What becomes of the headers ----

  lemma NamedIsHeard(headers: seq<Header>, events: seq<Event>)
    requires headers != [] || SomeNamed(events)
    ensures HeadersHeard(headers, events) != []
  {
    NamesAreHeard(headers, events);
    if SomeNamed(events) {
      SomeIsCounted(events);
    }
  }

  lemma {:induction false} SomeIsCounted(events: seq<Event>)
    requires SomeNamed(events)
    ensures NameCount(events) > 0
    decreases |events|
  {
    var e :| e in events && IsNamed(e);
    if events[0] != e {
      assert e in events[1..];
      SomeIsCounted(events[1..]);
    }
  }

  lemma {:induction false} FrontStays(front: seq<Header>, last: seq<Header>, events: seq<Event>)
    requires last != []
    ensures HeadersHeard(front + last, events) == front + HeadersHeard(last, events)
    decreases |events|
  {
    if events != [] {
      var e := events[0];
      assert HeaderHeard(front + last, e) == front + HeaderHeard(last, e) by {
        if IsValued(e) {
          assert (front + last)[..|front + last| - 1] == front + last[..|last| - 1];
        }
      }
      FrontStays(front, HeaderHeard(last, e), events[1..]);
    }
  }

  /** What comes before a name does not change any more. */
  lemma NameFreezes(headers: seq<Header>, events: seq<Event>)
    requires events == [] || IsNamed(events[0])
    ensures HeadersHeard(headers, events) == headers + HeadersHeard([], events)
  {
    if events == [] {
      assert headers + [] == headers;
    } else {
      var h := [Header(events[0].bytes, "")];
      assert [] + h == h;
      FrontStays(headers, h, events[1..]);
    }
  }

  lemma {:induction false} AllAreLines(events: seq<Event>)
    ensures forall e <- HeaderLines(events) :: IsLine(e)
    decreases |events|
  {
    hide IsLine;
    if events != [] {
      AllAreLines(events[1..]);
    }
  }

  lemma HearValue(headers: seq<Header>, v: string, rest: seq<Event>)
    ensures HeadersHeard(headers, [Data(Value, v)] + rest) == HeadersHeard(WithValue(headers, v), rest)
  {
    assert ([Data(Value, v)] + rest)[1..] == rest;
  }

  lemma ValueTwice(headers: seq<Header>, v: string, w: string)
    ensures WithValue(WithValue(headers, v), w) == WithValue(headers, w)
    ensures headers != [] ==>
      && |WithValue(headers, v)| == |headers|
      && ValueSize(WithValue(headers, v)) == ValueSize(headers[..|headers| - 1]) + |v|
  {
    if headers != [] {
      var x := WithValue(headers, v);
      assert x[..|x| - 1] == headers[..|headers| - 1];
    }
  }

  /** The next line belongs to the same header, and overwrites what the one before has left. */
  predicate IsOverwritten(lines: seq<Event>) {
    |lines| > 1 && IsValued(lines[1])
  }

  /** The lists are the same only if `same`; if not, the first has more headers or less of their values. */
  predicate IsWorse(a: seq<Header>, b: seq<Header>, same: bool) {
    && |a| >= |b| && (same ==> a == b)
    && (|a| == |b| ==> ValueSize(a) <= ValueSize(b) && (ValueSize(a) == ValueSize(b) ==> same))
  }

  lemma WorseTwice(a: seq<Header>, b: seq<Header>, c: seq<Header>, s: bool, t: bool)
    requires IsWorse(a, b, s) && IsWorse(b, c, t)
    ensures IsWorse(a, c, s && t)
  {
  }

  /** A value in two pieces, `front` and `e[0]`, against the whole of it. */
  lemma CutValueIsHeard(headers: seq<Header>, front: string, e: seq<Event>, f: seq<Event>)
    requires TellsBehind(front, e, f) && headers != [] && front != "" && forall x <- e :: IsLine(x)
    ensures IsWorse(HeadersHeard(WithValue(headers, front), e), HeadersHeard(headers, f), IsOverwritten(e))
  {
    hide WithValue, ValueSize, HeadersHeard;
    var v, rest := e[0].bytes, e[1..];
    assert e == [Data(Value, v)] + rest && f == [Data(Value, front + v)] + rest;
    HearValue(WithValue(headers, front), v, rest);
    HearValue(headers, front + v, rest);
    ValueTwice(headers, front, v);
    ValueTwice(headers, v, v);
    ValueTwice(headers, front + v, v);
    var b, c := WithValue(headers, v), WithValue(headers, front + v);
    if IsOverwritten(e) {
      var w := rest[0].bytes;
      assert rest == [Data(Value, w)] + rest[1..];
      HearValue(b, w, rest[1..]);
      HearValue(c, w, rest[1..]);
      ValueTwice(headers, v, w);
      ValueTwice(headers, front + v, w);
    } else {
      assert rest != [] ==> rest[0] == e[1] && IsLine(e[1]);
      NameFreezes(b, rest);
      NameFreezes(c, rest);
      ValueSizeAppend(b, HeadersHeard([], rest));
      ValueSizeAppend(c, HeadersHeard([], rest));
    }
  }

  // ---- One cut ----

  /** A cut behind which a value goes on, in front of `rest`: the next line of the header makes up for it. */
  predicate MakesUp(q: Parser, m: nat, rest: string) {
    IsOverwritten(HeaderLines(Call(q, m, rest).events))
  }

  /** A cut that does no harm: outside names and values, or in a value that is overwritten anyway. */
  predicate CutIsHarmless(q: Parser, m: nat, rest: string) {
    q.state != Head(HeaderField) && (q.state == Head(HeaderValue) ==> MakesUp(q, m, rest))
  }

  lemma WholeCallIs(p: Parser, n: nat, a: string, b: string)
    ensures
      var x := Run(Begin(p, n), a);
      Call(p, n, a + b).events == x.events + Finish(Run(x.c, b)).events
  {
    hide Run, Finish;
    RunAppend(Begin(p, n), a, b);
    var x := Run(Begin(p, n), a);
    FinishAppend(x.events, x.used, Run(x.c, b));
  }

  /** Two calls that both succeed. */
  predicate IsCut(p: Parser, n: nat, a: string, b: string) {
    && Ready(p, n) && a != "" && Succeeds(p, n, a) && !Call(p, n, a).c.halted
    && Succeeds(Call(p, n, a).c.p, Call(p, n, a).c.nread, b)
  }

  lemma SelfTogether(c: Core, m: nat)
    requires CoreInv(c) && Going(c) && m == c.nread + (if c.inside then 1 else 0)
    ensures Together(Begin(c.p, m), c)
  {
    hide Inv, SliceFits;
    BeginInv(c.p, m);
  }

  /** The call behind a cut, against the rest of the whole call. */
  lemma AroundCut(p: Parser, n: nat, a: string, b: string)
    requires IsCut(p, n, a, b)
    ensures
      var r, x := Run(Begin(p, n), a), Call(p, n, a);
      var q, m := x.c.p, x.c.nread;
      var y, z := Call(q, m, b), Finish(Run(r.c, b));
      && CoreInv(r.c) && Going(r.c) && q == r.c.p && Together(Begin(q, m), r.c) && Run(Begin(q, m), b).c.p.errno == OK
      && x.events == r.events + Rest(r.c.slice) && Call(p, n, a + b).events == r.events + z.events
      && NameCount(y.events) == NameCount(z.events)
      && (!InLetters(q.state) ==> HeaderLines(y.events) == HeaderLines(z.events))
  {
    hide Run, CoreInv, HeaderLines, NameCount, SameLetters, InLetters;
    var r, x := Run(Begin(p, n), a), Call(p, n, a);
    var q, m := x.c.p, x.c.nread;
    BeginInv(p, n);
    CallKeeps(p, n, a);
    CallKeeps(q, m, b);
    RunInv(Begin(p, n), a);
    WholeCallIs(p, n, a, b);
    SelfTogether(r.c, m);
    RunTogether(Begin(q, m), r.c, b);
    FinishTells(Begin(q, m), r.c, Run(Begin(q, m), b), Run(r.c, b));
    OutsideIsSame(r.c, r.c, m);
  }

  lemma ValueIsCut(p: Parser, n: nat, a: string, b: string, before: seq<Header>)
    requires IsCut(p, n, a, b) && (ValuePending(p) ==> before != []) && Call(p, n, a).c.p.state == Head(HeaderValue)
    ensures
      var q, m := Call(p, n, a).c.p, Call(p, n, a).c.nread;
      IsWorse(HeadersHeard(HeadersHeard(before, Call(p, n, a).events), Call(q, m, b).events),
              HeadersHeard(before, Call(p, n, a + b).events), MakesUp(q, m, b))
  {
    hide Run, Inv, HeaderLines, NameCount, HeadersHeard, WithValue, IsWorse, IsOverwritten, ValuePending, TellsBehind;
    AroundCut(p, n, a, b);
    var r, x := Run(Begin(p, n), a), Call(p, n, a);
    var q, m := x.c.p, x.c.nread;
    var y, z := Call(q, m, b), Finish(Run(r.c, b));
    var front := r.c.slice.bytes;
    BeginInv(p, n);
    SliceIsLong(Begin(p, n), a);
    assert front + "" == front;
    FinishBehind(Begin(q, m), r.c, front, b);
    var h := HeadersHeard(before, r.events);
    HeadersHeardAppend(before, r.events, Rest(r.c.slice));
    HeadersHeardAppend(before, r.events, z.events);
    HearOneValue(h, front);
    CallIsReady(p, n, a, before);
    PendingValue(q);
    ValueOfNone(front);
    LinesAreHeard(WithValue(h, front), y.events);
    LinesAreHeard(h, z.events);
    AllAreLines(y.events);
    CutValueIsHeard(h, front, HeaderLines(y.events), HeaderLines(z.events));
  }

  lemma HearOneValue(headers: seq<Header>, v: string)
    ensures HeadersHeard(headers, [Data(Value, v)]) == WithValue(headers, v)
  {
    assert [Data(Value, v)][1..] == [];
  }

  lemma ValueOfNone(v: string)
    ensures WithValue([], v) == []
  {
  }

  lemma PendingValue(p: Parser)
    requires p.state == Head(HeaderValue)
    ensures ValuePending(p)
  {
  }

  lemma NameIsCut(p: Parser, n: nat, a: string, b: string, before: seq<Header>)
    requires IsCut(p, n, a, b) && Call(p, n, a).c.p.state == Head(HeaderField)
    ensures
      var q, m := Call(p, n, a).c.p, Call(p, n, a).c.nread;
      |HeadersHeard(HeadersHeard(before, Call(p, n, a).events), Call(q, m, b).events)|
      == |HeadersHeard(before, Call(p, n, a + b).events)| + 1
  {
    AroundCut(p, n, a, b);
    var r, x := Run(Begin(p, n), a), Call(p, n, a);
    var y, z := Call(x.c.p, x.c.nread, b), Finish(Run(r.c, b));
    RestOfCall(r.c);
    hide Run, Finish, Inv, NameCount, HeadersHeard, HeaderLines, Succeeds, Ready;
    NamesAreHeard(before, x.events);
    NamesAreHeard(HeadersHeard(before, x.events), y.events);
    NamesAreHeard(before, Call(p, n, a + b).events);
    NameCountAppend(r.events, Rest(r.c.slice));
    NameCountAppend(r.events, z.events);
  }

  lemma OutsideIsCut(p: Parser, n: nat, a: string, b: string, before: seq<Header>)
    requires IsCut(p, n, a, b) && !InLetters(Call(p, n, a).c.p.state)
    ensures
      var q, m := Call(p, n, a).c.p, Call(p, n, a).c.nread;
      HeadersHeard(HeadersHeard(before, Call(p, n, a).events), Call(q, m, b).events)
      == HeadersHeard(before, Call(p, n, a + b).events)
  {
    AroundCut(p, n, a, b);
    var r, x := Run(Begin(p, n), a), Call(p, n, a);
    var y, z := Call(x.c.p, x.c.nread, b), Finish(Run(r.c, b));
    RestOfCall(r.c);
    hide Run, Finish, Inv, NameCount, HeadersHeard, HeaderLines, Succeeds, Ready;
    var h := HeadersHeard(before, r.events);
    HeadersHeardAppend(before, r.events, Rest(r.c.slice));
    HeadersHeardAppend(before, r.events, z.events);
    LinesAreHeard(h, Rest(r.c.slice));
    HearNothing(h);
    LinesAreHeard(h, y.events);
    LinesAreHeard(h, z.events);
  }

  lemma HearNothing(headers: seq<Header>)
    ensures HeadersHeard(headers, []) == headers
  {
  }

  /** What one cut makes of the headers. */
  lemma OneCut(p: Parser, n: nat, a: string, b: string, before: seq<Header>)
    requires IsCut(p, n, a, b) && (ValuePending(p) ==> before != [])
    ensures
      var q, m := Call(p, n, a).c.p, Call(p, n, a).c.nread;
      IsWorse(HeadersHeard(HeadersHeard(before, Call(p, n, a).events), Call(q, m, b).events),
              HeadersHeard(before, Call(p, n, a + b).events), CutIsHarmless(q, m, b))
  {
    hide IsCut, HeadersHeard, ValuePending, Call, ValueSize, MakesUp;
    var q := Call(p, n, a).c.p;
    LettersAre(q.state);
    if q.state == Head(HeaderValue) {
      ValueIsCut(p, n, a, b, before);
    } else if q.state == Head(HeaderField) {
      NameIsCut(p, n, a, b, before);
    } else {
      OutsideIsCut(p, n, a, b, before);
    }
  }

  lemma LettersAre(s: State)
    ensures InLetters(s) <==> s == Head(HeaderField) || s == Head(HeaderValue)
  {
  }

  // ---- All cuts ----

  lemma FirstCallIs(p: Parser, n: nat, pieces: seq<string>)
    requires pieces != [] && NonEmpty(pieces) && Feed(p, n, pieces).ok
    ensures
      var x := Call(p, n, pieces[0]);
      && pieces[0] != "" && Succeeds(p, n, pieces[0]) && NonEmpty(pieces[1..])
      && (|pieces| == 1 ==> Feed(p, n, pieces).events == x.events)
      && (|pieces| > 1 ==>
            && !x.c.halted && Feed(x.c.p, x.c.nread, pieces[1..]).ok
            && Feed(p, n, pieces).events == x.events + Feed(x.c.p, x.c.nread, pieces[1..]).events
            && CutStates(p, n, pieces) == [x.c.p.state] + CutStates(x.c.p, x.c.nread, pieces[1..]))
  {
    hide Run, Finish;
    assert forall i | 0 <= i < |pieces| - 1 :: pieces[1..][i] == pieces[i + 1];
    if |pieces| == 1 {
      var x := Call(p, n, pieces[0]);
      assert x.events + [] == x.events;
    }
  }

  lemma CallIsReady(p: Parser, n: nat, data: string, headers: seq<Header>)
    requires Ready(p, n) && Succeeds(p, n, data) && (ValuePending(p) ==> headers != [])
    ensures
      var x := Call(p, n, data);
      Ready(x.c.p, x.c.nread) && (ValuePending(x.c.p) ==> HeadersHeard(headers, x.events) != [])
  {
    hide Run, Inv, ValuePending, HeaderHeard;
    BeginInv(p, n);
    RunInv(Begin(p, n), data);
    var x := Call(p, n, data);
    CallTellsInOrder(p, n, data, headers != [], x.events);
    if ValuePending(x.c.p) {
      NamedIsHeard(headers, x.events);
    }
  }

  /** Every cut, with what is behind it taken in one call. */
  predicate CutsAreHarmless(p: Parser, n: nat, pieces: seq<string>)
    decreases |pieces|
  {
    |pieces| <= 1 ||
    var r := Call(p, n, pieces[0]);
    && CutIsHarmless(r.c.p, r.c.nread, Concat(pieces[1..]))
    && CutsAreHarmless(r.c.p, r.c.nread, pieces[1..])
  }

  lemma {:induction false} CutsAreHeard(p: Parser, n: nat, pieces: seq<string>, before: seq<Header>)
    requires Ready(p, n) && pieces != [] && NonEmpty(pieces) && Feed(p, n, pieces).ok
    requires ValuePending(p) ==> before != []
    ensures
      IsWorse(HeadersHeard(before, Feed(p, n, pieces).events), HeadersHeard(before, Call(p, n, Concat(pieces)).events),
              CutsAreHarmless(p, n, pieces))
    decreases |pieces|
  {
    hide Run, Finish, Ready, ValuePending, HeadersHeard, ValueSize, IsWorse, CutIsHarmless, Feed, CutStates;
    var a, rest := pieces[0], pieces[1..];
    FirstCallIs(p, n, pieces);
    if rest == [] {
      OneIsWhole(p, n, pieces);
      NothingIsWorse(HeadersHeard(before, Feed(p, n, pieces).events));
    } else {
      var x := Call(p, n, a);
      var q, m, b := x.c.p, x.c.nread, Concat(rest);
      CallIsReady(p, n, a, before);
      OneCallDoesAll(q, m, rest);
      var after := HeadersHeard(before, x.events);
      CutsAreHeard(q, m, rest, after);
      OneCut(p, n, a, b, before);
      HeadersHeardAppend(before, x.events, Feed(q, m, rest).events);
      WorseTwice(HeadersHeard(after, Feed(q, m, rest).events), HeadersHeard(after, Call(q, m, b).events),
                 HeadersHeard(before, Call(p, n, a + b).events), CutsAreHarmless(q, m, rest), CutIsHarmless(q, m, b));
    }
  }

  lemma OneIsWhole(p: Parser, n: nat, pieces: seq<string>)
    requires |pieces| == 1
    ensures Concat(pieces) == pieces[0] && CutsAreHarmless(p, n, pieces)
  {
    assert Concat(pieces) == pieces[0] + Concat(pieces[1..]);
  }

  lemma NothingIsWorse(headers: seq<Header>)
    ensures IsWorse(headers, headers, true)
  {
  }

  /**
    The headers that are rebuilt are those of one call exactly if every cut is harmless: it falls
    outside names and values, or into a value that the next line of its header overwrites anyway. A
    cut name becomes two headers, and of a cut value only the rest is kept.
   */
  lemma HeadersSeeCuts(p: Parser, n: nat, pieces: seq<string>, before: seq<Header>)
    requires Ready(p, n) && pieces != [] && NonEmpty(pieces) && Feed(p, n, pieces).ok
    requires ValuePending(p) ==> before != []
    ensures
      HeadersHeard(before, Feed(p, n, pieces).events) == HeadersHeard(before, Call(p, n, Concat(pieces)).events)
      <==> CutsAreHarmless(p, n, pieces)
  {
    hide Ready, ValuePending, HeadersHeard, ValueSize, Feed, Call, CutsAreHarmless;
    CutsAreHeard(p, n, pieces, before);
  }

  /** Where no cut falls inside a name or a value, names and values are told as in one call. */
  lemma LinesOutsideCuts(p: Parser, n: nat, pieces: seq<string>)
    requires Ready(p, n) && pieces != [] && NonEmpty(pieces) && Feed(p, n, pieces).ok
    ensures CutsOutside(p, n, pieces) ==>
      HeaderLines(Feed(p, n, pieces).events) == HeaderLines(Call(p, n, Concat(pieces)).events)
    ensures NameCount(Feed(p, n, pieces).events)
      == NameCount(Call(p, n, Concat(pieces)).events) + CutNames(CutStates(p, n, pieces))
  {
    hide Run, Inv, HeaderLines, NameCount, Feed;
    BeginInv(p, n);
    FeedTogether(p, n, Begin(p, n), pieces);
  }

  // ---- Headers with one line each ----

  /** No header has two lines. */
  predicate HasNoSecondLine(lines: seq<Event>) {
    forall i | 0 < i < |lines| :: !(IsValued(lines[i - 1]) && IsValued(lines[i]))
  }

  lemma {:induction false} ReportsHaveNoSecondLine(headers: seq<Header>)
    ensures HasNoSecondLine(Reports(headers))
    ensures headers != [] ==> IsNamed(Reports(headers)[0])
    decreases |headers|
  {
    if headers != [] {
      ReportsHaveNoSecondLine(headers[1..]);
    }
  }

  lemma NotOverwritten(front: string, e: seq<Event>, before: seq<Event>, f: seq<Event>)
    requires TellsBehind(front, e, f) && HasNoSecondLine(before + f)
    ensures !IsOverwritten(e)
  {
    if |e| > 1 {
      var k := |before|;
      assert (before + f)[k] == f[0] && (before + f)[k + 1] == f[1] == f[1..][0] && e[1] == e[1..][0];
    }
  }

  /** Then no cut inside a value is harmless. */
  lemma {:induction false} HarmlessIsOutside(p: Parser, n: nat, d: Core, pieces: seq<string>)
    requires Together(Begin(p, n), d) && p.errno == OK && Ready(p, n)
    requires pieces != [] && NonEmpty(pieces) && Feed(p, n, pieces).ok
    requires HasNoSecondLine(HeaderLines(Finish(Run(d, Concat(pieces))).events))
    ensures CutsAreHarmless(p, n, pieces) <==> CutsOutside(p, n, pieces)
    decreases |pieces|
  {
    hide Run, Inv, SliceFits, Step, HeaderLines, NameCount, Succeeds, Feed, CutStates, SameLetters, HasNoSecondLine,
         TellsBehind, IsOverwritten;
    var c, a, rest := Begin(p, n), pieces[0], pieces[1..];
    FirstCallIs(p, n, pieces);
    if rest == [] {
      assert pieces == [a];
      OneIsNotCut(p, n, a);
    } else {
      var x, y := Run(c, a), Run(d, a);
      CallKeeps(p, n, a);
      RunTogether(c, d, a);
      var q, m, b := x.c.p, Finish(x).c.nread, Concat(rest);
      RunAppend(d, a, b);
      var z := Run(y.c, b);
      FinishAppend(y.events, y.used, z);
      LinesAppend(y.events, Finish(z).events);
      var front, back := HeaderLines(y.events), HeaderLines(Finish(z).events);
      NextIsTogether(x.c, y.c, m);
      CallIsReady(p, n, a, [Header("", "")]);
      SecondLineBehind(front, back);
      HarmlessIsOutside(q, m, y.c, rest);
      LettersAre(q.state);
      CutsBefore(q.state, CutStates(q, m, rest));
      if q.state == Head(HeaderValue) {
        OneCallDoesAll(q, m, rest);
        CallKeeps(q, m, b);
        assert y.c.slice.Open? && y.c.slice.kind == Value by { ValueIsMarked(y.c); }
        var s := y.c.slice.bytes;
        assert s + "" == s;
        FinishBehind(Begin(q, m), y.c, s, b);
        NotOverwritten(s, HeaderLines(Call(q, m, b).events), front, back);
      }
    }
  }

  lemma ValueIsMarked(c: Core)
    requires CoreInv(c) && c.p.state == Head(HeaderValue)
    ensures c.slice.Open? && c.slice.kind == Value
  {
  }

  lemma SecondLineBehind(front: seq<Event>, back: seq<Event>)
    requires HasNoSecondLine(front + back)
    ensures HasNoSecondLine(back)
  {
    forall i | 0 < i < |back|
      ensures !(IsValued(back[i - 1]) && IsValued(back[i]))
    {
      assert (front + back)[|front| + i - 1] == back[i - 1] && (front + back)[|front| + i] == back[i];
    }
  }

  /** Headers that one call tells line by line are rebuilt exactly if no cut falls inside a name or a value. */
  lemma HeadersArrive(p: Parser, n: nat, pieces: seq<string>, before: seq<Header>, headers: seq<Header>)
    requires Ready(p, n) && pieces != [] && NonEmpty(pieces) && Feed(p, n, pieces).ok
    requires ValuePending(p) ==> before != []
    requires HeaderLines(Call(p, n, Concat(pieces)).events) == Reports(headers)
    ensures HeadersHeard(before, Feed(p, n, pieces).events) == before + headers <==> CutsOutside(p, n, pieces)
  {
    hide Run, Inv, SliceFits, Feed, ValuePending, HeaderLines, NameCount, HeadersHeard, Reports, CutStates,
         CutsAreHarmless, HasNoSecondLine;
    HeadersSeeCuts(p, n, pieces, before);
    ReportsAreHeard(before, headers);
    LinesAreHeard(before, Call(p, n, Concat(pieces)).events);
    ReportsHaveNoSecondLine(headers);
    BeginInv(p, n);
    HarmlessIsOutside(p, n, Begin(p, n), pieces);
  }
}
