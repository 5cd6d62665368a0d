/** The order of the header callbacks: a value is never reported before a name. */
module Callbacks {
  import opened Chars
  import opened ParserTypes
  import opened Transitions
  import opened Machine
  import opened Invariant
  import opened Headers

  predicate IsNamed(e: Event) {
    e.Data? && e.kind == Field
  }

  predicate IsValued(e: Event) {
    e.Data? && e.kind == Value
  }

  /** Every value comes behind a name; `known` says that there has been one before. */
  predicate NamesFirst(known: bool, events: seq<Event>) {
    forall i | 0 <= i < |events| && IsValued(events[i]) ::
      known || exists j | 0 <= j < i :: IsNamed(events[j])
  }

  predicate SomeNamed(events: seq<Event>) {
    exists e :: e in events && IsNamed(e)
  }

  /** The states in which a value may be reported: its name has been. */
  predicate ValuePending(p: Parser) {
    && p.state.Head?
    && var s := p.state.head;
       || s.HeaderValueDiscardWs? || s.HeaderValueDiscardWsAlmostDone? || s.HeaderValueDiscardLws?
       || s.HeaderValueStart? || s.HeaderValue? || s.HeaderAlmostDone? || s.HeaderValueLws?
  }

  /** What a transition says about names and values. */
  predicate TellsInOrder(p: Parser, o: Outcome) {
    && (o.flush == Before(Value) || o.flush == Through(Value) ==> ValuePending(p))
    && (forall e <- o.notes :: IsValued(e) ==> ValuePending(p))
    && (o.p.errno == OK && ValuePending(o.p) ==> ValuePending(p) || (o.flush == Before(Field) && p.state == Head(HeaderField)))
  }

  lemma EndOfLineStays(p: Parser)
    ensures EndOfLine(p) == p.(flags := EndOfLine(p).flags)
  {
  }

  lemma HeadersEndTellsInOrder(p: Parser, ch: char, before: seq<Event>)
    requires p.state.Head? && forall e <- before :: IsValued(e) ==> ValuePending(p)
    ensures TellsInOrder(p, OnHeadersAlmostDone(p, ch, before)) && TellsInOrder(p, OnHeadersDone(p, ch, before))
  {
    hide ShouldKeepAlive, HasBody, NeedsEof;
  }

  lemma FieldStartTellsInOrder(p: Parser, ch: char, before: seq<Event>)
    requires p.state.Head? && forall e <- before :: IsValued(e) ==> ValuePending(p)
    ensures TellsInOrder(p, OnFieldStart(p, ch, before)) && TellsInOrder(p, OnHeadersAlmostDone(p, ch, before))
    ensures TellsInOrder(p, OnHeadersDone(p, ch, before))
  {
    HeadersEndTellsInOrder(p, ch, before);
    hide OnHeadersAlmostDone, OnHeadersDone, IsToken, TokenOf;
  }

  lemma HeadTellsInOrder(p: Parser, s: HeadState, ch: char)
    requires p.state == Head(s) && !s.HeaderValue?
    ensures TellsInOrder(p, OnHead(p, s, ch))
  {
    hide OnFieldStart, OnHeadersAlmostDone, OnHeadersDone, IsToken, FieldLetter, EndOfLine, TokenStart, Lower;
    EndOfLineStays(p);
    FieldStartTellsInOrder(p, ch, []);
    FieldStartTellsInOrder(EndOfLine(p), ch, []);
    if s.HeaderValueDiscardLws? {
      FieldStartTellsInOrder(EndOfLine(p), ch, [Data(Value, "")]);
    }
  }

  lemma ValueTellsInOrder(p: Parser, skipping: bool, ch: char)
    requires p.state == Head(HeaderValue)
    ensures TellsInOrder(p, OnValue(p, skipping, ch))
  {
    hide IsHeaderChar;
  }

  lemma LineTellsInOrder(p: Parser, s: LineState, ch: char)
    requires p.state == Line(s)
    ensures TellsInOrder(p, OnLine(p, s, ch))
  {
    hide ParseUrlChar, NextGuess, MethodName;
  }

  lemma IdleTellsInOrder(p: Parser, s: IdleState, ch: char)
    requires p.state == Idle(s)
    ensures TellsInOrder(p, OnIdle(p, s, ch))
  {
    hide FirstGuess;
  }

  lemma ContentTellsInOrder(p: Parser, s: ContentState, ch: char)
    requires p.state == Content(s)
    ensures TellsInOrder(p, OnContent(p, s, ch))
  {
    hide ShouldKeepAlive;
  }

  lemma ChunkTellsInOrder(p: Parser, s: ChunkState, ch: char)
    requires p.state == Chunk(s)
    ensures TellsInOrder(p, OnChunk(p, s, ch))
  {
    hide Unhex;
  }

  lemma TransitionTellsInOrder(p: Parser, skipping: bool, ch: char)
    ensures TellsInOrder(p, Transition(p, skipping, ch))
  {
    hide OnIdle, OnLine, OnHead, OnValue, OnContent, OnChunk, TellsInOrder;
    match p.state
    case Head(s) => if s.HeaderValue? { ValueTellsInOrder(p, skipping, ch); } else { HeadTellsInOrder(p, s, ch); }
    case Line(s) => LineTellsInOrder(p, s, ch);
    case Idle(s) => IdleTellsInOrder(p, s, ch);
    case Content(s) => ContentTellsInOrder(p, s, ch);
    case Chunk(s) => ChunkTellsInOrder(p, s, ch);
  }

  lemma StepTellsInOrder(c: Core, ch: char)
    requires CoreInv(c)
    ensures forall e <- Step(c, ch).events :: IsValued(e) ==> ValuePending(c.p)
    ensures
      var o := Step(c, ch);
      o.c.p.errno == OK && ValuePending(o.c.p) ==> ValuePending(c.p) || SomeNamed(o.events)
  {
    hide Transition, Inv;
    var o := Transition(c.p, c.skipping, ch);
    TransitionTellsInOrder(c.p, c.skipping, ch);
    FieldIsMarked(c);
    var (slice, events) := Hand(c.slice, o.flush, ch);
    if o.flush == Before(Field) && c.p.state == Head(HeaderField) {
      assert events == [Data(Field, c.slice.bytes)];
      assert Data(Field, c.slice.bytes) in Step(c, ch).events;
    }
  }

  lemma FieldIsMarked(c: Core)
    requires CoreInv(c)
    ensures c.p.state == Head(HeaderField) ==> c.slice.Open? && c.slice.kind == Field
  {
  }

  lemma NamesFirstAppend(known: bool, a: seq<Event>, b: seq<Event>)
    requires NamesFirst(known, a) && NamesFirst(known || SomeNamed(a), b)
    ensures NamesFirst(known, a + b)
  {
    forall i | 0 <= i < |a + b| && IsValued((a + b)[i])
      ensures known || exists j | 0 <= j < i :: IsNamed((a + b)[j])
    {
      if !known {
        if i < |a| {
          var j :| 0 <= j < i && IsNamed(a[j]);
          assert IsNamed((a + b)[j]);
        } else if SomeNamed(a) {
          var j :| 0 <= j < |a| && IsNamed(a[j]);
          assert IsNamed((a + b)[j]);
        } else {
          var j :| 0 <= j < i - |a| && IsNamed(b[j]);
          assert IsNamed((a + b)[|a| + j]);
        }
      }
    }
  }

  /** A whole run tells names before values, and a value is pending only behind a name. */
  lemma {:induction false} RunTellsInOrder(c: Core, data: string, known: bool)
    requires CoreInv(c) && (ValuePending(c.p) ==> known)
    ensures
      var r := Run(c, data);
      && NamesFirst(known, r.events)
      && (r.c.p.errno == OK && ValuePending(r.c.p) ==> known || SomeNamed(r.events))
    decreases |data|
  {
    hide Step, CoreInv, ValuePending;
    if data != [] && Going(c) {
      var o := Step(c, data[0]);
      StepTellsInOrder(c, data[0]);
      StepInv(c, data[0]);
      var r := Run(o.c, data[1..]);
      if o.c.p.errno == OK {
        RunTellsInOrder(o.c, data[1..], known || SomeNamed(o.events));
      } else {
        RunStopped(o.c, data[1..]);
      }
      NamesFirstAppend(known, o.events, r.events);
      SomeNamedAppend(o.events, r.events);
    }
  }

  lemma SomeNamedAppend(a: seq<Event>, b: seq<Event>)
    ensures SomeNamed(a + b) <==> SomeNamed(a) || SomeNamed(b)
  {
  }

  /** So does a call, whatever it is cut short by. */
  lemma CallTellsInOrder(p: Parser, n: nat, data: string, known: bool, calls: seq<Event>)
    requires Inv(p) && (p.state == Chunk(ChunkSizeStart) ==> n == 0) && (ValuePending(p) ==> known)
    requires calls <= Call(p, n, data).events
    ensures NamesFirst(known, calls)
    ensures
      var r := Call(p, n, data);
      calls == r.events && r.c.p.errno == OK && ValuePending(r.c.p) ==> known || SomeNamed(calls)
  {
    hide Run, Inv, ValuePending;
    var c := Begin(p, n);
    BeginInv(p, n);
    RunTellsInOrder(c, data, known);
    var r := Run(c, data);
    if Going(r.c) {
      RunInv(c, data);
      RestTells(r.c);
      NamesFirstAppend(known, r.events, Rest(r.c.slice));
      SomeNamedAppend(r.events, Rest(r.c.slice));
    }
    NamesFirstPrefix(known, calls, Call(p, n, data).events);
  }

  lemma RestTells(c: Core)
    requires CoreInv(c)
    ensures forall e <- Rest(c.slice) :: IsValued(e) ==> ValuePending(c.p)
  {
  }

  lemma NamesFirstPrefix(known: bool, a: seq<Event>, b: seq<Event>)
    requires a <= b && NamesFirst(known, b)
    ensures NamesFirst(known, a)
  {
    forall i | 0 <= i < |a| && IsValued(a[i])
      ensures known || exists j | 0 <= j < i :: IsNamed(a[j])
    {
      assert IsValued(b[i]);
      if !known {
        var j :| 0 <= j < i && IsNamed(b[j]);
        assert IsNamed(a[j]);
      }
    }
  }

  lemma NamedBefore(known: bool, calls: seq<Event>, i: nat)
    requires NamesFirst(known, calls) && i < |calls| && IsValued(calls[i])
    ensures known || SomeNamed(calls[..i])
  {
    if !known {
      var j :| 0 <= j < i && IsNamed(calls[j]);
      assert calls[..i][j] in calls[..i];
    }
  }

  lemma EofTells(p: Parser, n: nat)
    ensures NamesFirst(false, CallEof(p, n).events) && NamesFirst(true, CallEof(p, n).events)
    ensures CallEof(p, n).c.p.errno == OK ==> CallEof(p, n).c.p == p
  {
  }

  // ---- What the two parsers of messages share ----

  datatype Verdict = Good | Bad | Indeterminate

  /** A value replaces that of the last header. */
  function WithValue(headers: seq<Header>, value: string): seq<Header> {
    if headers == [] then []
    else headers[..|headers| - 1] + [headers[|headers| - 1].(value := value)]
  }
}
