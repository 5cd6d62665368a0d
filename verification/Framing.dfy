/**
  Where a body ends (section 3.3.3 of RFC 7230), and that its bytes are conserved.
 */
module Framing {
  import opened Chars
  import opened ParserTypes
  import opened Transitions
  import opened Machine
  import opened Invariant
  import opened Segmentation
  import opened Traces
  import opened Chunks
  import opened Ends
  import opened HttpParsers

  // ---- The kinds of body ----

  /** The end of a header that is no trailer. */
  predicate EndsHeader(p: Parser) {
    p.state == Head(HeadersAlmostDone) && p.errno == OK && Inv(p) && !p.flags.trailing
  }

  /**
    A header announces at most one length, and what is behind it is framed in exactly one way; for
    CONNECT there is no body, and where a header that asks for an upgrade announces none, none is
    read until the connection ends. The call leaves where another protocol follows at once.
   */
  lemma OneFraming(p: Parser, skipping: bool)
    requires EndsHeader(p)
    ensures
      var o := Transition(p, skipping, LF);
      var known := p.flags.contentLength && p.contentLength != NO_LENGTH;
      var open := p.status / 100 != 1 && p.status != 204 && p.status != 304;
      var tunnel, asked := p.verb == CONNECT, AsksUpgrade(p);
      && (o.p.errno == OK <==> !(p.flags.chunked && p.flags.contentLength))
      && (o.p.errno != OK ==> o.p.errno == UNEXPECTED_CONTENT_LENGTH)
      && (o.p.errno == OK ==>
            && (o.p.state == Chunk(ChunkSizeStart) <==> !tunnel && p.flags.chunked)
            && (o.p.state == Content(BodyIdentity) <==> !tunnel && !p.flags.chunked && known && p.contentLength > 0)
            && (o.p.state == Content(BodyIdentityEof) <==>
                  !asked && !p.flags.chunked && !known && !p.ptype.REQUEST? && open)
            && (MessageComplete in o.notes <==> o.p.state.Idle?)
            && (o.p.state.Idle? <==> !o.p.state.Chunk? && !o.p.state.Content?)
            && o.p.upgrade == asked && (o.halt <==> asked && o.p.state.Idle?)
            && o.reset)
  {
  }

  // ---- The bytes of a body ----

  /** One slice for every piece. */
  function Slices(cuts: seq<string>): seq<Event> {
    if cuts == [] then [] else [Data(Body, cuts[0])] + Slices(cuts[1..])
  }

  lemma {:induction false} SlicesSpell(cuts: seq<string>)
    ensures |Slices(cuts)| == |cuts|
    ensures forall i | 0 <= i < |cuts| :: Slices(cuts)[i] == Data(Body, cuts[i])
  {
    if cuts != [] {
      SlicesSpell(cuts[1..]);
    }
  }

  /** Some of the bytes of a body, in one call. */
  lemma PartOfBody(p: Parser, n: nat, piece: string)
    requires Ready(p, n) && n <= MAX_HEADER_SIZE && piece != ""
    requires p.state == Content(BodyIdentityEof) || (p.state == Content(BodyIdentity) && |piece| < p.contentLength)
    ensures
      var q := if p.state == Content(BodyIdentityEof) then p else p.(contentLength := p.contentLength - |piece|);
      Call(p, n, piece) == RunOut(Begin(q, n), [Data(Body, piece)], |piece|)
  {
    hide Run, Step, Inv;
    var c := Begin(p, n);
    BeginInv(p, n);
    SkipBody(c, piece, |piece|);
    assert piece[..|piece|] == piece && piece[|piece|..] == "";
    RunNothing(InBody(c, piece));
    var none: seq<Event> := [];
    assert none + none == none && none + [Data(Body, piece)] == [Data(Body, piece)];
  }

  /** The rest of a body, in one call. */
  lemma EndOfBody(p: Parser, n: nat, piece: string)
    requires Ready(p, n) && n <= MAX_HEADER_SIZE && piece != ""
    requires p.state == Content(BodyIdentity) && |piece| == p.contentLength
    ensures
      var q := p.(contentLength := 0);
      Call(p, n, piece) == RunOut(Begin(q.(state := NewMessage(q)), n).(halted := p.upgrade),
                                  [Data(Body, piece)] + [MessageComplete], |piece|)
  {
    hide Run, Step, Inv;
    var c := Begin(p, n);
    BeginInv(p, n);
    BodyIsRead(c, piece);
    assert Rest(Run(c, piece).c.slice) == [];
    var told := [Data(Body, piece)] + [MessageComplete];
    assert told + [] == told;
  }

  /**
    A body of known length, however it is cut: each piece is delivered as it comes, what has been
    delivered and what is still awaited add up to the length, and the message is complete exactly
    when nothing is awaited any more. If it asked for another protocol, the last call leaves there.
   */
  lemma {:induction false} BodyIsConserved(p: Parser, n: nat, cuts: seq<string>)
    requires Ready(p, n) && n <= MAX_HEADER_SIZE && p.state == Content(BodyIdentity)
    requires NonEmpty(cuts) && |Concat(cuts)| <= p.contentLength
    ensures
      var f := Feed(p, n, cuts);
      var done := |Concat(cuts)| == p.contentLength;
      && f.ok && f.halted == (done && p.upgrade) && f.nread == n
      && f.p.contentLength + |Concat(cuts)| == p.contentLength
      && f.p.state == (if done then NewMessage(f.p) else Content(BodyIdentity))
      && f.events == Slices(cuts) + (if done then [MessageComplete] else [])
    decreases |cuts|
  {
    hide Call, Inv;
    if cuts == [] {
      BodyIsNotOver(p);
    } else {
      var piece, rest := cuts[0], cuts[1..];
      assert NonEmpty(rest) by { assert forall i | 0 <= i < |rest| :: rest[i] == cuts[i + 1]; }
      if |piece| < p.contentLength {
        PartOfBody(p, n, piece);
        var q := p.(contentLength := p.contentLength - |piece|);
        StillInBody(p, q);
        BodyIsConserved(q, n, rest);
        var last := if |Concat(rest)| == q.contentLength then [MessageComplete] else [];
        assert [Data(Body, piece)] + (Slices(rest) + last) == [Data(Body, piece)] + Slices(rest) + last;
      } else {
        EndOfBody(p, n, piece);
        ConcatNonEmpty(rest);
        var q := p.(contentLength := 0);
        NewMessageOf(q);
        assert rest == [];
        assert Slices(rest) == [];
        assert [Data(Body, piece)] + [] + [MessageComplete] == [Data(Body, piece)] + [MessageComplete] + [];
      }
    }
  }

  lemma BodyIsNotOver(p: Parser)
    requires Inv(p) && p.state == Content(BodyIdentity)
    ensures p.contentLength > 0
  {
  }

  lemma StillInBody(p: Parser, q: Parser)
    requires Inv(p) && p.state == Content(BodyIdentity)
    requires q == p.(contentLength := q.contentLength) && 0 < q.contentLength <= p.contentLength
    ensures Inv(q)
  {
  }

  lemma NewMessageOf(q: Parser)
    ensures NewMessage(q.(state := NewMessage(q))) == NewMessage(q)
  {
  }

  /** A body without a length is delivered until the input ends, and only its end completes the message. */
  lemma {:induction false} OpenBodyIsConserved(p: Parser, n: nat, cuts: seq<string>)
    requires Ready(p, n) && n <= MAX_HEADER_SIZE && p.state == Content(BodyIdentityEof) && NonEmpty(cuts)
    ensures
      var f := Feed(p, n, cuts);
      f.ok && !f.halted && f.p == p && f.nread == n && f.events == Slices(cuts)
    ensures CallEof(p, n).events == [MessageComplete] && CallEof(p, n).c.p.errno == OK
    decreases |cuts|
  {
    hide Call, Inv;
    if cuts != [] {
      assert NonEmpty(cuts[1..]) by { assert forall i | 0 <= i < |cuts| - 1 :: cuts[1..][i] == cuts[i + 1]; }
      PartOfBody(p, n, cuts[0]);
      OpenBodyIsConserved(p, n, cuts[1..]);
    }
  }

  // ---- Nothing is reported twice ----

  /** `a` is `b` with some characters left out. */
  predicate IsWithin(a: string, b: string)
    decreases |b|
  {
    || a == ""
    || (b != "" && a[0] == b[0] && IsWithin(a[1..], b[1..]))
    || (b != "" && IsWithin(a, b[1..]))
  }

  /** The bytes of all slices, in their order. */
  function Spell(events: seq<Event>): string {
    if events == [] then "" else (if events[0].Data? then events[0].bytes else "") + Spell(events[1..])
  }

  function Held(slice: Slice): string {
    if slice.Open? then slice.bytes else ""
  }

  lemma {:induction false} SpellAppend(a: seq<Event>, b: seq<Event>)
    ensures Spell(a + b) == Spell(a) + Spell(b)
    decreases |a|
  {
    if a == [] {
      assert a + b == b;
    } else {
      assert (a + b)[1..] == a[1..] + b;
      SpellAppend(a[1..], b);
    }
  }

  /** The notifications of a transition carry no bytes. */
  predicate NotesAreSilent(notes: seq<Event>) {
    forall e <- notes :: e.Data? ==> e.bytes == ""
  }

  lemma {:induction false} SilentSpells(notes: seq<Event>)
    requires NotesAreSilent(notes)
    ensures Spell(notes) == ""
    decreases |notes|
  {
    if notes != [] {
      assert notes[0] in notes && forall e <- notes[1..] :: e in notes;
      SilentSpells(notes[1..]);
    }
  }

  lemma LineIsSilent(p: Parser, s: LineState, ch: char)
    requires p.state == Line(s)
    ensures NotesAreSilent(OnLine(p, s, ch).notes)
  {
    hide ParseUrlChar, NextGuess, MethodName;
  }

  lemma HeadersEndIsSilent(p: Parser, ch: char, before: seq<Event>)
    requires NotesAreSilent(before)
    ensures NotesAreSilent(OnHeadersAlmostDone(p, ch, before).notes) && NotesAreSilent(OnHeadersDone(p, ch, before).notes)
  {
  }

  lemma HeadIsSilent(p: Parser, s: HeadState, ch: char)
    requires p.state == Head(s) && !s.HeaderValue?
    ensures NotesAreSilent(OnHead(p, s, ch).notes)
  {
    hide OnHeadersAlmostDone, OnHeadersDone, EndOfLine, IsToken, FieldLetter, NameFor, Lower;
    HeadersEndIsSilent(p, ch, []);
    HeadersEndIsSilent(EndOfLine(p), ch, []);
    HeadersEndIsSilent(EndOfLine(p), ch, [Data(Value, "")]);
  }

  lemma RestIsSilent(p: Parser, ch: char)
    requires p.state.Idle? || p.state.Content? || p.state.Chunk? || p.state == Head(HeaderValue)
    ensures NotesAreSilent(Transition(p, false, ch).notes) && NotesAreSilent(Transition(p, true, ch).notes)
  {
    hide OnLine, OnHead, FirstGuess, IsHeaderChar, NewMessage, NameFor, Lower, IsToken;
  }

  lemma TransitionIsSilent(p: Parser, skipping: bool, ch: char)
    ensures NotesAreSilent(Transition(p, skipping, ch).notes)
  {
    hide OnIdle, OnLine, OnHead, OnValue, OnContent, OnChunk, NotesAreSilent;
    match p.state
    case Line(s) => LineIsSilent(p, s, ch);
    case Head(s) => if s.HeaderValue? { RestIsSilent(p, ch); } else { HeadIsSilent(p, s, ch); }
    case Idle(_) => RestIsSilent(p, ch);
    case Content(_) => RestIsSilent(p, ch);
    case Chunk(_) => RestIsSilent(p, ch);
  }

  lemma HandSpells(slice: Slice, o: Outcome, ch: char)
    requires Orderly(slice, o) && o.p.errno == OK && (o.flush.Through? ==> o.mark.NoMark?)
    ensures
      var (s, events) := Hand(slice, o.flush, ch);
      var all := Spell(events) + Held(Extend(s, o.mark, ch));
      all == Held(slice) || all == Held(slice) + [ch]
  {
    var (s, events) := Hand(slice, o.flush, ch);
    if events != [] {
      assert events[1..] == [];
      assert Spell(events) == events[0].bytes + "";
    }
    assert Held(slice) + [] == Held(slice);
    assert "" + [ch] == [ch];
  }

  lemma ThroughMarksNothing(p: Parser, o: Outcome)
    requires MarksFlow(p, o)
    ensures o.flush.Through? ==> o.mark.NoMark?
  {
  }

  /** One byte is reported, or kept marked, at most once. */
  lemma StepSpells(c: Core, ch: char)
    requires CoreInv(c) && Going(c)
    ensures
      var o := Step(c, ch);
      o.c.p.errno == OK ==>
        var all := Spell(o.events) + Held(o.c.slice);
        all == Held(c.slice) || all == Held(c.slice) + [ch]
    ensures Step(c, ch).c.p.errno != OK ==> Spell(Step(c, ch).events) == ""
  {
    hide Transition, Inv;
    var o := Transition(c.p, c.skipping, ch);
    TransitionInv(c.p, c.skipping, ch);
    TransitionIsSilent(c.p, c.skipping, ch);
    SilentSpells(o.notes);
    var (s, events) := Hand(c.slice, o.flush, ch);
    SpellAppend(events, o.notes);
    if o.p.errno == OK {
      FlowIsOrderly(c.p, c.slice, o);
      ThroughMarksNothing(c.p, o);
      HandSpells(c.slice, o, ch);
      assert Spell(events) + "" == Spell(events);
    }
  }

  lemma {:induction false} WithinAll(a: string, b: string, x: string, y: string)
    requires IsWithin(a, b) && IsWithin(x, y)
    ensures IsWithin(a + x, b + y)
    decreases |b|
  {
    if a == "" {
      assert a + x == x;
      WithinLonger(x, b, y);
    } else {
      assert (b + y)[1..] == b[1..] + y;
      if a[0] == b[0] && IsWithin(a[1..], b[1..]) {
        WithinAll(a[1..], b[1..], x, y);
        assert (a + x)[1..] == a[1..] + x;
      } else {
        WithinAll(a, b[1..], x, y);
      }
    }
  }

  lemma {:induction false} WithinLonger(x: string, b: string, y: string)
    requires IsWithin(x, y)
    ensures IsWithin(x, b + y)
    decreases |b|
  {
    if b == "" {
      assert b + y == y;
    } else {
      assert (b + y)[1..] == b[1..] + y;
      WithinLonger(x, b[1..], y);
    }
  }

  lemma {:induction false} WithinItself(a: string)
    ensures IsWithin(a, a)
    decreases |a|
  {
    if a != "" {
      WithinItself(a[1..]);
    }
  }

  /** What a run reports and what it leaves marked is what was marked, and input, in order. */
  lemma {:induction false} RunSpells(c: Core, data: string)
    requires CoreInv(c)
    ensures
      var r := Run(c, data);
      && (r.c.p.errno == OK ==> IsWithin(Spell(r.events) + Held(r.c.slice), Held(c.slice) + data))
      && IsWithin(Spell(r.events), Held(c.slice) + data)
    decreases |data|
  {
    hide Step, CoreInv, Held, Spell, IsWithin;
    if data == [] || !Going(c) {
      NothingSpells();
      assert "" + Held(c.slice) == Held(c.slice);
      WithinItself(Held(c.slice));
      NothingIsWithin(data);
      WithinAll(Held(c.slice), Held(c.slice), "", data);
      assert Held(c.slice) + "" == Held(c.slice);
      NothingIsWithin(Held(c.slice) + data);
    } else {
      var ch, rest := data[0], data[1..];
      assert data == [ch] + rest;
      var o := Step(c, ch);
      var r := Run(o.c, rest);
      StepSpells(c, ch);
      SpellAppend(o.events, r.events);
      if o.c.p.errno != OK {
        RunStopped(o.c, rest);
        NothingSpells();
        NothingIsWithin(Held(c.slice) + data);
      } else {
        StepInv(c, ch);
        RunSpells(o.c, rest);
        OneMoreByte(Spell(o.events), Held(o.c.slice), Held(c.slice), ch, rest, Spell(r.events));
        if r.c.p.errno == OK {
          OneMoreByte(Spell(o.events), Held(o.c.slice), Held(c.slice), ch, rest, Spell(r.events) + Held(r.c.slice));
          assert Spell(o.events) + (Spell(r.events) + Held(r.c.slice)) == Spell(o.events) + Spell(r.events) + Held(r.c.slice);
        }
      }
    }
  }

  /** `told` and `held` come of `before` and the byte `ch`; `x` comes of the rest. */
  lemma OneMoreByte(told: string, held: string, before: string, ch: char, rest: string, x: string)
    requires told + held == before || told + held == before + [ch]
    requires IsWithin(x, held + rest)
    ensures IsWithin(told + x, before + ([ch] + rest))
  {
    hide IsWithin;
    WithinItself(told);
    WithinAll(told, told, x, held + rest);
    Regroup(told, held, rest);
    OneByteLess(told + held, before, ch, rest);
    WithinChain(told + x, told + held + rest, before + ([ch] + rest));
  }

  lemma Regroup(a: string, b: string, c: string)
    ensures a + (b + c) == a + b + c
  {
  }

  lemma OneByteLess(now: string, before: string, ch: char, rest: string)
    requires now == before || now == before + [ch]
    ensures IsWithin(now + rest, before + ([ch] + rest))
  {
    hide IsWithin;
    if now == before {
      WithinItself(rest);
      WithinLonger(rest, [ch], rest);
      WithinItself(before);
      WithinAll(before, before, rest, [ch] + rest);
    } else {
      Regroup(before, [ch], rest);
      WithinItself(before + ([ch] + rest));
    }
  }

  lemma NothingSpells()
    ensures Spell([]) == ""
  {
  }

  lemma NothingIsWithin(b: string)
    ensures IsWithin("", b)
  {
  }

  lemma {:induction false} WithinChain(a: string, b: string, c: string)
    requires IsWithin(a, b) && IsWithin(b, c)
    ensures IsWithin(a, c)
    decreases |c|, |b|
  {
    if a != "" {
      if b[0] == c[0] && IsWithin(b[1..], c[1..]) {
        if a[0] == b[0] && IsWithin(a[1..], b[1..]) {
          WithinChain(a[1..], b[1..], c[1..]);
        } else {
          WithinChain(a, b[1..], c[1..]);
        }
      } else {
        WithinChain(a, b, c[1..]);
      }
    }
  }

  /**
    All the slices of a call, one behind the other, are its input with some bytes left out: no
    slice reaches outside the buffer, no byte is reported twice, and their order is kept.
   */
  lemma NoByteTwice(p: Parser, n: nat, data: string)
    requires Ready(p, n)
    ensures IsWithin(Spell(Call(p, n, data).events), data)
  {
    hide Run, Inv;
    var c := Begin(p, n);
    BeginInv(p, n);
    RunSpells(c, data);
    assert Held(c.slice) == "" && "" + data == data;
    var r := Run(c, data);
    SpellAppend(r.events, Rest(r.c.slice));
    RestSpells(r.c.slice);
  }

  lemma RestSpells(slice: Slice)
    ensures Spell(Rest(slice)) == Held(slice)
  {
    if slice.Open? {
      assert [Data(slice.kind, slice.bytes)][1..] == [];
      assert slice.bytes + "" == slice.bytes;
    }
  }
}
