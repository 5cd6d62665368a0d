/** The end of a header with a known length, and the body behind it. */
module Ends {
  import opened Chars
  import opened ParserTypes
  import opened Transitions
  import opened Machine
  import opened Invariant
  import opened Runs
  import opened FieldNames
  import opened Lengths
  import opened HttpParsers
  import opened Chunks

  /** A header that announces a body of known length. */
  predicate HasLength(p: Parser) {
    !p.flags.trailing && !p.flags.chunked && p.contentLength != NO_LENGTH
  }

  /** A header that asks for another protocol: behind this message, or behind the header for CONNECT. */
  predicate AsksUpgrade(p: Parser) {
    (p.flags.upgrade && p.flags.connUpgrade) || p.verb == CONNECT
  }

  /** No body is read behind such a header. */
  predicate EndsThere(p: Parser) {
    p.verb == CONNECT || p.contentLength == 0
  }

  /** The parser behind the empty line of such a header. */
  function AfterHead(p: Parser): Parser {
    var q := p.(upgrade := AsksUpgrade(p));
    q.(state := if EndsThere(p) then NewMessage(q) else Content(BodyIdentity))
  }

  function HeadReports(p: Parser): seq<Event> {
    [HeadersComplete(p.major, p.minor)] + if EndsThere(p) then [MessageComplete] else []
  }

  lemma EmptyLineEnds(p: Parser, skipping: bool)
    requires p.state == Head(HeadersAlmostDone) && HasLength(p)
    ensures Transition(p, skipping, LF)
      == Outcome(AfterHead(p), Keep, HeadReports(p), NoMark, true, false, AsksUpgrade(p) && EndsThere(p))
  {
    var o := OnHeadersAlmostDone(p, LF, []);
    assert [] + [HeadersComplete(p.major, p.minor)] == [HeadersComplete(p.major, p.minor)];
    assert Transition(p, skipping, LF) == o by {
      hide OnHeadersAlmostDone;
    }
    assert HeadReports(p) == if EndsThere(p) then [HeadersComplete(p.major, p.minor)] + [MessageComplete]
                             else [HeadersComplete(p.major, p.minor)];
  }

  /** The line feed that ends a header, in a core. */
  lemma EmptyLineSteps(d: Core)
    requires Going(d) && d.p.state == Head(HeadersAlmostDone) && HasLength(d.p) && d.slice.Closed?
    ensures
      var p := d.p;
      && Step(d, LF) == StepOut(
           Core(AfterHead(p), 0, Closed, false, false,
                d.over || d.nread + 1 > MAX_HEADER_SIZE, AsksUpgrade(p) && EndsThere(p)),
           HeadReports(p))
      && AfterHead(p).errno == OK && (AsksUpgrade(p) && EndsThere(p) ==> AfterHead(p).state.Idle?)
  {
    EmptyLineEnds(d.p, d.skipping);
    assert [] + HeadReports(d.p) == HeadReports(d.p);
    hide Transition, HasLength, AsksUpgrade, HeadReports;
  }

  /**
    The empty line behind a header: what is owed, and then the end of the header. Where another
    protocol takes over and no body comes before it, the call leaves.
   */
  lemma HeadEndIsRead(c: Core)
    requires Going(c) && AtField(c.p) && c.slice.Closed? && HasLength(AsField(c.p))
    ensures
      var p := AsField(c.p);
      var r := Run(c, "\r\n");
      && r.c.p == AfterHead(p) && r.c.slice.Closed? && r.c.nread == 0 && r.used == 2
      && (!c.over && c.nread + 2 <= MAX_HEADER_SIZE ==> !r.c.over)
      && r.events == Owed(c.p) + HeadReports(p) && r.c.p.errno == OK
      && r.c.halted == (AsksUpgrade(p) && EndsThere(p)) && r.c.p.upgrade == AsksUpgrade(p)
    ensures
      var p := AsField(c.p);
      !(AsksUpgrade(p) && EndsThere(p)) ==> ReadsPart(c, "\r\n", 2, AfterHead(p), Closed, Owed(c.p) + HeadReports(p))
  {
    hide Transition, AsField, Owed, Run, HeadReports, Step, EndsThere, AsksUpgrade, Clean;
    AsFieldKeeps(c.p);
    var p := AsField(c.p);
    HeadEnds(c.p, c.skipping);
    ReadsByte(c, CR, ToTelling(p, Head(HeadersAlmostDone), Owed(c.p)));
    var q := p.(state := Head(HeadersAlmostDone));
    var d := Run(c, [CR]).c;
    EmptyLineSteps(d);
    HeadIsAHead(p);
    OneByte(d, LF, Step(d, LF));
    assert "\r\n" == [CR] + [LF];
    RunAppend(c, [CR], [LF]);
    CleanAppend(c, [CR], [LF]);
    CarriageReturnCounts(c, p);
  }

  lemma CarriageReturnCounts(c: Core, p: Parser)
    requires Going(c) && AtField(c.p)
    requires Transition(c.p, c.skipping, CR) == ToTelling(p, Head(HeadersAlmostDone), Owed(c.p))
    ensures
      var d := Step(c, CR).c;
      d.nread == c.nread + 1 && (!c.over && c.nread < MAX_HEADER_SIZE ==> !d.over)
  {
    hide Transition, Owed;
  }

  lemma HeadIsAHead(p: Parser)
    ensures
      var q := p.(state := Head(HeadersAlmostDone));
      && AfterHead(q) == AfterHead(p) && HeadReports(q) == HeadReports(p) && AfterHead(p).errno == p.errno
      && AsksUpgrade(q) == AsksUpgrade(p) && EndsThere(q) == EndsThere(p)
  {
  }

  /**
    The body of a message with a known length: the message ends with its last byte, and if it asked
    for another protocol the call leaves there.
   */
  lemma BodyIsRead(c: Core, bytes: string)
    requires CoreInv(c) && Bodily(c) && c.p.state == Content(BodyIdentity)
    requires c.slice.Closed? && bytes != "" && c.p.contentLength == |bytes|
    ensures
      var p := c.p.(contentLength := 0);
      Run(c, bytes) == RunOut(c.(p := p.(state := NewMessage(p)), halted := p.upgrade),
                              [Data(Body, bytes)] + [MessageComplete], |bytes|)
    ensures
      var p := c.p.(contentLength := 0);
      !p.upgrade ==> Reads(c, bytes, p.(state := NewMessage(p)), Closed, [Data(Body, bytes)] + [MessageComplete])
  {
    hide Run, CoreInv, InBody, Step;
    AllButLast(c, bytes);
    var d := InBody(c, bytes[..|bytes| - 1]);
    StepLastOfBody(d, bytes[|bytes| - 1]);
    WithLast(c, bytes, d, Step(d, bytes[|bytes| - 1]));
  }
}
