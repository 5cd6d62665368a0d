/**
  Whole messages with any header lines, one behind the other: what is told of them, when another
  protocol takes over, and when the connection stays open.
 */
module Exchanges {
  import opened Chars
  import opened Alphabets
  import opened ParserTypes
  import opened Transitions
  import opened Machine
  import opened Invariant
  import opened Runs
  import opened FieldNames
  import opened Lengths
  import opened Lines
  import opened Methods
  import opened Headers
  import opened Connections
  import opened Chunks
  import opened Sizes
  import opened Heads
  import opened HttpParsers
  import opened Ends
  import opened RoundTrips
  import opened Segmentation

  // ---- The end of a header ----

  /** Only the end of input would end the body of such a reply. */
  predicate IsEndless(p: Parser) {
    !p.ptype.REQUEST? && !(100 <= p.status < 200) && p.status != 204 && p.status != 304
  }

  /** The version and the Connection flags keep the connection open. */
  predicate IsOpen(major: nat, minor: nat, close: bool, keepAlive: bool) {
    if major > 0 && minor > 0 then !close else keepAlive
  }

  /** The message ends with its header. */
  predicate EndsHere(p: Parser) {
    || p.verb == CONNECT
    || (!p.flags.chunked
        && (p.contentLength == 0 || (p.contentLength == NO_LENGTH && (AsksUpgrade(p) || !IsEndless(p)))))
  }

  /** The state behind a message. */
  function StateBehind(p: Parser): State {
    Idle(
      if && IsOpen(p.major, p.minor, p.flags.connClose, p.flags.connKeepAlive)
         && (p.flags.chunked || p.contentLength != NO_LENGTH || !IsEndless(p))
      then (if p.ptype.REQUEST? then StartReq else StartRes)
      else Dead)
  }

  lemma StateIsBehind(p: Parser)
    ensures NewMessage(p) == StateBehind(p)
  {
  }

  /** The parser behind the empty line. */
  function BehindHead(p: Parser): Parser {
    p.(upgrade := AsksUpgrade(p),
       state := if EndsHere(p) then StateBehind(p)
                else if p.flags.chunked then Chunk(ChunkSizeStart)
                else if p.contentLength == NO_LENGTH then Content(BodyIdentityEof)
                else Content(BodyIdentity))
  }

  function HeadTold(p: Parser): seq<Event> {
    [HeadersComplete(p.major, p.minor)] + if EndsHere(p) then [MessageComplete] else []
  }

  lemma EmptyLineIs(p: Parser, skipping: bool)
    requires p.state == Head(HeadersAlmostDone) && !p.flags.trailing
    requires !(p.flags.chunked && p.flags.contentLength)
    ensures Transition(p, skipping, LF)
      == Outcome(BehindHead(p), Keep, HeadTold(p), NoMark, true, false, AsksUpgrade(p) && EndsHere(p))
  {
    var o := OnHeadersAlmostDone(p, LF, []);
    assert [] + [HeadersComplete(p.major, p.minor)] == [HeadersComplete(p.major, p.minor)];
    assert Transition(p, skipping, LF) == o by {
      hide OnHeadersAlmostDone;
    }
    StateIsBehind(p.(upgrade := AsksUpgrade(p), state := Head(HeadersDone)));
    hide NewMessage;
    assert HeadTold(p) == if EndsHere(p) then [HeadersComplete(p.major, p.minor)] + [MessageComplete]
                          else [HeadersComplete(p.major, p.minor)];
  }

  lemma EmptyLineStep(d: Core)
    requires Going(d) && d.p.state == Head(HeadersAlmostDone) && d.slice.Closed?
    requires !d.p.flags.trailing && !(d.p.flags.chunked && d.p.flags.contentLength)
    ensures
      var p := d.p;
      && Step(d, LF) == StepOut(
           Core(BehindHead(p), 0, Closed, false, false, d.over || d.nread + 1 > MAX_HEADER_SIZE,
                AsksUpgrade(p) && EndsHere(p)),
           HeadTold(p))
      && BehindHead(p).errno == OK
  {
    EmptyLineIs(d.p, d.skipping);
    assert [] + HeadTold(d.p) == HeadTold(d.p);
    hide Transition, AsksUpgrade, EndsHere, HeadTold;
  }

  /** The parser as the empty line of a header begins does what it would do right behind the lines. */
  lemma SameHead(p: Parser)
    ensures
      var q := p.(state := Head(HeadersAlmostDone));
      && BehindHead(q) == BehindHead(p) && HeadTold(q) == HeadTold(p)
      && AsksUpgrade(q) == AsksUpgrade(p) && EndsHere(q) == EndsHere(p)
  {
  }

  lemma EmptyLineIsRead(c: Core)
    requires Going(c) && AtField(c.p) && c.slice.Closed?
    requires !AsField(c.p).flags.trailing && !(AsField(c.p).flags.chunked && AsField(c.p).flags.contentLength)
    ensures
      var p := AsField(c.p);
      var r := Run(c, "\r\n");
      && r.c == Core(BehindHead(p), 0, Closed, false, false, r.c.over, AsksUpgrade(p) && EndsHere(p))
      && (!c.over && c.nread + 2 <= MAX_HEADER_SIZE ==> !r.c.over)
      && r.events == Owed(c.p) + HeadTold(p) && r.used == 2 && Clean(c, "\r\n") && r.c.p.errno == OK
  {
    hide Transition, AsField, Owed, Run, HeadTold, Step, EndsHere, AsksUpgrade, Clean, BehindHead;
    AsFieldKeeps(c.p);
    var p := AsField(c.p);
    HeadEnds(c.p, c.skipping);
    ReadsByte(c, CR, ToTelling(p, Head(HeadersAlmostDone), Owed(c.p)));
    var d := Run(c, [CR]).c;
    EmptyLineStep(d);
    SameHead(p);
    OneByte(d, LF, Step(d, LF));
    assert "\r\n" == [CR] + [LF];
    RunAppend(c, [CR], [LF]);
    CleanAppend(c, [CR], [LF]);
    CarriageReturnCounts(c, p);
  }

  // ---- Behind the first line ----

  /** The body of a message, as it is sent. */
  datatype Load = Nothing | Whole(bytes: string) | InChunks(chunks: seq<string>)

  function LoadText(load: Load): string {
    match load
    case Nothing => ""
    case Whole(bytes) => bytes
    case InChunks(chunks) => PrintChunks(chunks)
  }

  /** What is told behind the header. */
  function LoadTold(load: Load): seq<Event> {
    match load
    case Nothing => [MessageComplete]
    case Whole(bytes) => [Data(Body, bytes), MessageComplete]
    case InChunks(chunks) => ChunksTold(chunks)
  }

  /** The lines ask for another protocol: an Upgrade line, and a Connection line that names it. */
  predicate AskBoth(lines: seq<HeadLine>) {
    Says(lines, "upgrade") && Asks(lines)
  }

  /** The header lines announce the body that follows; the header of a tunnel is followed by none. */
  predicate Announce(tunnel: bool, endless: bool, lines: seq<HeadLine>, load: Load) {
    && AreLines(false, lines)
    && !(IsCoded(lines) && HasSize(lines))
    && match load
       case Nothing =>
         tunnel || (!IsCoded(lines) && if HasSize(lines) then HasSizeOf(lines, 0) else !endless || AskBoth(lines))
       case Whole(bytes) => !tunnel && bytes != "" && !IsCoded(lines) && HasSizeOf(lines, |bytes|)
       case InChunks(chunks) => !tunnel && IsCoded(lines) && AreChunks(chunks)
  }

  /** A Content-Length line says `n`. */
  predicate HasSizeOf(lines: seq<HeadLine>, n: nat) {
    exists l <- lines :: l.Sized? && IsLength(l.value) && Decimal(0, l.value) == n
  }

  function RestText(lines: seq<HeadLine>, load: Load): string {
    PrintLines(lines) + "\r\n" + LoadText(load)
  }

  /** The parser behind all lines of a header. */
  function BehindLines(p: Parser, q: Parser, lines: seq<HeadLine>): Parser
    requires AreLines(false, lines)
  {
    p.(state := q.state, hstate := q.hstate, index := q.index, flags := MarkedAll(NO_FLAGS, lines),
       contentLength := SizeAfter(NO_LENGTH, false, lines))
  }

  /** All of a header, and the parser `q` behind its lines. */
  lemma HeaderIsRead(c: Core, lines: seq<HeadLine>) returns (q: Parser)
    requires Going(c) && c.p.state == Head(HeaderFieldStart) && c.slice.Closed?
    requires c.p.flags == NO_FLAGS && c.p.contentLength == NO_LENGTH
    requires AreLines(false, lines) && !(IsCoded(lines) && HasSize(lines))
    ensures
      var p := BehindLines(c.p, q, lines);
      var text := PrintLines(lines) + "\r\n";
      var r := Run(c, text);
      && r.c == Core(BehindHead(p), 0, Closed, false, false, r.c.over, AsksUpgrade(p) && EndsHere(p))
      && (!c.over && c.nread + |text| <= MAX_HEADER_SIZE ==> !r.c.over)
      && r.events == LineReports(lines) + HeadTold(p) && r.used == |text| && Clean(c, text) && r.c.p.errno == OK
  {
    hide Run, AtField, AsField, Owed, BehindHead, HeadTold, AsksUpgrade, EndsHere, PrintLines, IsHeadLine, IsCoded,
         HasSize, Says, Asks, Clean, LineReports;
    StartIsField(c.p);
    var told := LinesAreRead(c, lines);
    var d := Run(c, PrintLines(lines)).c;
    AsFieldIs(d.p);
    EmptyLineIsRead(d);
    q := d.p;
    RunAppend(c, PrintLines(lines), "\r\n");
    CleanAppend(c, PrintLines(lines), "\r\n");
    HeadIsTold(told, Owed(d.p), LineReports(lines), HeadTold(AsField(d.p)));
  }

  lemma HeadIsTold(told: seq<Event>, owed: seq<Event>, reports: seq<Event>, head: seq<Event>)
    requires told + owed == [] + reports
    ensures told + (owed + head) == reports + head
  {
    assert told + (owed + head) == told + owed + head;
    assert [] + reports == reports;
  }

  lemma StartIsField(p: Parser)
    requires p.state == Head(HeaderFieldStart)
    ensures AtField(p) && AsField(p) == p && Owed(p) == []
  {
  }

  lemma SizeIs(lines: seq<HeadLine>)
    requires AreLines(false, lines)
    ensures forall n: nat | HasSizeOf(lines, n) :: HasSize(lines) && SizeAfter(NO_LENGTH, false, lines) == n
    ensures !HasSize(lines) ==> SizeAfter(NO_LENGTH, false, lines) == NO_LENGTH
    ensures HasSize(lines) ==> SizeAfter(NO_LENGTH, false, lines) <= MAX_LENGTH
  {
    SizeIsTold(NO_LENGTH, false, lines);
    hide SizeAfter, AreLines, Decimal;
  }

  /** The connection stays open behind the message: its version and Connection lines, and how its body ends. */
  predicate StaysOpen(major: nat, minor: nat, endless: bool, lines: seq<HeadLine>) {
    && (if major > 0 && minor > 0 then !Says(lines, "close") else Says(lines, "keep-alive"))
    && (!endless || IsCoded(lines) || HasSize(lines))
  }

  /** All that is behind the first line is read: what is told, and what becomes of the connection. */
  ghost predicate ReadsRest(c: Core, lines: seq<HeadLine>, load: Load) {
    var p, text := c.p, RestText(lines, load);
    var r := Run(c, text);
    var next := if p.ptype.REQUEST? then StartReq else StartRes;
    && r.c.p.errno == OK
    && r.c.p.state == Idle(if StaysOpen(p.major, p.minor, IsEndless(p), lines) then next else Dead)
    && r.c.p.upgrade == r.c.halted == (p.verb == CONNECT || AskBoth(lines))
    && r.c.p.ptype == p.ptype && r.c.p.verb == p.verb
    && r.c.slice.Closed? && !r.c.inside && r.c.nread == (if load.InChunks? then 2 else 0)
    && (!c.over && c.nread + |PrintLines(lines)| + 2 <= MAX_HEADER_SIZE ==> !r.c.over)
    && r.events == LineReports(lines) + [HeadersComplete(p.major, p.minor)] + LoadTold(load)
    && r.used == |text| && Clean(c, text)
  }

  /** What the lines say of the end of the header. */
  lemma HeadOf(p: Parser, q: Parser, lines: seq<HeadLine>, load: Load)
    requires Announce(p.verb == CONNECT, IsEndless(p), lines, load)
    ensures
      var s := BehindLines(p, q, lines);
      && AsksUpgrade(s) == (p.verb == CONNECT || AskBoth(lines))
      && EndsHere(s) == load.Nothing?
      && s.contentLength == SizeAfter(NO_LENGTH, false, lines) && IsEndless(s) == IsEndless(p)
      && s.flags == MarkedAll(NO_FLAGS, lines) && s.flags.chunked == IsCoded(lines)
      && (load.Whole? ==> s.contentLength == |load.bytes|)
      && (load.Whole? ==> BehindHead(s) == s.(upgrade := AsksUpgrade(s), state := Content(BodyIdentity)))
      && (load.InChunks? ==> BehindHead(s) == s.(upgrade := AsksUpgrade(s), state := Chunk(ChunkSizeStart)))
  {
    SizeIs(lines);
    hide SizeAfter, AreLines, Says, Asks, IsCoded, HasSize, HasSizeOf, PrintChunks, AreChunks;
  }

  /** The state behind the body, from that behind the header. */
  lemma StateOf(p: Parser, q: Parser, lines: seq<HeadLine>, n: nat, t: State, up: bool, trailing: bool)
    requires AreLines(false, lines) && (HasSize(lines) || IsCoded(lines) || n == NO_LENGTH)
    requires HasSize(lines) && !IsCoded(lines) ==> n != NO_LENGTH
    ensures
      var s := BehindLines(p, q, lines);
      var next := if p.ptype.REQUEST? then StartReq else StartRes;
      StateBehind(s.(state := t, upgrade := up, contentLength := n, flags := s.flags.(trailing := trailing)))
        == Idle(if StaysOpen(p.major, p.minor, IsEndless(p), lines) then next else Dead)
  {
    hide SizeAfter, AreLines, Says, Asks, IsCoded, HasSize;
  }

  lemma NothingIsRead(c: Core, lines: seq<HeadLine>)
    requires Going(c) && c.p.state == Head(HeaderFieldStart) && c.slice.Closed?
    requires c.p.flags == NO_FLAGS && c.p.contentLength == NO_LENGTH
    requires Announce(c.p.verb == CONNECT, IsEndless(c.p), lines, Nothing)
    ensures ReadsRest(c, lines, Nothing)
  {
    hide Run, BehindHead, AsksUpgrade, EndsHere, PrintLines, IsHeadLine, IsCoded, HasSize, Says, Asks, Clean,
         LineReports, StaysOpen, IsEndless, AreLines, HasSizeOf, SizeAfter, MarkedAll, BehindLines, StateBehind;
    var q := HeaderIsRead(c, lines);
    HeadOf(c.p, q, lines, Nothing);
    SizeIs(lines);
    var p := BehindLines(c.p, q, lines);
    BehindNothing(c.p, q, lines);
    var text := PrintLines(lines) + "\r\n";
    assert RestText(lines, Nothing) == text;
    var head := [HeadersComplete(c.p.major, c.p.minor)];
    assert LineReports(lines) + (head + [MessageComplete]) == LineReports(lines) + head + [MessageComplete];
  }

  lemma BehindNothing(p: Parser, q: Parser, lines: seq<HeadLine>)
    requires Announce(p.verb == CONNECT, IsEndless(p), lines, Nothing)
    ensures
      var s := BehindLines(p, q, lines);
      var next := if p.ptype.REQUEST? then StartReq else StartRes;
      && BehindHead(s).state == Idle(if StaysOpen(p.major, p.minor, IsEndless(p), lines) then next else Dead)
      && BehindHead(s).upgrade == (p.verb == CONNECT || AskBoth(lines)) && BehindHead(s).errno == p.errno
      && BehindHead(s).ptype == p.ptype && BehindHead(s).verb == p.verb
      && HeadTold(s) == [HeadersComplete(p.major, p.minor)] + [MessageComplete]
  {
    HeadOf(p, q, lines, Nothing);
    SizeIs(lines);
    var n := SizeAfter(NO_LENGTH, false, lines);
    var s := BehindLines(p, q, lines);
    StateOf(p, q, lines, n, s.state, s.upgrade, false);
    hide SizeAfter, AreLines, Says, Asks, IsCoded, HasSize, HasSizeOf, EndsHere, AsksUpgrade, IsEndless, StateBehind,
         StaysOpen, Announce;
  }

  /** The parser behind a body of known length. */
  lemma BehindWhole(p: Parser, q: Parser, lines: seq<HeadLine>, bytes: string)
    requires Announce(p.verb == CONNECT, IsEndless(p), lines, Whole(bytes))
    ensures
      var s := BehindHead(BehindLines(p, q, lines)).(contentLength := 0);
      var next := if p.ptype.REQUEST? then StartReq else StartRes;
      && NewMessage(s) == Idle(if StaysOpen(p.major, p.minor, IsEndless(p), lines) then next else Dead)
      && s.upgrade == AskBoth(lines) && s.errno == p.errno && s.ptype == p.ptype && s.verb == p.verb
      && HeadTold(BehindLines(p, q, lines)) == [HeadersComplete(p.major, p.minor)]
  {
    HeadOf(p, q, lines, Whole(bytes));
    SizeIs(lines);
    var s := BehindLines(p, q, lines);
    StateOf(p, q, lines, 0, Content(BodyIdentity), AsksUpgrade(s), false);
    StateIsBehind(BehindHead(s).(contentLength := 0));
    hide SizeAfter, AreLines, Says, Asks, IsCoded, HasSize, EndsHere, AsksUpgrade, IsEndless, StateBehind, StaysOpen,
         NewMessage, BehindHead;
  }

  lemma WholeIsRead(c: Core, lines: seq<HeadLine>, bytes: string)
    requires CoreInv(c) && Going(c) && c.p.state == Head(HeaderFieldStart) && c.slice.Closed?
    requires c.p.flags == NO_FLAGS && c.p.contentLength == NO_LENGTH
    requires Announce(c.p.verb == CONNECT, IsEndless(c.p), lines, Whole(bytes))
    ensures ReadsRest(c, lines, Whole(bytes))
  {
    hide Run, CoreInv, BehindHead, AsksUpgrade, EndsHere, PrintLines, IsHeadLine, IsCoded, HasSize, Says, Asks, Clean,
         LineReports, StaysOpen, IsEndless, AreLines, HasSizeOf, SizeAfter, MarkedAll, BehindLines, NewMessage,
         HeadTold;
    var q := HeaderIsRead(c, lines);
    HeadOf(c.p, q, lines, Whole(bytes));
    BehindWhole(c.p, q, lines, bytes);
    var text := PrintLines(lines) + "\r\n";
    RunInv(c, text);
    var d := Run(c, text).c;
    KeepsContent(BehindLines(c.p, q, lines));
    BodyIsBodily(d);
    BodyIsRead(d, bytes);
    CleanWhole(d, bytes);
    RunAppend(c, text, bytes);
    CleanAppend(c, text, bytes);
    assert RestText(lines, Whole(bytes)) == text + bytes;
    var head := [HeadersComplete(c.p.major, c.p.minor)];
    assert [Data(Body, bytes)] + [MessageComplete] == [Data(Body, bytes), MessageComplete];
    assert LineReports(lines) + head + [Data(Body, bytes), MessageComplete]
        == LineReports(lines) + head + ([Data(Body, bytes)] + [MessageComplete]);
  }

  lemma KeepsContent(s: Parser)
    ensures BehindHead(s).contentLength == s.contentLength && BehindHead(s).flags == s.flags
    ensures BehindHead(s).errno == s.errno
  {
    hide EndsHere, AsksUpgrade;
  }

  lemma CleanWhole(d: Core, bytes: string)
    requires CoreInv(d) && Bodily(d) && d.p.state == Content(BodyIdentity)
    requires d.slice.Closed? && bytes != "" && d.p.contentLength == |bytes|
    ensures Clean(d, bytes)
  {
    hide Run, CoreInv, InBody, Step, Clean;
    var k := |bytes| - 1;
    AllButLast(d, bytes);
    var e := InBody(d, bytes[..k]);
    CleanOne(e, bytes[k]);
    assert bytes[..k] + [bytes[k]] == bytes;
    CleanAppend(d, bytes[..k], [bytes[k]]);
  }

  lemma CleanOne(e: Core, ch: char)
    requires Bodily(e)
    ensures Clean(e, [ch])
  {
    hide Step;
    assert [ch][1..] == "";
    assert Clean(Step(e, ch).c, "");
  }

  /** The parser behind a chunked body. */
  lemma BehindChunks(p: Parser, q: Parser, lines: seq<HeadLine>, chunks: seq<string>)
    requires Announce(p.verb == CONNECT, IsEndless(p), lines, InChunks(chunks))
    ensures
      var s := AfterChunks(BehindHead(BehindLines(p, q, lines)));
      var next := if p.ptype.REQUEST? then StartReq else StartRes;
      && NewMessage(s) == Idle(if StaysOpen(p.major, p.minor, IsEndless(p), lines) then next else Dead)
      && s.upgrade == AskBoth(lines) && s.errno == p.errno && s.ptype == p.ptype && s.verb == p.verb
      && HeadTold(BehindLines(p, q, lines)) == [HeadersComplete(p.major, p.minor)]
  {
    HeadOf(p, q, lines, InChunks(chunks));
    SizeIs(lines);
    var s := BehindLines(p, q, lines);
    StateOf(p, q, lines, 0, Head(HeadersAlmostDone), AsksUpgrade(s), true);
    StateIsBehind(AfterChunks(BehindHead(s)));
    hide SizeAfter, AreLines, Says, Asks, IsCoded, HasSize, EndsHere, AsksUpgrade, IsEndless, StateBehind, StaysOpen,
         NewMessage, BehindHead, AreChunks;
  }

  lemma ChunkedIsRead(c: Core, lines: seq<HeadLine>, chunks: seq<string>)
    requires CoreInv(c) && Going(c) && c.p.state == Head(HeaderFieldStart) && c.slice.Closed?
    requires c.p.flags == NO_FLAGS && c.p.contentLength == NO_LENGTH
    requires Announce(c.p.verb == CONNECT, IsEndless(c.p), lines, InChunks(chunks))
    ensures ReadsRest(c, lines, InChunks(chunks))
  {
    hide Run, CoreInv, BehindHead, AsksUpgrade, EndsHere, PrintLines, IsHeadLine, IsCoded, HasSize, Says, Asks, Clean,
         LineReports, StaysOpen, IsEndless, AreLines, HasSizeOf, SizeAfter, MarkedAll, BehindLines, NewMessage,
         HeadTold, PrintChunks, ChunksTold, AreChunks;
    var q := HeaderIsRead(c, lines);
    HeadOf(c.p, q, lines, InChunks(chunks));
    BehindChunks(c.p, q, lines, chunks);
    var text := PrintLines(lines) + "\r\n";
    RunInv(c, text);
    var d := Run(c, text).c;
    KeepsContent(BehindLines(c.p, q, lines));
    ChunksAreRead(d, chunks);
    RunAppend(c, text, PrintChunks(chunks));
    CleanAppend(c, text, PrintChunks(chunks));
    assert RestText(lines, InChunks(chunks)) == text + PrintChunks(chunks);
  }

  /** Header lines and a body that they announce: all of it is told, and the message is over with its last byte. */
  lemma RestIsRead(c: Core, lines: seq<HeadLine>, load: Load)
    requires CoreInv(c) && Going(c) && c.p.state == Head(HeaderFieldStart) && c.slice.Closed?
    requires c.p.flags == NO_FLAGS && c.p.contentLength == NO_LENGTH
    requires Announce(c.p.verb == CONNECT, IsEndless(c.p), lines, load)
    ensures ReadsRest(c, lines, load)
  {
    hide ReadsRest, Announce, CoreInv, IsEndless;
    match load
    case Nothing => NothingIsRead(c, lines);
    case Whole(bytes) => WholeIsRead(c, lines, bytes);
    case InChunks(chunks) => ChunkedIsRead(c, lines, chunks);
  }
}
