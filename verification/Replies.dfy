/** The round trip of a reply: printed, and parsed again. */
module Replies {
  import opened Chars
  import opened Alphabets
  import opened ParserTypes
  import opened Transitions
  import opened Machine
  import opened Invariant
  import opened Runs
  import opened FieldNames
  import opened Lengths
  import opened Lines
  import opened Headers
  import opened Chunks
  import opened Packets
  import opened RoundTrips
  import opened Requests
  import opened Segmentation
  import opened Callbacks
  import opened ReplyParsers

  /** The status line, in the form in which status lines are read. */
  lemma StatusLineSays(status: nat)
    ensures
      var code := PrintedStatus(status);
      StatusLine(status)
        == "HTTP/" + Text(1) + "." + Text(0) + " " + Text(code) + " " + Reason(code) + "\r\n"
  {
    assert Text(1) == "1" && Text(0) == "0";
    hide Text, Reason;
    assert "HTTP/1.0 " == "HTTP/" + "1" + "." + "0" + " ";
  }

  // ---- The round trip ----

  /** The headers that arrive: the length is the last of them. */
  function Arriving(r: Reply): seq<Header> {
    r.headers + [Header("Content-Length", Text(|r.content|))]
  }

  /** The reply that arrives. */
  function Arrived(r: Reply): Reply {
    Reply(PrintedStatus(r.status), Arriving(r), r.content)
  }

  /** All callbacks for a printed reply. */
  function ReplyTold(r: Reply): seq<Event> {
    var code := PrintedStatus(r.status);
    [MessageBegin] + [Data(Status(code), Reason(code))] + Reports(Arriving(r))
    + [HeadersComplete(1, 0)] + BodyReports(r.content) + [MessageComplete]
  }

  /** A reason that can stand in a status line. */
  predicate IsReason(s: string) {
    s != "" && CR !in s && LF !in s
  }

  predicate IsPrintable(s: string) {
    s != "" && forall i | 0 <= i < |s| :: ' ' <= s[i]
  }

  lemma PrintableIsReason(s: string)
    ensures IsPrintable(s) ==> IsReason(s)
  {
  }

  lemma SuccessIsPrintable(status: nat)
    ensures status < 300 ==> IsPrintable(Reason(status))
  {
  }

  lemma MovedIsPrintable(status: nat)
    ensures 300 <= status < 302 ==> IsPrintable(Reason(status))
  {
  }

  lemma UnmovedIsPrintable(status: nat)
    ensures 302 <= status < 400 ==> IsPrintable(Reason(status))
  {
  }

  lemma ClientIsPrintable(status: nat)
    ensures 400 <= status < 500 ==> IsPrintable(Reason(status))
  {
  }

  lemma ErrorIsPrintable(status: nat)
    ensures status == 500 ==> IsPrintable(Reason(status))
  {
  }

  lemma GatewayIsPrintable(status: nat)
    ensures 501 <= status <= 502 ==> IsPrintable(Reason(status))
  {
  }

  lemma ServiceIsPrintable(status: nat)
    ensures status == 503 ==> IsPrintable(Reason(status))
  {
  }

  lemma StatusIsRead(c: Core, status: nat)
    requires Going(c) && c.p.state == Idle(StartRes) && c.slice.Closed?
    ensures
      var code := PrintedStatus(status);
      ReadsHead(c, StatusLine(status), AfterStatus(c.p, 1, 0, code), Closed,
                [MessageBegin] + [Data(Status(code), Reason(code))])
  {
    hide Run, Text, StatusLine, Reason;
    var code := PrintedStatus(status);
    StatusLineSays(status);
    SuccessIsPrintable(code);
    MovedIsPrintable(code);
    UnmovedIsPrintable(code);
    ClientIsPrintable(code);
    ErrorIsPrintable(code);
    GatewayIsPrintable(code);
    ServiceIsPrintable(code);
    PrintableIsReason(Reason(code));
    StatusLineIsRead(c, 1, 0, code, Reason(code));
  }

  /** The parser behind the headers of a printed reply but the last. */
  predicate IsAnswering(p: Parser, q: Parser) {
    && AtField(q)
    && AsField(q) == p.(state := q.state, hstate := q.hstate, index := q.index, flags := NO_FLAGS)
  }

  lemma AnsweringEnds(p: Parser, q: Parser)
    requires IsAnswering(p, q) && p.verb != CONNECT && p.major == 1 && p.minor == 0
    ensures AwaitsLength(AsField(q)) && AfterMessage(AsField(q)).state == Idle(Dead)
    ensures AsField(q).major == 1 && AsField(q).minor == 0
  {
  }

  lemma ReplyToldAdds(r: Reply, p: Parser, told: seq<Event>, owed: seq<Event>)
    requires told + owed == Reports(r.headers) && p.major == 1 && p.minor == 0
    ensures
      var code := PrintedStatus(r.status);
      [MessageBegin] + [Data(Status(code), Reason(code))] + told + (owed + TailTold(p, r.content)) == ReplyTold(r)
  {
    hide Text, Reason;
    var y := Header(LENGTH_NAME, Text(|r.content|));
    var code := PrintedStatus(r.status);
    ReportsAppend(r.headers, [y]);
    ReportsOfOne(y);
    var head := [MessageBegin] + [Data(Status(code), Reason(code))];
    var rest := [HeadersComplete(1, 0)] + BodyReports(r.content) + [MessageComplete];
    assert TailTold(p, r.content) == Reports([y]) + rest;
    assert head + told + (owed + (Reports([y]) + rest)) == head + ((told + owed) + Reports([y])) + rest;
    assert ReplyTold(r) == head + Reports(Arriving(r)) + rest;
  }

  lemma ReportsOfOne(y: Header)
    ensures Reports([y]) == [Data(Field, y.name), Data(Value, y.value)]
  {
    assert [y][1..] == [];
  }

  lemma HeadersLeaveFlags(p: Parser, headers: seq<Header>)
    requires p.state == Head(HeaderFieldStart) && p.flags == NO_FLAGS && AllPlain(headers)
    ensures IsAnswering(p, AfterAll(p, headers))
  {
    AllKeep(p, headers);
    AsFieldIs(AfterAll(p, headers));
    hide AllPlain, AfterAll, AtField;
  }

  /** A printed reply, byte by byte, from where a reply may begin. */
  lemma ReplyIsRead(c: Core, r: Reply)
    requires CoreInv(c) && Going(c) && c.p.state == Idle(StartRes) && c.p.verb != CONNECT
    requires AllPlain(r.headers) && |r.content| <= MAX_LENGTH
    ensures
      var data := r.Printed();
      var q := Run(c, data).c.p;
      && ReadsPart(c, data, |data| - |r.content|, q, Closed, ReplyTold(r))
      && q.state == Idle(Dead) && !q.upgrade
  {
    hide Clean, Run, CoreInv, Inv, Text, StatusLine, Reason, AllPlain, Print, LengthAndBody, TailTold, ReplyTold,
         AwaitsLength, AtField, Owed, AsField, IsAnswering;
    IdleIsClosed(c);
    StatusIsRead(c, r.status);
    var code := PrintedStatus(r.status);
    var line, begin := StatusLine(r.status), [MessageBegin] + [Data(Status(code), Reason(code))];
    var d := Run(c, line).c;
    var p := AfterStatus(c.p, 1, 0, code);
    StartIsAField(p);
    AllAreRead(d, r.headers);
    HeadersLeaveFlags(p, r.headers);
    ToldAndOwed(p, r.headers);
    var q := AfterAll(p, r.headers);
    var told, owed := ToldAll(p, r.headers), Owed(q);
    ReadsHeadBoth(c, line, p, Closed, begin, PrintAll(r.headers), q, Closed, told);
    var head := line + PrintAll(r.headers);
    var e := Run(c, head).c;
    RunInv(c, head);
    AnsweringEnds(p, q);
    LengthTailIsRead(e, r.content);
    var s := AfterMessage(AsField(q));
    ReadsBoth(c, head, q, Closed, begin + told, LengthAndBody(r.content), s, Closed,
              owed + TailTold(AsField(q), r.content));
    assert [] + Reports(r.headers) == Reports(r.headers);
    ReplyToldAdds(r, AsField(q), told, owed);
    LengthOfPrinted(head, r.content);
  }

  /**
    The round trip: one call with a printed reply takes all of it and reports what was printed.
    A code that is not listed arrives as 500.
   */
  lemma ReplyRoundTrip(p: Parser, n: nat, r: Reply)
    requires Ready(p, n) && p.state == Idle(StartRes) && p.verb != CONNECT
    requires AllPlain(r.headers) && |r.content| <= MAX_LENGTH
    requires n + |r.Printed()| - |r.content| <= MAX_HEADER_SIZE
    ensures
      var out := Call(p, n, r.Printed());
      && TakesWhole(p, n, r.Printed()) && !out.c.halted
      && out.events == ReplyTold(r)
      && out.c.p.state == Idle(Dead) && !out.c.p.upgrade && out.c.nread == 0
  {
    hide Run, Inv, AllPlain, ReplyTold;
    BeginInv(p, n);
    var c := Begin(p, n);
    var data := r.Printed();
    ReplyIsRead(c, r);
    IdleIsClosed(Run(c, data).c) by { RunInv(c, data); }
    assert ReplyTold(r) + [] == ReplyTold(r);
  }

  lemma ToldIsHeard(r: Reply)
    ensures HeardAll(NO_REPLY, ReplyTold(r)) == Arrived(r) && MessageComplete in ReplyTold(r)
  {
    hide Arriving, Reason;
    var headers, code := Arriving(r), PrintedStatus(r.status);
    var line := Data(Status(code), Reason(code));
    var a, b := [MessageBegin] + [line], Reports(headers);
    var c, d, e := [HeadersComplete(1, 0)], BodyReports(r.content), [MessageComplete];
    HeardAppend(NO_REPLY, a + b + c + d, e);
    HeardAppend(NO_REPLY, a + b + c, d);
    HeardAppend(NO_REPLY, a + b, c);
    HeardAppend(NO_REPLY, a, b);
    HeardAppend(NO_REPLY, [MessageBegin], [line]);
    HeardOne(NO_REPLY, MessageBegin);
    HeardOne(NO_REPLY, line);
    var q := NO_REPLY.(status := code);
    assert "" + r.content == r.content && [] + headers == headers;
    HeardReports(q, headers);
    var s := q.(headers := headers);
    HeardOne(s, HeadersComplete(1, 0));
    if r.content != "" {
      HeardOne(s, Data(Body, r.content));
    }
    HeardOne(s.(content := r.content), MessageComplete);
  }

  // ---- Two lengths ----

  /** A Content-Length header of its own, in any letter case. */
  predicate IsLengthHeader(h: Header) {
    IsSpelling(h.name, LENGTH_SPELLED) && IsLength(h.value)
  }

  lemma LengthHeaderIsNamed(h: Header)
    requires IsLengthHeader(h)
    ensures IsName(h.name) && LowerName(h.name) == "content-length" && !IsPlain(h)
  {
    hide LowerName, IsName, IsSpelling, IsLowerName;
    NamesAreLower();
    SpellingIsName(h.name, LENGTH_SPELLED);
    LowerNameSpells(h.name, LENGTH_SPELLED);
    assert h.name[..14] == h.name by { SpellingsAreLong(h.name); }
  }

  lemma SpellingsAreLong(w: string)
    requires IsSpelling(w, LENGTH_SPELLED)
    ensures |w| == 14
  {
  }

  lemma LengthHeaderIsRead(c: Core, h: Header)
    requires Going(c) && AtField(c.p) && c.slice.Closed? && IsLengthHeader(h) && !AsField(c.p).flags.contentLength
    ensures
      var q := Run(c, Print(h)).c.p;
      && ReadsHead(c, Print(h), q, Closed, Owed(c.p) + [Data(Field, h.name)] + [Data(Value, h.value)])
      && AtField(q) && AsField(q).flags.contentLength
  {
    hide Clean, Run, Decimal, LowerName, NameState, NameIndex, NamesLength, Owed, IsName, AsField, IsSpelling;
    var p, v := AsField(c.p), h.value;
    NamesAreKnown();
    LengthHeaderIsNamed(h);
    LengthStartsWithDigit(v);
    NameIsRead(c, h.name);
    var d := Run(c, h.name + ":").c;
    SpaceIsDiscarded(d);
    var e := Run(d, " ").c;
    LengthIsRead(e, v);
    var q := e.p.(state := Head(HeaderValueLws), index := 0, contentLength := Decimal(0, v));
    var told := [Data(Value, v)];
    ReadsHeadBoth(d, " ", d.p, Closed, [], v + "\r\n", q, Closed, told);
    ReadsHeadBoth(c, h.name + ":", d.p, Closed, Owed(c.p) + [Data(Field, h.name)],
                  " " + (v + "\r\n"), q, Closed, [] + told);
    LinePrints(h.name, v);
    AsFieldKeepsLength(q);
  }

  lemma AsFieldKeepsLength(p: Parser)
    ensures AsField(p).flags.contentLength == p.flags.contentLength
  {
  }

  lemma LengthStartsWithDigit(v: string)
    requires IsLength(v)
    ensures v != "" && v[0] != ' ' && v[0] != '\t' && CR !in v && LF !in v
  {
  }

  /** The headers of a reply, as a handler may set them. */
  predicate AllCarried(headers: seq<Header>) {
    forall h <- headers :: IsPlain(h) || IsLengthHeader(h)
  }

  lemma SecondNameIsRefused(c: Core, h: Header)
    requires Going(c) && AtField(c.p) && c.slice.Closed? && IsLengthHeader(h) && AsField(c.p).flags.contentLength
    ensures Run(c, Print(h)).c.p.errno == UNEXPECTED_CONTENT_LENGTH
  {
    hide Run, LowerName, NamesLength, IsName, AsField, AtField, IsLength, IsSpelling;
    NamesAreKnown();
    LengthHeaderIsNamed(h);
    NameIsRead(c, h.name);
    LinePrints(h.name, h.value);
    var rest := " " + (h.value + "\r\n");
    RunAppend(c, h.name + ":", rest);
    RunStopped(Run(c, h.name + ":").c, rest);
  }

  /** Where one Content-Length header has been read, or will be, the line that the printer adds comes too late. */
  lemma {:induction false} SecondLengthIsRefused(c: Core, headers: seq<Header>, n: nat)
    requires Going(c) && AtField(c.p) && c.slice.Closed? && AllCarried(headers) && n <= MAX_LENGTH
    requires AsField(c.p).flags.contentLength || !AllPlain(headers)
    ensures
      var text := PrintAll(headers) + Print(Header(LENGTH_NAME, Text(n)));
      Run(c, text).c.p.errno == UNEXPECTED_CONTENT_LENGTH
    decreases |headers|
  {
    hide Run, Text, Owed, AsField, AtField, IsPlain, IsLengthHeader, Print, AfterHeader, Told;
    var line := Print(Header(LENGTH_NAME, Text(n)));
    if headers == [] {
      assert "" + line == line;
      LengthLineIsRead(c, n);
    } else {
      var h, rest := headers[0], headers[1..];
      assert h in headers && (forall x <- rest :: x in headers) && headers == [h] + rest;
      var more := PrintAll(rest) + line;
      assert PrintAll(headers) + line == Print(h) + more;
      RunAppend(c, Print(h), more);
      var d := Run(c, Print(h)).c;
      if IsPlain(h) {
        HeaderIsRead(c, h);
        HeaderKeeps(c.p, h);
        SecondLengthIsRefused(d, rest, n);
      } else if AsField(c.p).flags.contentLength {
        SecondNameIsRefused(c, h);
        RunStopped(d, more);
      } else {
        LengthHeaderIsRead(c, h);
        SecondLengthIsRefused(d, rest, n);
      }
    }
  }

  /**
    A reply with Content-Length headers of its own, wherever they stand, is printed with one more,
    and no parser accepts it: the call ends in front of the second one, and no message is complete.
   */
  lemma TwoLengthsAreRefused(p: Parser, n: nat, r: Reply)
    requires Ready(p, n) && p.state == Idle(StartRes) && AllCarried(r.headers) && !AllPlain(r.headers)
    requires |r.content| <= MAX_LENGTH && n + |r.Printed()| - |r.content| <= MAX_HEADER_SIZE
    ensures
      var out := Call(p, n, r.Printed());
      out.c.p.errno == UNEXPECTED_CONTENT_LENGTH && !out.c.over && out.used < |r.Printed()|
  {
    hide Run, Inv, Text, StatusLine, Reason, AllPlain, AllCarried, Print, AtField, AsField;
    BeginInv(p, n);
    var c := Begin(p, n);
    IdleIsClosed(c);
    StatusIsRead(c, r.status);
    var line := StatusLine(r.status);
    var d := Run(c, line).c;
    StartIsAField(d.p);
    SecondLengthIsRefused(d, r.headers, |r.content|);
    var length := Print(Header(LENGTH_NAME, Text(|r.content|)));
    var text := PrintAll(r.headers) + length;
    var rest := "\r\n" + r.content;
    RunAppend(c, line, text);
    RunAppend(c, line + text, rest);
    RunStopped(Run(c, line + text).c, rest);
    PrintedParts(line, PrintAll(r.headers), length, r.content);
    assert r.Printed() == line + text + rest;
    ShortIsNotOver(c, line + text);
    RefusedIsUnused(c, line + text + rest);
  }

  lemma PrintedParts(line: string, headers: string, length: string, content: string)
    ensures line + headers + (length + "\r\n" + content) == line + (headers + length) + ("\r\n" + content)
  {
  }

  lemma PrintedIsLong(r: Reply)
    ensures r.Printed() != "" && |r.content| <= |r.Printed()|
  {
    hide Text, StatusLine, Print;
  }

  // ---- Through both objects ----

  /**
    A reply printed at one end and parsed at the other, all in one piece: the parser finds it
    good, and rebuilds it, exactly if it has no Content-Length header of its own.
   */
  method Carry(r: Reply) returns (result: Verdict, got: Reply)
    requires AllCarried(r.headers) && |r.Printed()| - |r.content| <= MAX_HEADER_SIZE
    requires |r.Printed()| < UINT32_LIMIT - MAX_HEADER_SIZE
    ensures result == if AllPlain(r.headers) then Good else Bad
    ensures AllPlain(r.headers) ==> got == Arrived(r)
  {
    hide Run, Inv, ReplyTold, Call, Succeeds, Reply.Printed, AllPlain, AllCarried, HeardAll;
    var text := r.ToString();
    var receiver := new HttpReplyParser();
    ghost var n, calls;
    result, n, calls := receiver.Parse(text);
    got := receiver.reply;
    PrintedIsLong(r);
    InitIsReady(RESPONSE);
    if AllPlain(r.headers) {
      ReplyRoundTrip(Init(RESPONSE), 0, r);
      ToldIsHeard(r);
    } else {
      TwoLengthsAreRefused(Init(RESPONSE), 0, r);
    }
  }

  lemma StockHasLength(status: nat, page: string)
    requires |page| <= MAX_LENGTH
    ensures
      var r := StockReply(status, page);
      AllCarried(r.headers) && r.content == page && IsLengthHeader(r.headers[0]) && !IsPlain(r.headers[0])
  {
    TextIsLength(|page|);
    TypeIsPlain();
    assert forall i | 0 <= i < 14 :: Spells(LENGTH_NAME[i], LENGTH_SPELLED[i]) by { LengthNameSpells(); }
    hide Text, IsLength, Spells;
    LengthHeaderIsNamed(StockReply(status, page).headers[0]);
  }

  lemma LengthNameSpells()
    ensures forall i | 0 <= i < 14 :: Spells(LENGTH_NAME[i], LENGTH_SPELLED[i])
  {
    CapitalsAre('C', 'c');
    CapitalsAre('L', 'l');
    hide IsCapitalOf;
  }

  lemma TypeIsPlain()
    ensures IsPlain(Header("Content-Type", "text/html"))
  {
    TypeIsName();
    assert IsValue("text/html");
    hide IsPlainName;
  }

  lemma TypeIsName()
    ensures IsPlainName("Content-Type")
  {
  }

  /** So the server's own stock replies are refused by the client's parser, every one of them. */
  method CarryStock(status: nat, page: string) returns (result: Verdict)
    requires |StockReply(status, page).Printed()| - |page| <= MAX_HEADER_SIZE
    requires |StockReply(status, page).Printed()| < UINT32_LIMIT - MAX_HEADER_SIZE
    ensures result == Bad
  {
    hide AllCarried, IsPlain, IsLengthHeader;
    var r := StockReply(status, page);
    PrintedIsLong(r);
    StockHasLength(status, page);
    var got;
    result, got := Carry(r);
  }
}
