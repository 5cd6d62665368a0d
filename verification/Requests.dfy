/** The round trip of a request: printed, and parsed again. */
module Requests {
  import opened Chars
  import opened Alphabets
  import opened ParserTypes
  import opened Transitions
  import opened Machine
  import opened Invariant
  import opened Runs
  import opened FieldNames
  import opened Lengths
  import opened Lines
  import opened Headers
  import opened Chunks
  import opened Ends
  import opened Methods
  import opened Packets
  import opened RoundTrips
  import opened Segmentation
  import opened RequestParsers
  import opened Callbacks

  /** The parser behind a request line. */
  function AfterRequestLine(p: Parser, m: Method, major: nat, minor: nat): Parser {
    AfterMethod(AtStart(p), m).(state := Head(HeaderFieldStart), major := major, minor := minor)
  }

  lemma RequestLineIsRead(c: Core, m: Method, uri: string, major: nat, minor: nat)
    requires Going(c) && c.p.state == Idle(StartReq) && c.slice.Closed?
    requires IsUrlFrom(UrlStart(m), uri) && 0 < major <= 999 && minor <= 999
    ensures
      var line := MethodName(m) + " " + (uri + " " + ("HTTP/" + Text(major) + "." + Text(minor) + "\r\n"));
      ReadsHead(c, line, AfterRequestLine(c.p, m, major, minor), Closed, [MessageBegin] + [Data(Url, uri)])
  {
    hide Run, Text, MethodName, IsUrlFrom;
    MethodIsRead(c, m);
    var d := Run(c, MethodName(m) + " ").c;
    UrlIsRead(d, uri);
    var e := Run(d, uri + " ").c;
    ReqVersionIsRead(e, major, minor);
    var p := AfterRequestLine(c.p, m, major, minor);
    var version := "HTTP/" + Text(major) + "." + Text(minor) + "\r\n";
    ReadsHeadBoth(d, uri + " ", e.p, Closed, [Data(Url, uri)], version, p, Closed, []);
    assert [Data(Url, uri)] + [] == [Data(Url, uri)];
    ReadsHeadBoth(c, MethodName(m) + " ", d.p, Closed, [MessageBegin], uri + " " + version, p, Closed, [Data(Url, uri)]);
  }

  /** The headers that arrive: those that the printer adds are among them. */
  function Arriving(r: Request, host: string): seq<Header> {
    [Header("Host", host), Header("Accept", "*/*")] + r.headers
    + [Header("Connection", "close"), Header("Content-Length", Text(|r.body|))]
  }

  /** All callbacks for a printed request. */
  function RequestTold(r: Request, host: string, major: nat, minor: nat): seq<Event> {
    [MessageBegin] + [Data(Url, r.uri)] + Reports(Arriving(r, host))
    + [HeadersComplete(major, minor)] + BodyReports(r.body) + [MessageComplete]
  }

  /** The requests that are read: a known method, and nothing that the parser would take for its own. */
  predicate IsReadable(r: Request, host: string, m: Method) {
    && r.verb == MethodName(m) && IsUrlFrom(UrlStart(m), r.uri)
    && 0 < r.major <= 999 && 0 <= r.minor <= 999
    && AllPlain(r.headers) && IsValue(host)
    && |r.body| <= MAX_LENGTH
  }

  /** The requests that come through: all of these but those for a tunnel. */
  predicate IsSendable(r: Request, host: string, m: Method) {
    IsReadable(r, host, m) && m != CONNECT
  }

  lemma SentIsPlain(r: Request, host: string)
    requires AllPlain(r.headers) && IsValue(host)
    ensures AllPlain(r.Sent(host))
  {
    HostAndAcceptArePlain();
    hide IsPlainName, IsValue;
  }

  lemma HostAndAcceptArePlain()
    ensures IsPlainName("Host") && IsPlainName("Accept") && IsValue("*/*")
  {
    HostAndAcceptAreTokens();
    hide IsPlainName, Spells;
    PlainByFirst("Host");
    PlainByFirst("Accept");
  }

  lemma HostAndAcceptAreTokens()
    ensures IsName("Host") && IsName("Accept")
    ensures !Spells('H', 'c') && !Spells('H', 'p') && !Spells('H', 't') && !Spells('H', 'u')
    ensures !Spells('A', 'c') && !Spells('A', 'p') && !Spells('A', 't') && !Spells('A', 'u')
  {
    CapitalsAre('H', 'c');
    CapitalsAre('H', 'p');
    CapitalsAre('H', 't');
    CapitalsAre('H', 'u');
    CapitalsAre('A', 'c');
    CapitalsAre('A', 'p');
    CapitalsAre('A', 't');
    CapitalsAre('A', 'u');
    hide IsCapitalOf;
  }

  /** The five names begin with one of four letters. */
  lemma PlainByFirst(w: string)
    requires IsName(w)
    requires !Spells(w[0], 'c') && !Spells(w[0], 'p') && !Spells(w[0], 't') && !Spells(w[0], 'u')
    ensures IsPlainName(w)
  {
    hide Spells, IsToken;
    if |w| >= 14 { assert w[..14][0] == w[0]; }
  }

  lemma {:induction false} ReportsAppend(a: seq<Header>, b: seq<Header>)
    ensures Reports(a + b) == Reports(a) + Reports(b)
    decreases |a|
  {
    if a == [] {
      assert a + b == b;
    } else {
      assert (a + b)[1..] == a[1..] + b;
      ReportsAppend(a[1..], b);
    }
  }

  lemma ReportsOfTwo(x: Header, y: Header)
    ensures Reports([x, y]) == [Data(Field, x.name), Data(Value, x.value), Data(Field, y.name), Data(Value, y.value)]
  {
    assert [x, y][1..] == [y] && [y][1..] == [];
    assert Reports([y]) == [Data(Field, y.name), Data(Value, y.value)] + Reports([]);
  }

  /** The parts of the trace, in the order in which they are read. */
  lemma RequestToldAdds(r: Request, host: string, p: Parser, told: seq<Event>, owed: seq<Event>)
    requires told + owed == Reports(r.Sent(host))
    ensures
      [MessageBegin] + [Data(Url, r.uri)]
      + (told + (owed + [Data(Field, CONNECTION_NAME)] + [Data(Value, "close")] + TailTold(p, r.body)))
      == RequestTold(r, host, p.major, p.minor)
  {
    hide Text;
    var x, y := Header(CONNECTION_NAME, "close"), Header(LENGTH_NAME, Text(|r.body|));
    ReportsAppend(r.Sent(host), [x, y]);
    ReportsOfTwo(x, y);
    assert Reports([x, y]) == [Data(Field, x.name), Data(Value, x.value), Data(Field, y.name), Data(Value, y.value)];
    var head := [MessageBegin] + [Data(Url, r.uri)];
    var rest := [HeadersComplete(p.major, p.minor)] + BodyReports(r.body) + [MessageComplete];
    assert TailTold(p, r.body) == [Data(Field, y.name), Data(Value, y.value)] + rest;
    assert owed + [Data(Field, x.name)] + [Data(Value, x.value)] + TailTold(p, r.body)
        == owed + (Reports([x, y]) + rest);
    assert head + (told + (owed + (Reports([x, y]) + rest))) == head + ((told + owed) + Reports([x, y])) + rest;
    assert RequestTold(r, host, p.major, p.minor) == head + Reports(Arriving(r, host)) + rest;
  }

  /** The parser behind all headers of a request but the last. */
  predicate IsClosing(p: Parser, q: Parser) {
    && AtField(q) && Owed(q) == []
    && AsField(q) == p.(state := q.state, hstate := q.hstate, index := q.index, flags := NO_FLAGS.(connClose := true))
  }

  lemma HeadersAreRead(c: Core, headers: seq<Header>)
    requires Going(c) && c.p.state == Head(HeaderFieldStart) && c.slice.Closed? && AllPlain(headers)
    requires c.p.flags == NO_FLAGS
    ensures
      var data := PrintAll(headers) + Print(Header(CONNECTION_NAME, "close"));
      var q := Run(c, data).c.p;
      && IsClosing(c.p, q)
      && exists told, owed :: told + owed == Reports(headers)
           && ReadsHead(c, data, q, Closed, told + (owed + [Data(Field, CONNECTION_NAME)] + [Data(Value, "close")]))
  {
    hide Run, AllPlain, Print, AtField, Owed, AsField;
    StartIsAField(c.p);
    AllAreRead(c, headers);
    AllKeep(c.p, headers);
    ToldAndOwed(c.p, headers);
    var p := AfterAll(c.p, headers);
    var told, owed := ToldAll(c.p, headers), Owed(p);
    var d := Run(c, PrintAll(headers)).c;
    CloseIsRead(d);
    var line := Print(Header(CONNECTION_NAME, "close"));
    var q := Run(d, line).c.p;
    var more := owed + [Data(Field, CONNECTION_NAME)] + [Data(Value, "close")];
    ReadsHeadBoth(c, PrintAll(headers), p, Closed, told, line, q, Closed, more);
    assert [] + Reports(headers) == Reports(headers);
    ValueIsAField(q);
    AsFieldIs(q);
  }

  lemma StartIsAField(p: Parser)
    requires p.state == Head(HeaderFieldStart)
    ensures AtField(p) && AsField(p) == p && Owed(p) == []
  {
  }

  lemma ValueIsAField(p: Parser)
    requires p.state == Head(HeaderValueLws)
    ensures AtField(p) && Owed(p) == []
  {
  }

  /** Where "Connection: close" has been read, the connection is over with the message. */
  lemma ClosingEnds(p: Parser, q: Parser)
    requires IsClosing(p, q) && p.verb != CONNECT && p.ptype.REQUEST?
    ensures AwaitsLength(AsField(q)) && AfterMessage(AsField(q)).state == Idle(Dead)
  {
  }

  lemma LineIsPrinted(r: Request, m: Method)
    requires r.verb == MethodName(m) && r.major >= 0 && r.minor >= 0
    ensures r.Line() == MethodName(m) + " " + (r.uri + " " + ("HTTP/" + Text(r.major) + "." + Text(r.minor) + "\r\n"))
  {
    hide Text, MethodName;
    var version := Text(r.major) + "." + Text(r.minor) + "\r\n";
    assert r.uri + " HTTP/" + version == r.uri + " " + ("HTTP/" + version);
    assert r.Line() == r.verb + " " + (r.uri + " HTTP/" + version);
    assert "HTTP/" + version == "HTTP/" + Text(r.major) + "." + Text(r.minor) + "\r\n";
  }

  lemma PartsOfPrinted(line: string, headers: string, close: string, tail: string)
    ensures line + headers + close + tail == line + (headers + close + tail)
  {
  }

  /** A printed request in front of its last header. */
  function Front(r: Request, host: string): string {
    r.Line() + (PrintAll(r.Sent(host)) + Print(Header(CONNECTION_NAME, "close")))
  }

  lemma FrontIsRead(c: Core, r: Request, host: string, m: Method) returns (told: seq<Event>, owed: seq<Event>)
    requires Going(c) && c.p.state == Idle(StartReq) && c.slice.Closed? && IsReadable(r, host, m)
    ensures told + owed == Reports(r.Sent(host))
    ensures
      var q := Run(c, Front(r, host)).c.p;
      && IsClosing(AfterRequestLine(c.p, m, r.major, r.minor), q)
      && ReadsHead(c, Front(r, host), q, Closed,
                   [MessageBegin] + [Data(Url, r.uri)]
                   + (told + (owed + [Data(Field, CONNECTION_NAME)] + [Data(Value, "close")])))
  {
    hide Run, Text, MethodName, IsUrlFrom, AllPlain, IsValue, Print, AtField, Owed, AsField;
    RequestLineIsRead(c, m, r.uri, r.major, r.minor);
    LineIsPrinted(r, m);
    var line := r.Line();
    var d := Run(c, line).c;
    var p := AfterRequestLine(c.p, m, r.major, r.minor);
    SentIsPlain(r, host);
    HeadersAreRead(d, r.Sent(host));
    var headers := PrintAll(r.Sent(host)) + Print(Header(CONNECTION_NAME, "close"));
    var q := Run(d, headers).c.p;
    told, owed :| told + owed == Reports(r.Sent(host))
      && ReadsHead(d, headers, q, Closed, told + (owed + [Data(Field, CONNECTION_NAME)] + [Data(Value, "close")]));
    ReadsHeadBoth(c, line, p, Closed, [MessageBegin] + [Data(Url, r.uri)], headers, q, Closed,
                  told + (owed + [Data(Field, CONNECTION_NAME)] + [Data(Value, "close")]));
  }

  lemma PrintedIs(r: Request, host: string)
    ensures r.Printed(host) == Front(r, host) + LengthAndBody(r.body)
  {
    hide Text, Print, LengthAndBody;
    PartsOfPrinted(r.Line(), PrintAll(r.Sent(host)), Print(Header(CONNECTION_NAME, "close")), LengthAndBody(r.body));
  }

  /** A printed request, byte by byte, from where a request may begin. */
  lemma RequestIsRead(c: Core, r: Request, host: string, m: Method)
    requires CoreInv(c) && Going(c) && c.p.state == Idle(StartReq) && c.p.ptype.REQUEST? && IsSendable(r, host, m)
    ensures
      var data := r.Printed(host);
      var q := Run(c, data).c.p;
      && ReadsPart(c, data, |data| - |r.body|, q, Closed, RequestTold(r, host, r.major, r.minor))
      && q.state == Idle(Dead) && q.verb == m && q.major == r.major && q.minor == r.minor && !q.upgrade
  {
    hide Clean, Run, CoreInv, Inv, Text, MethodName, IsUrlFrom, AllPlain, IsValue, Print, LengthAndBody, TailTold, RequestTold,
         AwaitsLength, AtField, Owed, AsField, Front, Request.Printed, IsClosing;
    IdleIsClosed(c);
    var told, owed := FrontIsRead(c, r, host, m);
    var front := Front(r, host);
    var p, e := AfterRequestLine(c.p, m, r.major, r.minor), Run(c, front).c;
    RunInv(c, front);
    ClosingEnds(p, e.p);
    ClosingIsAField(p, e.p);
    LengthTailIsRead(e, r.body);
    var begin := [MessageBegin] + [Data(Url, r.uri)];
    var names := told + (owed + [Data(Field, CONNECTION_NAME)] + [Data(Value, "close")]);
    ReadsBoth(c, front, e.p, Closed, begin + names, LengthAndBody(r.body), AfterMessage(AsField(e.p)), Closed,
              [] + TailTold(AsField(e.p), r.body));
    PrintedIs(r, host);
    NamesAdd(begin, told, owed, TailTold(AsField(e.p), r.body));
    RequestToldAdds(r, host, AsField(e.p), told, owed);
    LengthOfPrinted(front, r.body);
  }

  lemma LengthOfPrinted(head: string, body: string)
    ensures |head + LengthAndBody(body)| - |body| == |head| + (|LengthAndBody(body)| - |body|)
    ensures |LengthAndBody(body)| >= |body|
  {
    hide Text, Print;
  }

  lemma NamesAdd(begin: seq<Event>, told: seq<Event>, owed: seq<Event>, tail: seq<Event>)
    ensures
      var more := owed + [Data(Field, CONNECTION_NAME)] + [Data(Value, "close")];
      begin + (told + more) + ([] + tail) == begin + (told + (more + tail))
  {
    var more := owed + [Data(Field, CONNECTION_NAME)] + [Data(Value, "close")];
    assert [] + tail == tail;
    assert begin + (told + more) + tail == begin + (told + (more + tail));
  }

  lemma ClosingIsAField(p: Parser, q: Parser)
    requires IsClosing(p, q)
    ensures AtField(q) && Owed(q) == [] && AsField(q).major == p.major && AsField(q).minor == p.minor
    ensures AsField(q).verb == p.verb
  {
  }

  /**
    The round trip: one call with a printed request takes all of it, reports what was printed
    and no more, and knows the method; the connection is over with the last byte.
   */
  lemma RequestRoundTrip(p: Parser, n: nat, r: Request, host: string, m: Method)
    requires Ready(p, n) && p.state == Idle(StartReq) && p.ptype.REQUEST? && IsSendable(r, host, m)
    requires n + |r.Printed(host)| - |r.body| <= MAX_HEADER_SIZE
    ensures
      var out := Call(p, n, r.Printed(host));
      && TakesWhole(p, n, r.Printed(host)) && !out.c.halted
      && out.events == RequestTold(r, host, r.major, r.minor)
      && out.c.p.state == Idle(Dead) && out.c.p.verb == m && !out.c.p.upgrade && out.c.nread == 0
  {
    hide Run, Inv, IsSendable, RequestTold;
    BeginInv(p, n);
    var c := Begin(p, n);
    var data := r.Printed(host);
    RequestIsRead(c, r, host, m);
    IdleIsClosed(Run(c, data).c) by { RunInv(c, data); }
    assert RequestTold(r, host, r.major, r.minor) + [] == RequestTold(r, host, r.major, r.minor);
  }

  /** The request that arrives: the printed one with the headers of the printer, but no method. */
  function Arrived(r: Request, host: string): Request {
    r.(verb := "", headers := Arriving(r, host))
  }

  lemma ToldIsHeard(r: Request, host: string, m: Method)
    requires IsSendable(r, host, m)
    ensures HeardAll(NO_REQUEST, RequestTold(r, host, r.major, r.minor)) == Arrived(r, host)
    ensures MessageComplete in RequestTold(r, host, r.major, r.minor)
  {
    hide Arriving, MethodName, IsUrl, AllPlain, IsValue;
    var major: nat, minor: nat := r.major, r.minor;
    var headers := Arriving(r, host);
    var a, b := [MessageBegin] + [Data(Url, r.uri)], Reports(headers);
    var c, d, e := [HeadersComplete(major, minor)], BodyReports(r.body), [MessageComplete];
    HeardAppend(NO_REQUEST, a + b + c + d, e);
    HeardAppend(NO_REQUEST, a + b + c, d);
    HeardAppend(NO_REQUEST, a + b, c);
    HeardAppend(NO_REQUEST, a, b);
    HeardAppend(NO_REQUEST, [MessageBegin], [Data(Url, r.uri)]);
    HeardOne(NO_REQUEST, MessageBegin);
    HeardOne(NO_REQUEST, Data(Url, r.uri));
    var q := NO_REQUEST.(uri := r.uri);
    assert "" + r.uri == r.uri && "" + r.body == r.body && [] + headers == headers;
    HeardReports(q, headers);
    var s := q.(headers := headers);
    HeardOne(s, HeadersComplete(major, minor));
    var t := s.(major := major, minor := minor);
    if r.body != "" {
      HeardOne(t, Data(Body, r.body));
    }
    HeardOne(t.(body := r.body), MessageComplete);
  }

  lemma PrintedIsLong(r: Request, host: string)
    ensures r.Printed(host) != ""
  {
    hide Text, SignedText;
  }

  // ---- Tunnels ----

  /** Behind the header of a CONNECT request the call returns; the body is left to another protocol. */
  lemma TunnelEnds(p: Parser, skipping: bool)
    requires p.state == Head(HeadersAlmostDone) && p.verb == CONNECT && !p.flags.trailing && !p.flags.chunked
    ensures
      var o := Transition(p, skipping, LF);
      && o.p == p.(upgrade := true, state := o.p.state) && o.halt && o.flush == Keep && o.reset
      && o.notes == [HeadersComplete(p.major, p.minor)] + [MessageComplete]
  {
    assert [] + [HeadersComplete(p.major, p.minor)] == [HeadersComplete(p.major, p.minor)];
  }

  lemma TunnelIsClosing(p: Parser, q: Parser)
    requires IsClosing(p, q)
    ensures
      var s := AsField(q);
      && AtField(q) && !s.flags.contentLength && !s.flags.chunked && !s.flags.trailing && s.verb == p.verb
      && s.errno == p.errno
  {
  }

  lemma LengthKeepsTunnel(p: Parser, n: nat)
    ensures
      var q := AfterLength(p, n);
      AtField(q) && AsField(q) == q && Owed(q) == []
  {
  }

  /** The empty line behind the header of a CONNECT request, and whatever follows. */
  lemma TunnelIsLeft(c: Core, rest: string)
    requires Going(c) && AtField(c.p) && Owed(c.p) == [] && c.slice.Closed?
    requires AsField(c.p).verb == CONNECT && !AsField(c.p).flags.trailing && !AsField(c.p).flags.chunked
    ensures
      var r := Run(c, "\r\n" + rest);
      && r.c.p.errno == OK && r.c.p.upgrade && r.c.p.verb == CONNECT && r.c.halted && r.used == 2 && MessageComplete in r.events
      && r.c.nread == 0 && (!c.over && c.nread + 2 <= MAX_HEADER_SIZE ==> !r.c.over)
  {
    hide Transition, AsField, Owed, AtField;
    AsFieldKeeps(c.p);
    HeadEnds(c.p, c.skipping);
    ReadsByte(c, CR, ToTelling(AsField(c.p), Head(HeadersAlmostDone), Owed(c.p)));
    var d := Step(c, CR).c;
    TunnelEnds(d.p, d.skipping);
    var e := Step(d, LF);
    assert "\r\n" + rest == [CR] + ([LF] + rest) && ([LF] + rest)[1..] == rest;
    RunAppend(c, [CR], [LF] + rest);
    RunStopped(e.c, rest);
    assert MessageComplete in e.events;
  }

  /**
    A request for a tunnel does not come through, whatever its body: the parser takes its header
    and asks for the upgrade, which the wrapper has no answer to.
   */
  lemma ConnectIsLeft(p: Parser, n: nat, r: Request, host: string)
    requires Ready(p, n) && p.state == Idle(StartReq) && p.ptype.REQUEST? && IsReadable(r, host, CONNECT)
    requires n + |r.Printed(host)| - |r.body| <= MAX_HEADER_SIZE
    ensures
      var out := Call(p, n, r.Printed(host));
      && Succeeds(p, n, r.Printed(host)) && out.c.halted && out.c.p.upgrade && out.c.p.verb == CONNECT
      && out.used == |r.Printed(host)| - |r.body|
  {
    hide Clean, Run, Inv, CoreInv, Text, MethodName, IsUrlFrom, AllPlain, IsValue, Print, AtField, Owed, AsField, Front,
         Request.Printed, IsClosing;
    BeginInv(p, n);
    var c := Begin(p, n);
    IdleIsClosed(c);
    var told, owed := FrontIsRead(c, r, host, CONNECT);
    var front, line := Front(r, host), Print(Header(LENGTH_NAME, Text(|r.body|)));
    var d := Run(c, front).c;
    TunnelIsClosing(AfterRequestLine(p, CONNECT, r.major, r.minor), d.p);
    LengthLineIsRead(d, |r.body|);
    var e := Run(d, line).c;
    LengthKeepsTunnel(AsField(d.p), |r.body|);
    TunnelIsLeft(e, r.body);
    RunAppend(d, line, "\r\n" + r.body);
    RunAppend(c, front, line + ("\r\n" + r.body));
    PrintedIs(r, host);
    assert front + (line + ("\r\n" + r.body)) == front + LengthAndBody(r.body);
    LengthOfPrinted(front, r.body);
  }

  /**
    A request printed at one end and parsed at the other, all in one piece: the parser finds it
    good and rebuilds it with the headers that were sent, exactly if its method is not CONNECT;
    the method is known in any case.
   */
  method Carry(r: Request, host: string, port: string, ghost m: Method)
    returns (result: Verdict, got: Request, verb: Method)
    requires IsReadable(r, host, m)
    requires |r.Printed(host)| - |r.body| <= MAX_HEADER_SIZE
    requires |r.Printed(host)| < UINT32_LIMIT - MAX_HEADER_SIZE
    ensures result == (if m == CONNECT then Bad else Good)
    ensures m != CONNECT ==> got == Arrived(r, host)
    ensures verb == m
  {
    hide Run, Inv, RequestTold, Call, Succeeds, Request.Printed, AllPlain, IsUrlFrom, MethodName, IsValue, HeardAll;
    var text := r.ToString(host, port);
    var receiver := new HttpRequestParser();
    ghost var n, calls;
    result, n, calls := receiver.Parse(text);
    got, verb := receiver.req, receiver.parser.verb;
    PrintedIsLong(r, host);
    if m == CONNECT {
      ConnectIsLeft(Init(REQUEST), 0, r, host);
    } else {
      RequestRoundTrip(Init(REQUEST), 0, r, host, m);
      ToldIsHeard(r, host, m);
    }
  }
}
