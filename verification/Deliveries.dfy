/** What arrives when a printed message comes in pieces. */
module Deliveries {
  import opened Chars
  import opened ParserTypes
  import opened Transitions
  import opened Machine
  import opened Invariant
  import opened Traces
  import opened Segmentation
  import opened Runs
  import opened FieldNames
  import opened Headers
  import opened Lines
  import Lengths
  import opened Packets
  import opened Chunks
  import opened RoundTrips
  import opened Callbacks
  import opened Cuts
  import opened Requests
  import RequestParsers
  import Replies
  import ReplyParsers

  /** Joining slices loses no notification, and makes none. */
  lemma {:induction false} NotesStay(t: seq<Event>, events: seq<Event>, e: Event)
    requires !e.Data?
    ensures e in JoinAll(t, events) <==> e in t || e in events
    decreases |events|
  {
    if events != [] {
      var f := events[0];
      assert e in events <==> e == f || e in events[1..];
      var u := Join(t, f);
      assert e in u <==> e in t || e == f by {
        if t != [] {
          assert t == t[..|t| - 1] + [t[|t| - 1]];
        }
      }
      NotesStay(u, events[1..], e);
    }
  }

  predicate Tells(kind: Kind, events: seq<Event>) {
    exists e :: e in events && e.Data? && e.kind == kind
  }

  lemma TellsMore(kind: Kind, t: seq<Event>, e: Event)
    ensures Tells(kind, t + [e]) <==> Tells(kind, t) || (e.Data? && e.kind == kind)
  {
    if e.Data? && e.kind == kind {
      assert e in t + [e];
    }
    if Tells(kind, t) {
      var f :| f in t && f.Data? && f.kind == kind;
      assert f in t + [e];
    }
  }

  /** Nor does it lose or make a kind of slices. */
  lemma {:induction false} KindsStay(t: seq<Event>, events: seq<Event>, kind: Kind)
    ensures Tells(kind, JoinAll(t, events)) <==> Tells(kind, t) || Tells(kind, events)
    decreases |events|
  {
    hide Tells;
    if events == [] {
      assert !Tells(kind, []) by { TellsNothing(kind); }
    } else {
      var f, rest := events[0], events[1..];
      JoinTells(kind, t, f);
      KindsStay(Join(t, f), rest, kind);
      assert events == [f] + rest;
      TellsFirst(kind, f, rest);
    }
  }

  lemma TellsNothing(kind: Kind)
    ensures !Tells(kind, [])
  {
  }

  lemma JoinTells(kind: Kind, t: seq<Event>, e: Event)
    ensures Tells(kind, Join(t, e)) <==> Tells(kind, t) || (e.Data? && e.kind == kind)
  {
    TellsMore(kind, t, e);
    if Join(t, e) != t + [e] {
      var u, f := t[..|t| - 1], t[|t| - 1];
      assert t == u + [f];
      TellsMore(kind, u, f);
      TellsMore(kind, u, Data(e.kind, f.bytes + e.bytes));
    }
    hide Tells;
  }

  lemma TellsFirst(kind: Kind, e: Event, rest: seq<Event>)
    ensures Tells(kind, [e] + rest) <==> (e.Data? && e.kind == kind) || Tells(kind, rest)
  {
    if e.Data? && e.kind == kind {
      assert e in [e] + rest;
    }
    if Tells(kind, rest) {
      var f :| f in rest && f.Data? && f.kind == kind;
      assert f in [e] + rest;
    }
  }

  /** Whatever one call would take can be fed in pieces, if the pieces stay within the header limit. */
  lemma PiecesDoAll(p: Parser, n: nat, cuts: seq<string>)
    requires Ready(p, n) && NonEmpty(cuts) && cuts != []
    requires Clean(Begin(p, n), Concat(cuts)) && NoneIsOver(p, n, cuts) && TakesWhole(p, n, Concat(cuts))
    ensures
      var f, r := Feed(p, n, cuts), Call(p, n, Concat(cuts));
      && f.ok && f.p == r.c.p && f.halted == r.c.halted
      && BytesOf(Url, f.events) == BytesOf(Url, r.events) && BytesOf(Body, f.events) == BytesOf(Body, r.events)
      && (forall e: Event :: !e.Data? ==> (e in f.events <==> e in r.events))
      && (forall kind :: Tells(kind, f.events) <==> Tells(kind, r.events))
  {
    hide Run, Inv, Clean, NoneIsOver, Feed, Call, TakesWhole, Ready, Tells;
    CutsDoNotMatter(p, n, cuts);
    OneCallDoesAll(p, n, cuts);
    BytesDoNotSeeCuts(p, n, cuts, Url);
    BytesDoNotSeeCuts(p, n, cuts, Body);
    var a, b := Feed(p, n, cuts).events, Call(p, n, Concat(cuts)).events;
    forall e: Event | !e.Data? ensures e in a <==> e in b {
      NotesStay([], a, e);
      NotesStay([], b, e);
    }
    forall kind ensures Tells(kind, a) <==> Tells(kind, b) {
      KindsStay([], a, kind);
      KindsStay([], b, kind);
      TellsNothing(kind);
    }
  }

  // ---- Requests and replies in pieces ----

  lemma {:induction false} ReportsAreLines(headers: seq<Header>)
    ensures HeaderLines(Reports(headers)) == Reports(headers)
    ensures forall e <- Reports(headers) :: e.Data? && (e.kind.Field? || e.kind.Value?)
    decreases |headers|
  {
    if headers != [] {
      var x, y := Data(Field, headers[0].name), Data(Value, headers[0].value);
      ReportsAreLines(headers[1..]);
      assert [x, y] == [x] + [y];
      LinesAppend([x], [y]);
      LinesOfOne(x);
      LinesOfOne(y);
      LinesAppend([x, y], Reports(headers[1..]));
    }
  }

  /** A message around its headers tells no other names and values. */
  lemma LinesOfMessage(begin: seq<Event>, headers: seq<Header>, end: seq<Event>)
    requires forall e <- begin :: !IsLine(e)
    requires forall e <- end :: !IsLine(e)
    ensures HeaderLines(begin + Reports(headers) + end) == Reports(headers)
  {
    hide HeaderLines, IsLine;
    LinesAppend(begin + Reports(headers), end);
    LinesAppend(begin, Reports(headers));
    ReportsAreLines(headers);
    NoLines(begin);
    NoLines(end);
  }

  lemma {:induction false} NoLines(events: seq<Event>)
    requires forall e <- events :: !IsLine(e)
    ensures HeaderLines(events) == []
    decreases |events|
  {
    if events != [] {
      assert forall e <- events[1..] :: e in events;
      NoLines(events[1..]);
    }
  }

  lemma {:induction false} HeardHeaders(r: Request, events: seq<Event>)
    ensures RequestParsers.HeardAll(r, events).headers == HeadersHeard(r.headers, events)
    decreases |events|
  {
    if events != [] {
      HeardHeaders(RequestParsers.Heard(r, events[0]), events[1..]);
    }
  }

  lemma {:induction false} HeardReplyHeaders(r: Reply, events: seq<Event>)
    ensures ReplyParsers.HeardAll(r, events).headers == HeadersHeard(r.headers, events)
    decreases |events|
  {
    if events != [] {
      HeardReplyHeaders(ReplyParsers.Heard(r, events[0]), events[1..]);
    }
  }

  /** The version is that of the header, if all headers say the same. */
  lemma {:induction false} VersionIsHeard(r: Request, events: seq<Event>, major: nat, minor: nat)
    requires forall e <- events :: e.HeadersComplete? ==> e == HeadersComplete(major, minor)
    requires HeadersComplete(major, minor) in events || (r.major == major && r.minor == minor)
    ensures
      var got := RequestParsers.HeardAll(r, events);
      got.major == major && got.minor == minor
    decreases |events|
  {
    if events != [] {
      var e, rest := events[0], events[1..];
      assert forall x <- rest :: x in events;
      assert events == [e] + rest;
      VersionIsHeard(RequestParsers.Heard(r, e), rest, major, minor);
    }
  }

  /** The status is that of the first line, if all say the same. */
  lemma {:induction false} StatusIsHeard(r: Reply, events: seq<Event>, code: nat)
    requires forall k :: Tells(Status(k), events) ==> k == code
    requires Tells(Status(code), events) || r.status == code
    ensures ReplyParsers.HeardAll(r, events).status == code
    decreases |events|
  {
    hide Tells;
    if events == [] {
      TellsNothing(Status(code));
    } else {
      var e, rest := events[0], events[1..];
      assert events == [e] + rest;
      forall k ensures Tells(Status(k), events) <==> (e.Data? && e.kind == Status(k)) || Tells(Status(k), rest) {
        TellsFirst(Status(k), e, rest);
      }
      if e.Data? && e.kind.Status? {
        assert Tells(Status(e.kind.code), events);
      }
      StatusIsHeard(ReplyParsers.Heard(r, e), rest, code);
    }
  }

  lemma RequestLines(r: Request, host: string, major: nat, minor: nat)
    ensures
      var told := RequestTold(r, host, major, minor);
      && HeaderLines(told) == Reports(Arriving(r, host))
      && HeadersComplete(major, minor) in told
      && forall e <- told :: e.HeadersComplete? ==> e == HeadersComplete(major, minor)
  {
    hide Arriving, HeaderLines, Reports;
    var begin := [MessageBegin] + [Data(Url, r.uri)];
    var end := [HeadersComplete(major, minor)] + BodyReports(r.body) + [MessageComplete];
    LinesOfMessage(begin, Arriving(r, host), end);
    ReportsAreLines(Arriving(r, host));
    assert RequestTold(r, host, major, minor) == begin + Reports(Arriving(r, host)) + end;
  }

  lemma ReplyLines(r: Reply)
    ensures
      var told, code := Replies.ReplyTold(r), PrintedStatus(r.status);
      && HeaderLines(told) == Reports(Replies.Arriving(r))
      && Tells(Status(code), told) && forall k :: Tells(Status(k), told) ==> k == code
  {
    hide Replies.Arriving, HeaderLines, Reports, Reason;
    var code := PrintedStatus(r.status);
    var line := Data(Status(code), Reason(code));
    var begin := [MessageBegin] + [line];
    var end := [HeadersComplete(1, 0)] + BodyReports(r.content) + [MessageComplete];
    LinesOfMessage(begin, Replies.Arriving(r), end);
    ReportsAreLines(Replies.Arriving(r));
    assert Replies.ReplyTold(r) == begin + Reports(Replies.Arriving(r)) + end;
    assert line in begin && line in Replies.ReplyTold(r);
  }

  /**
    A printed request that comes in pieces: however it is cut, its URI, its version and its body
    arrive, the method is known, and the message is complete at its end. Its headers arrive exactly
    if no cut falls inside a name or a value, and so does the request that was printed.
   */
  lemma RequestInPieces(r: Request, host: string, m: Method, cuts: seq<string>)
    requires IsSendable(r, host, m) && |r.Printed(host)| - |r.body| <= MAX_HEADER_SIZE
    requires NonEmpty(cuts) && Concat(cuts) == r.Printed(host) && NoneIsOver(Init(REQUEST), 0, cuts)
    ensures
      var f := Feed(Init(REQUEST), 0, cuts);
      var got := RequestParsers.HeardAll(RequestParsers.NO_REQUEST, f.events);
      && f.ok && !f.halted && !f.p.upgrade && f.p.verb == m
      && got.(headers := Arriving(r, host)) == Arrived(r, host) && MessageComplete in f.events
      && (got == Arrived(r, host) <==> CutsOutside(Init(REQUEST), 0, cuts))
  {
    hide Run, Inv, Clean, NoneIsOver, Feed, Call, TakesWhole, Request.Printed, Arriving, RequestTold,
         RequestParsers.HeardAll, IsSendable, CutsOutside, Tells, HeaderLines, Reports, HeadersHeard, ValuePending;
    var p, data := Init(REQUEST), r.Printed(host);
    PrintedIsLong(r, host);
    InitIsReady(REQUEST);
    RequestRoundTrip(p, 0, r, host, m);
    RequestIsClean(p, 0, r, host, m);
    PiecesDoAll(p, 0, cuts);
    ToldIsHeard(r, host, m);
    var a, b := Feed(p, 0, cuts).events, Call(p, 0, data).events;
    RequestParsers.HeardBytes(RequestParsers.NO_REQUEST, a);
    RequestParsers.HeardBytes(RequestParsers.NO_REQUEST, b);
    VersionOf(r, host, m);
    var major: nat, minor: nat := r.major, r.minor;
    RequestLines(r, host, major, minor);
    VersionIsHeard(RequestParsers.NO_REQUEST, a, major, minor);
    HeardHeaders(RequestParsers.NO_REQUEST, a);
    NothingPending(REQUEST);
    HeadersArrive(p, 0, cuts, [], Arriving(r, host));
    assert [] + Arriving(r, host) == Arriving(r, host);
  }

  lemma VersionOf(r: Request, host: string, m: Method)
    requires IsSendable(r, host, m)
    ensures r.major >= 0 && r.minor >= 0
  {
    hide AllPlain, IsUrlFrom, IsValue;
  }

  lemma NothingPending(t: ParserType)
    ensures !ValuePending(Init(t))
  {
  }

  lemma RequestIsClean(p: Parser, n: nat, r: Request, host: string, m: Method)
    requires Ready(p, n) && p.state == Idle(StartReq) && p.ptype.REQUEST? && IsSendable(r, host, m)
    ensures Clean(Begin(p, n), r.Printed(host))
  {
    hide Run, Inv, Clean, IsSendable;
    BeginInv(p, n);
    RequestIsRead(Begin(p, n), r, host, m);
  }

  /**
    A printed reply that comes in pieces: however it is cut, its status, its content and its end
    arrive, and its headers do exactly if no cut falls inside a name or a value.
   */
  lemma ReplyInPieces(r: Reply, cuts: seq<string>)
    requires AllPlain(r.headers) && |r.content| <= Lengths.MAX_LENGTH && |r.Printed()| - |r.content| <= MAX_HEADER_SIZE
    requires NonEmpty(cuts) && Concat(cuts) == r.Printed() && NoneIsOver(Init(RESPONSE), 0, cuts)
    ensures
      var f := Feed(Init(RESPONSE), 0, cuts);
      var got := ReplyParsers.HeardAll(ReplyParsers.NO_REPLY, f.events);
      && f.ok && !f.halted && !f.p.upgrade
      && got.status == PrintedStatus(r.status) && got.content == r.content && MessageComplete in f.events
      && (got == Replies.Arrived(r) <==> CutsOutside(Init(RESPONSE), 0, cuts))
  {
    hide Run, Inv, Clean, NoneIsOver, Feed, Call, TakesWhole, Reply.Printed, Replies.ReplyTold,
         ReplyParsers.HeardAll, AllPlain, CutsOutside, Tells, HeaderLines, Reports, HeadersHeard, ValuePending, Replies.Arriving, PrintedStatus;
    var p, data := Init(RESPONSE), r.Printed();
    Replies.PrintedIsLong(r);
    InitIsReady(RESPONSE);
    Replies.ReplyRoundTrip(p, 0, r);
    ReplyIsClean(p, 0, r);
    PiecesDoAll(p, 0, cuts);
    Replies.ToldIsHeard(r);
    var a, b := Feed(p, 0, cuts).events, Call(p, 0, data).events;
    ReplyParsers.HeardBytes(ReplyParsers.NO_REPLY, a);
    ReplyParsers.HeardBytes(ReplyParsers.NO_REPLY, b);
    ReplyLines(r);
    StatusIsHeard(ReplyParsers.NO_REPLY, a, PrintedStatus(r.status));
    HeardReplyHeaders(ReplyParsers.NO_REPLY, a);
    NothingPending(RESPONSE);
    HeadersArrive(p, 0, cuts, [], Replies.Arriving(r));
    assert [] + Replies.Arriving(r) == Replies.Arriving(r);
  }

  lemma ReplyIsClean(p: Parser, n: nat, r: Reply)
    requires Ready(p, n) && p.state == Idle(StartRes) && p.verb != CONNECT
    requires AllPlain(r.headers) && |r.content| <= Lengths.MAX_LENGTH
    ensures Clean(Begin(p, n), r.Printed())
  {
    hide Run, Inv, Clean, AllPlain;
    BeginInv(p, n);
    Replies.ReplyIsRead(Begin(p, n), r);
  }

  // ---- Bytes that a jump hides ----

  const HEAD_OF_VALUE := "GET / HTTP/1.1\r\n" + "A:" + " " + "b" + "c"
  const CONTROL: char := '\U{01}'

  lemma FirstLineIs()
    ensures MethodName(GET) + " " + ("/" + " " + ("HTTP/" + Text(1) + "." + Text(1) + "\r\n")) == "GET / HTTP/1.1\r\n"
    ensures IsUrlFrom(UrlStart(GET), "/")
  {
    assert Text(1) == "1";
    hide Text;
    assert "/"[1..] == "";
    assert "HTTP/" + "1" + "." + "1" + "\r\n" == "HTTP/1.1\r\n";
    assert "/" + " " + "HTTP/1.1\r\n" == "/ HTTP/1.1\r\n";
    assert "GET" + " " + "/ HTTP/1.1\r\n" == "GET / HTTP/1.1\r\n";
  }

  lemma AIsPlain()
    ensures IsName("A") && !NamesLength(LowerName("A")) && Unknown(NameState(LowerName("A")))
  {
    assert LowerName("A") == "a";
    assert "a"[0] != "connection"[0] && "a"[0] != "content-length"[0] && "a"[0] != "proxy-connection"[0];
    assert "a"[0] != "transfer-encoding"[0] && "a"[0] != "upgrade"[0];
  }

  /** From the start of a request to the value of its first header. */
  lemma ValueIsNear(c: Core)
    requires Going(c) && c.p.state == Idle(StartReq) && c.slice.Closed?
    ensures
      var d := Run(c, "GET / HTTP/1.1\r\n" + "A:" + " ").c;
      && ReadsHead(c, "GET / HTTP/1.1\r\n" + "A:" + " ", d.p, Closed,
                   [MessageBegin] + [Data(Url, "/")] + [Data(Field, "A")])
      && d.p.state == Head(HeaderValueDiscardWs) && Unknown(d.p.hstate)
  {
    hide Run, Text, MethodName, IsUrlFrom, Step, Transition, NameState, NameIndex, NamesLength, LowerName, IsName,
         Clean, Unknown;
    FirstLineIs();
    AIsPlain();
    var line := "GET / HTTP/1.1\r\n";
    RequestLineIsRead(c, GET, "/", 1, 1);
    var begin := [MessageBegin] + [Data(Url, "/")];
    var d := Run(c, line).c;
    StartIsAField(d.p);
    NameIsRead(d, "A");
    assert "A" + ":" == "A:";
    var name := [Data(Field, "A")];
    assert [] + name == name;
    ReadsHeadBoth(c, line, d.p, Closed, begin, "A:", Run(d, "A:").c.p, Closed, name);
    var e := Run(c, line + "A:").c;
    SpaceIsDiscarded(e);
    var told := begin + name;
    ReadsHeadBoth(c, line + "A:", e.p, Closed, told, " ", e.p, Closed, []);
    assert told + [] == told;
  }

  /** The first two bytes of such a value. */
  lemma ValueBegins(f: Core)
    requires Going(f) && f.slice.Closed? && f.p.state == Head(HeaderValueDiscardWs) && Unknown(f.p.hstate)
    ensures
      var d := Run(f, "b" + "c").c;
      && ReadsHead(f, "b" + "c", d.p, d.slice, [])
      && d.p.state == Head(HeaderValue) && d.p.hstate.General? && d.skipping
  {
    hide Run, Step, Transition, Unknown, Clean;
    UnknownStarts(f.p, f.skipping, 'b');
    var q := f.p.(hstate := General, index := 0, state := Head(HeaderValue));
    ReadsByte(f, 'b', ToMarking(f.p.(hstate := General, index := 0), Head(HeaderValue), Value));
    var g := Run(f, "b").c;
    GeneralByteIs(g.p, g.skipping, 'c');
    ReadsByte(g, 'c', Stay(g.p).(skipping := true));
    var none: seq<Event> := [];
    assert none + none == none;
    ReadsHeadBoth(f, "b", q, Open(Value, "b"), none, "c", q, Open(Value, "b" + "c"), none);
    GeneralStep(g, 'c');
  }

  /** Inside of the value. */
  lemma ValueIsReached(c: Core)
    requires Going(c) && c.p.state == Idle(StartReq) && c.slice.Closed?
    ensures
      var d := Run(c, HEAD_OF_VALUE).c;
      && ReadsHead(c, HEAD_OF_VALUE, d.p, d.slice, [MessageBegin] + [Data(Url, "/")] + [Data(Field, "A")])
      && d.p.state == Head(HeaderValue) && d.p.hstate.General? && d.skipping
  {
    hide Run, Clean, Unknown;
    ValueIsNear(c);
    var front := "GET / HTTP/1.1\r\n" + "A:" + " ";
    var f := Run(c, front).c;
    ValueBegins(f);
    var told := [MessageBegin] + [Data(Url, "/")] + [Data(Field, "A")];
    var d := Run(f, "b" + "c").c;
    ReadsHeadBoth(c, front, f.p, Closed, told, "b" + "c", d.p, d.slice, []);
    assert told + [] == told;
    assert front + ("b" + "c") == front + "b" + "c";
  }

  /** Such bytes can be met: a request that one call takes, and two calls refuse. */
  lemma HiddenByteIsMet()
    ensures TakesWhole(Init(REQUEST), 0, HEAD_OF_VALUE + [CONTROL])
    ensures !Feed(Init(REQUEST), 0, [HEAD_OF_VALUE, [CONTROL]]).ok
  {
    hide Run, Inv, Step, Transition, Feed;
    var p, a := Init(REQUEST), HEAD_OF_VALUE;
    var c := Begin(p, 0);
    ValueIsReached(c);
    var d := Run(c, a).c;
    ShortIsNotOver(c, a + [CONTROL]);
    GeneralStep(d, CONTROL);
    RunAppend(c, a, [CONTROL]);
    var r := Call(p, 0, a);
    DirtyIsRefused(Begin(r.c.p, r.c.nread), [CONTROL]);
    if Feed(p, 0, [a, [CONTROL]]).ok {
      TwoAreFed(p, 0, a, [CONTROL]);
    }
  }

  // ---- Names that are cut ----

  lemma {:induction false} NamesAreTracked(w: string)
    requires IsName(w)
    ensures Tracked(LowerName(w))
    decreases |w|
  {
    hide NameState, NameIndex, IsToken, TokenOf, CountsFieldLetters;
    var k := |w| - 1;
    var c := TokenOf(w[k]);
    assert w[k] in w && forall x <- w[..k] :: x in w;
    TokensAreNotNul(w[k]);
    if k == 0 {
      assert LowerName(w) == [c];
      OneLetterIsTracked(c);
    } else {
      NamesAreTracked(w[..k]);
      var v := LowerName(w[..k]);
      assert LowerName(w) == v + [c];
      NextLetterOfName(v, c);
      NextIndexOfName(v, c);
    }
  }

  lemma OneLetterIsTracked(c: char)
    ensures Tracked([c])
  {
    hide NameState;
  }

  /** The parser is where a header may begin, and `a + b` is no second Content-Length. */
  predicate MayCut(p: Parser, n: nat, a: string, b: string) {
    && Ready(p, n) && AtField(p) && IsName(a) && IsName(b) && IsName(a + b)
    && !AsField(p).flags.contentLength && n + |a| + |b| + 2 <= MAX_HEADER_SIZE
  }

  lemma AtFieldIsClosed(p: Parser, n: nat)
    requires AtField(p) && p.errno == OK
    ensures Going(Begin(p, n)) && Begin(p, n).slice.Closed? && AsField(p).errno == OK
  {
  }

  lemma WholeNameIsTold(p: Parser, n: nat, a: string, b: string)
    requires MayCut(p, n, a, b)
    ensures Call(p, n, a + b + ":").events == Owed(p) + [Data(Field, a + b)]
  {
    hide Run, Inv, IsToken, LowerName, NameState, NameIndex, NamesLength, Owed, AtField, AsField;
    var c := Begin(p, n);
    AtFieldIsClosed(p, n);
    NameIsRead(c, a + b);
    var told := Owed(p) + [Data(Field, a + b)];
    assert told + [] == told;
  }

  lemma FirstHalfIsTold(p: Parser, n: nat, a: string, b: string)
    requires MayCut(p, n, a, b)
    ensures
      var r := Call(p, n, a);
      && r.events == Owed(p) + [Data(Field, a)] && r.c.p == InName(AsField(p), LowerName(a))
      && r.used == |a| && Succeeds(p, n, a) && !r.c.halted && r.c.nread <= n + |a| + 1
  {
    hide Run, Inv, IsToken, LowerName, NameState, NameIndex, NamesLength, Owed, AtField, AsField;
    var c := Begin(p, n);
    AtFieldIsClosed(p, n);
    NameIsMarked(c, a);
  }

  lemma SecondHalfIsTold(p: Parser, n: nat, a: string, b: string, m: nat)
    requires MayCut(p, n, a, b) && m <= n + |a| + 1
    ensures Call(InName(AsField(p), LowerName(a)), m, b + ":").events == [Data(Field, b)]
  {
    hide Run, Inv, IsToken, LowerName, NameState, NameIndex, NamesLength, Transition, OnField, AtField, AsField;
    AtFieldIsClosed(p, n);
    var v, s := LowerName(a), AsField(p);
    NamesAreTracked(a);
    var c := Begin(InName(s, v), m);
    RestOfName(c, s, v, b);
    var q := InName(s, v + LowerName(b));
    assert "" + b == b;
    var d := Run(c, b).c;
    SpacesAreNoTokens();
    OnFieldIs(d.p, d.skipping, ':');
    ColonEnds(q);
    ReadsByte(d, ':', ToFlushing(q, Head(HeaderValueDiscardWs), Field));
    ReadsHeadBoth(c, b, q, d.slice, [], ":", q.(state := Head(HeaderValueDiscardWs)), Closed, [Data(Field, b)]);
    assert [] + [Data(Field, b)] == [Data(Field, b)] == [Data(Field, b)] + [];
  }

  lemma ColonEnds(p: Parser)
    ensures OnField(p, ':') == ToFlushing(p, Head(HeaderValueDiscardWs), Field)
  {
  }

  /** The bytes themselves: whatever the name and wherever the cut, a name in two pieces becomes two headers. */
  lemma CutNameIsTwoHeaders(p: Parser, n: nat, a: string, b: string, headers: seq<Header>)
    requires MayCut(p, n, a, b)
    ensures
      var before := HeadersHeard(headers, Owed(p));
      && HeadersHeard(headers, Call(p, n, a + b + ":").events) == before + [Header(a + b, "")]
      && HeadersHeard(headers, Feed(p, n, [a, b + ":"]).events) == before + [Header(a, ""), Header(b, "")]
  {
    WholeNameIsTold(p, n, a, b);
    FirstHalfIsTold(p, n, a, b);
    var x := Call(p, n, a);
    SecondHalfIsTold(p, n, a, b, x.c.nread);
    hide Run, Inv, IsName, LowerName, NameState, NameIndex, NamesLength, Call, Succeeds, Owed, AtField, AsField,
         HeadersHeard;
    var cuts := [a, b + ":"];
    assert cuts[1..] == [b + ":"] && cuts[1..][1..] == [];
    var y := Call(x.c.p, x.c.nread, b + ":");
    assert Feed(x.c.p, x.c.nread, cuts[1..]).events == y.events by {
      OneCallIsFed(x.c.p, x.c.nread, b + ":");
    }
    var before := HeadersHeard(headers, Owed(p));
    assert Feed(p, n, cuts).events == Owed(p) + [Data(Field, a)] + [Data(Field, b)];
    HeadersHeardAppend(headers, Owed(p), [Data(Field, a + b)]);
    NameIsHeard(before, a + b);
    HeadersHeardAppend(headers, Owed(p) + [Data(Field, a)], [Data(Field, b)]);
    HeadersHeardAppend(headers, Owed(p), [Data(Field, a)]);
    NameIsHeard(before, a);
    NameIsHeard(before + [Header(a, "")], b);
    assert before + [Header(a, "")] + [Header(b, "")] == before + [Header(a, ""), Header(b, "")];
  }

  lemma NameIsHeard(headers: seq<Header>, name: string)
    ensures HeadersHeard(headers, [Data(Field, name)]) == headers + [Header(name, "")]
  {
    assert [Data(Field, name)][1..] == [];
  }

  lemma OneCallIsFed(p: Parser, n: nat, data: string)
    ensures Feed(p, n, [data]).events == Call(p, n, data).events
  {
    hide Call, Succeeds;
    assert [data][1..] == [];
    assert Call(p, n, data).events + [] == Call(p, n, data).events;
  }
}
