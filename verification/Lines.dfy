/** The first line of a message: URL, version and status. */
module Lines {
  import opened Chars
  import opened ParserTypes
  import opened Transitions
  import opened Machine
  import opened Runs
  import opened Lengths

  // ---- The URL ----

  /** The URL automaton over a text. */
  function UrlRun(u: UrlState, s: string): UrlState
    decreases |s|
  {
    if s == "" then u else UrlRun(ParseUrlChar(u, s[0]), s[1..])
  }

  /** The automaton gets through from `u`, to where a URL may end. */
  predicate IsUrlFrom(u: UrlState, s: string) {
    !UrlMustGoOn(UrlRun(u, s))
  }

  /** The automaton begins behind the schema if the method is CONNECT. */
  function UrlStart(m: Method): UrlState {
    if m == CONNECT then ServerStart else BeforeUrl
  }

  /** A URL that a request line may hold, for any method but CONNECT. */
  predicate IsUrl(s: string) {
    IsUrlFrom(BeforeUrl, s)
  }

  lemma {:induction false} DeadStaysDead(s: string)
    ensures UrlRun(UrlDead, s) == UrlDead
    decreases |s|
  {
    if s != "" {
      DeadStaysDead(s[1..]);
    }
  }

  /** A byte on which the automaton lives is no space and no line end. */
  lemma LivingByte(u: UrlState, ch: char)
    requires !ParseUrlChar(u, ch).UrlDead?
    ensures ch != ' ' && ch != CR && ch != LF
  {
  }

  lemma OnReqUrlIs(p: Parser, u: UrlState, skipping: bool, ch: char)
    requires p.state == Line(ReqUrl(u)) && !ParseUrlChar(u, ch).UrlDead?
    ensures Transition(p, skipping, ch) == To(p, Line(ReqUrl(ParseUrlChar(u, ch))))
  {
    LivingByte(u, ch);
    hide ParseUrlChar;
  }

  lemma {:induction false} RestOfUrl(c: Core, u: UrlState, s: string)
    requires Going(c) && c.p.state == Line(ReqUrl(u)) && c.slice.Open? && !UrlRun(u, s).UrlDead?
    ensures ReadsHead(c, s, c.p.(state := Line(ReqUrl(UrlRun(u, s)))), Open(c.slice.kind, c.slice.bytes + s), [])
    decreases |s|
  {
    hide Transition, ParseUrlChar, Run;
    if s == "" {
      assert c.slice.bytes + s == c.slice.bytes;
      ReadsNothing(c);
    } else {
      var ch, rest := s[0], s[1..];
      var slice := Open(c.slice.kind, c.slice.bytes + [ch]);
      assert s == [ch] + rest && c.slice.bytes + s == slice.bytes + rest;
      var next := ParseUrlChar(u, ch);
      DeadStaysDead(rest);
      OnReqUrlIs(c.p, u, c.skipping, ch);
      var q := c.p.(state := Line(ReqUrl(next)));
      ReadsByte(c, ch, Stay(q));
      RestOfUrl(Run(c, [ch]).c, next, rest);
      ReadsHeadBoth(c, [ch], q, slice, [], rest,
                    c.p.(state := Line(ReqUrl(UrlRun(u, s)))), Open(c.slice.kind, c.slice.bytes + s), []);
    }
  }

  lemma UrlStarts(p: Parser, skipping: bool, ch: char)
    requires p.state == Line(ReqSpacesBeforeUrl) && !ParseUrlChar(UrlStart(p.verb), ch).UrlDead?
    ensures Transition(p, skipping, ch) == ToMarking(p, Line(ReqUrl(ParseUrlChar(UrlStart(p.verb), ch))), Url)
  {
    LivingByte(UrlStart(p.verb), ch);
    hide ParseUrlChar;
  }

  lemma UrlEnds(p: Parser, u: UrlState, skipping: bool)
    requires p.state == Line(ReqUrl(u)) && !UrlMustGoOn(u)
    ensures Transition(p, skipping, ' ') == ToFlushing(p, Line(ReqHttpStart), Url)
  {
  }

  /** The URL of a request line and the space after it. */
  lemma UrlIsRead(c: Core, s: string)
    requires Going(c) && c.p.state == Line(ReqSpacesBeforeUrl) && c.slice.Closed?
    requires IsUrlFrom(UrlStart(c.p.verb), s)
    ensures ReadsHead(c, s + " ", c.p.(state := Line(ReqHttpStart)), Closed, [Data(Url, s)])
  {
    hide Transition, ParseUrlChar, Run, Step;
    var ch, rest := s[0], s[1..];
    var u := ParseUrlChar(UrlStart(c.p.verb), ch);
    var v := UrlRun(u, rest);
    assert s == [ch] + rest;
    DeadStaysDead(rest);
    UrlStarts(c.p, c.skipping, ch);
    ReadsByte(c, ch, ToMarking(c.p, Line(ReqUrl(u)), Url));
    var d := Run(c, [ch]).c;
    RestOfUrl(d, u, rest);
    ReadsHeadBoth(c, [ch], d.p, d.slice, [], rest, c.p.(state := Line(ReqUrl(v))), Open(Url, s), []);
    var e := Run(c, s).c;
    UrlEnds(e.p, v, e.skipping);
    ReadsByte(e, ' ', ToFlushing(e.p, Line(ReqHttpStart), Url));
    ReadsHeadBoth(c, s, e.p, e.slice, [], " ", c.p.(state := Line(ReqHttpStart)), Closed, [Data(Url, s)]);
  }

  // ---- Numbers ----

  /** The decimal text of a number, as the streams of the printers write it. */
  function Text(n: nat): (s: string)
    ensures s != "" && forall ch <- s :: IsNum(ch)
    ensures n > 0 ==> s[0] != '0'
  {
    var digit := [('0' as int + n % 10) as char];
    if n < 10 then digit else Text(n / 10) + digit
  }

  lemma {:induction false} DecimalAppend(n: nat, a: string, ch: char)
    requires IsLengthText(a + [ch]) && IsNum(ch)
    ensures IsLengthText(a) && Decimal(n, a + [ch]) == Decimal(n, a) * 10 + DigitOf(ch)
    decreases |a|
  {
    assert forall x <- a :: x in a + [ch];
    if a == "" {
      assert (a + [ch])[1..] == "";
    } else {
      assert (a + [ch])[1..] == a[1..] + [ch];
      assert forall x <- a[1..] + [ch] :: x in a + [ch];
      DecimalAppend(if a[0] == ' ' then n else n * 10 + DigitOf(a[0]), a[1..], ch);
    }
  }

  /** Reading a printed number gives the number. */
  lemma {:induction false} TextIsDecimal(n: nat)
    ensures IsLengthText(Text(n)) && Decimal(0, Text(n)) == n
  {
    if n < 10 {
      assert Text(n)[1..] == "";
    } else {
      TextIsDecimal(n / 10);
      DecimalAppend(0, Text(n / 10), ('0' as int + n % 10) as char);
    }
  }

  lemma DecimalStep(n: nat, v: string)
    requires IsLengthText(v) && v != "" && IsNum(v[0])
    ensures IsLengthText(v[1..]) && Decimal(n, v) == Decimal(n * 10 + DigitOf(v[0]), v[1..])
    ensures n * 10 + DigitOf(v[0]) <= Decimal(n, v)
  {
    assert v[0] in v && forall ch <- v[1..] :: ch in v;
    DecimalGrows(n * 10 + DigitOf(v[0]), v[1..]);
  }

  /** The numbers of the first line that are read digit by digit. */
  datatype Part = Major | Minor | Code

  function Get(p: Parser, k: Part): nat {
    match k case Major => p.major case Minor => p.minor case Code => p.status
  }

  function Set(p: Parser, k: Part, n: nat): Parser {
    match k case Major => p.(major := n) case Minor => p.(minor := n) case Code => p.(status := n)
  }

  /** The states in which further digits of a number are read. */
  predicate InNumber(s: State, k: Part) {
    match k
    case Major => s == Line(ReqVersion(HttpMajor)) || s == Line(ResVersion(HttpMajor))
    case Minor => s == Line(ReqVersion(HttpMinor)) || s == Line(ResVersion(HttpMinor))
    case Code => s == Line(ResStatus(StatusCode))
  }

  /** The states in which the first digit is read. */
  predicate BeforeNumber(s: State, k: Part, t: State) {
    match k
    case Major =>
      || (s == Line(ReqVersion(FirstHttpMajor)) && t == Line(ReqVersion(HttpMajor)))
      || (s == Line(ResVersion(FirstHttpMajor)) && t == Line(ResVersion(HttpMajor)))
    case Minor =>
      || (s == Line(ReqVersion(FirstHttpMinor)) && t == Line(ReqVersion(HttpMinor)))
      || (s == Line(ResVersion(FirstHttpMinor)) && t == Line(ResVersion(HttpMinor)))
    case Code => s == Line(ResStatus(FirstStatusCode)) && t == Line(ResStatus(StatusCode))
  }

  lemma NumberByte(p: Parser, k: Part, skipping: bool, ch: char)
    requires InNumber(p.state, k) && IsNum(ch) && Get(p, k) * 10 + DigitOf(ch) <= 999
    ensures Transition(p, skipping, ch) == Stay(Set(p, k, Get(p, k) * 10 + DigitOf(ch)))
  {
  }

  lemma NumberStarts(p: Parser, k: Part, t: State, skipping: bool, ch: char)
    requires BeforeNumber(p.state, k, t) && IsNum(ch) && (p.state == Line(ReqVersion(FirstHttpMajor)) ==> ch != '0')
    ensures Transition(p, skipping, ch) == To(Set(p, k, DigitOf(ch)), t)
  {
  }

  lemma {:induction false} RestOfNumber(c: Core, k: Part, v: string)
    requires Going(c) && InNumber(c.p.state, k) && c.slice.Closed?
    requires IsLengthText(v) && ' ' !in v && Decimal(Get(c.p, k), v) <= 999
    ensures ReadsHead(c, v, Set(c.p, k, Decimal(Get(c.p, k), v)), Closed, [])
    decreases |v|
  {
    hide Transition, Run, Step, InNumber, IsNum;
    if v == "" {
      ReadsNothing(c);
    } else {
      var ch, rest := v[0], v[1..];
      var n := Get(c.p, k);
      assert ch in v && (forall x <- rest :: x in v) && v == [ch] + rest;
      DecimalStep(n, v);
      NumberByte(c.p, k, c.skipping, ch);
      ByteInNumber(c.p, k);
      SetKeeps(c.p, k, n * 10 + DigitOf(ch));
      var q := Set(c.p, k, n * 10 + DigitOf(ch));
      ReadsByte(c, ch, Stay(q));
      RestOfNumber(Run(c, [ch]).c, k, rest);
      ReadsHeadBoth(c, [ch], q, Closed, [], rest, Set(c.p, k, Decimal(n, v)), Closed, []);
    }
  }

  lemma SetKeeps(p: Parser, k: Part, n: nat)
    ensures Get(Set(p, k, n), k) == n && Set(p, k, n).state == p.state && Set(p, k, n).errno == p.errno
    ensures forall m :: Set(Set(p, k, n), k, m) == Set(p, k, m)
  {
  }

  /** A printed number of at most three digits is read. */
  lemma NumberIsRead(c: Core, k: Part, t: State, n: nat)
    requires Going(c) && BeforeNumber(c.p.state, k, t) && InNumber(t, k) && c.slice.Closed?
    requires n <= 999 && (c.p.state == Line(ReqVersion(FirstHttpMajor)) ==> n > 0)
    ensures ReadsHead(c, Text(n), Set(c.p, k, n).(state := t), Closed, [])
  {
    hide Transition, Run, Step, InNumber, BeforeNumber, IsNum, Text, Decimal;
    var v := Text(n);
    TextIsDecimal(n);
    var ch, rest := v[0], v[1..];
    assert ch in v && (forall x <- rest :: x in v) && v == [ch] + rest;
    NoSpaces(rest);
    DecimalStep(0, v);
    NumberStarts(c.p, k, t, c.skipping, ch);
    SetKeeps(c.p, k, DigitOf(ch));
    SetState(c.p, k, DigitOf(ch), n, t);
    var q := Set(c.p, k, DigitOf(ch)).(state := t);
    TextStartsWithoutZero(n);
    ByteBeforeNumber(c.p, k, t);
    ReadsByte(c, ch, To(Set(c.p, k, DigitOf(ch)), t));
    RestOfNumber(Run(c, [ch]).c, k, rest);
    ReadsHeadBoth(c, [ch], q, Closed, [], rest, Set(c.p, k, n).(state := t), Closed, []);
  }

  lemma NoSpaces(v: string)
    requires forall ch <- v :: IsNum(ch)
    ensures ' ' !in v
  {
  }

  lemma TextStartsWithoutZero(n: nat)
    ensures n > 0 ==> Text(n)[0] != '0'
  {
  }

  lemma ByteBeforeNumber(p: Parser, k: Part, t: State)
    requires BeforeNumber(p.state, k, t)
    ensures ParsingHeader(p.state) && p.state != Head(HeaderValue)
  {
  }

  lemma ByteInNumber(p: Parser, k: Part)
    requires InNumber(p.state, k)
    ensures ParsingHeader(p.state) && p.state != Head(HeaderValue)
  {
  }

  lemma SetState(p: Parser, k: Part, m: nat, n: nat, t: State)
    ensures Set(Set(p, k, m).(state := t), k, n) == Set(p, k, n).(state := t)
    ensures Get(Set(p, k, m).(state := t), k) == m
  {
  }

  // ---- Versions ----

  /** The states behind the letters "H", "HT" and so on of a version. */
  function Letters(i: nat): (v: VersionState)
    requires i <= 4
  {
    match i
    case 0 => VersionH
    case 1 => VersionHT
    case 2 => VersionHTT
    case 3 => VersionHTTP
    case _ => FirstHttpMajor
  }

  function InVersion(request: bool, v: VersionState): State {
    Line(if request then ReqVersion(v) else ResVersion(v))
  }

  const REST_OF_HTTP := "TTP/"

  lemma LetterIsRead(p: Parser, request: bool, i: nat, skipping: bool)
    requires i < 4 && p.state == InVersion(request, Letters(i))
    ensures Transition(p, skipping, REST_OF_HTTP[i]) == To(p, InVersion(request, Letters(i + 1)))
  {
  }

  lemma {:induction false} HttpIsRead(c: Core, request: bool, i: nat)
    requires Going(c) && i <= 4 && c.p.state == InVersion(request, Letters(i)) && c.slice.Closed?
    ensures ReadsHead(c, REST_OF_HTTP[i..], c.p.(state := InVersion(request, FirstHttpMajor)), Closed, [])
    decreases 4 - i
  {
    hide Transition, Run, Step, Letters;
    var done := c.p.(state := InVersion(request, FirstHttpMajor));
    LettersEnd();
    if i == 4 {
      assert REST_OF_HTTP[i..] == "";
      ReadsNothing(c);
    } else {
      var ch := REST_OF_HTTP[i];
      LetterIsRead(c.p, request, i, c.skipping);
      var q := c.p.(state := InVersion(request, Letters(i + 1)));
      ReadsByte(c, ch, Stay(q));
      HttpIsRead(Run(c, [ch]).c, request, i + 1);
      assert REST_OF_HTTP[i..] == [ch] + REST_OF_HTTP[i + 1..];
      ReadsHeadBoth(c, [ch], q, Closed, [], REST_OF_HTTP[i + 1..], done, Closed, []);
    }
  }

  lemma LettersEnd()
    ensures Letters(4) == FirstHttpMajor && Letters(0) == VersionH
  {
  }

  lemma DotIsRead(p: Parser, request: bool, skipping: bool)
    requires p.state == InVersion(request, HttpMajor)
    ensures Transition(p, skipping, '.') == To(p, InVersion(request, FirstHttpMinor))
  {
  }

  /** "TTP/", and the two numbers of a version. */
  lemma VersionIsRead(c: Core, request: bool, major: nat, minor: nat)
    requires Going(c) && c.p.state == InVersion(request, VersionH) && c.slice.Closed?
    requires major <= 999 && minor <= 999 && (request ==> major > 0)
    ensures ReadsHead(c, "TTP/" + Text(major) + "." + Text(minor),
                      c.p.(state := InVersion(request, HttpMinor), major := major, minor := minor), Closed, [])
  {
    hide Clean, Transition, Run, Step, Text;
    LettersEnd();
    HttpIsRead(c, request, 0);
    assert REST_OF_HTTP[0..] == "TTP/";
    var d := Run(c, "TTP/").c;
    NumberIsRead(d, Major, InVersion(request, HttpMajor), major);
    var p := d.p.(state := InVersion(request, HttpMajor), major := major);
    ReadsHeadBoth(c, "TTP/", d.p, Closed, [], Text(major), p, Closed, []);
    var e := Run(c, "TTP/" + Text(major)).c;
    DotIsRead(p, request, e.skipping);
    var q := p.(state := InVersion(request, FirstHttpMinor));
    ReadsByte(e, '.', To(p, InVersion(request, FirstHttpMinor)));
    ReadsHeadBoth(c, "TTP/" + Text(major), p, Closed, [], ".", q, Closed, []);
    var f := Run(c, "TTP/" + Text(major) + ".").c;
    NumberIsRead(f, Minor, InVersion(request, HttpMinor), minor);
    ReadsHeadBoth(c, "TTP/" + Text(major) + ".", q, Closed, [], Text(minor),
                  c.p.(state := InVersion(request, HttpMinor), major := major, minor := minor), Closed, []);
  }

  // ---- The two lines ----

  lemma HttpStarts(p: Parser, skipping: bool)
    requires p.state == Line(ReqHttpStart)
    ensures Transition(p, skipping, 'H') == To(p, InVersion(true, VersionH))
  {
  }

  lemma ReqLineEnds(p: Parser, skipping: bool)
    ensures p.state == Line(ReqVersion(HttpMinor)) ==> Transition(p, skipping, CR) == To(p, Line(ReqLineAlmostDone))
    ensures p.state == Line(ReqLineAlmostDone) ==> Transition(p, skipping, LF) == To(p, Head(HeaderFieldStart))
  {
  }

  /** The version of a request and the end of its line. */
  lemma ReqVersionIsRead(c: Core, major: nat, minor: nat)
    requires Going(c) && c.p.state == Line(ReqHttpStart) && c.slice.Closed?
    requires 0 < major <= 999 && minor <= 999
    ensures ReadsHead(c, "HTTP/" + Text(major) + "." + Text(minor) + "\r\n",
                      c.p.(state := Head(HeaderFieldStart), major := major, minor := minor), Closed, [])
  {
    hide Clean, Transition, Run, Step, Text;
    HttpStarts(c.p, c.skipping);
    ReadsByte(c, 'H', To(c.p, InVersion(true, VersionH)));
    var d := Run(c, "H").c;
    VersionIsRead(d, true, major, minor);
    var version := "TTP/" + Text(major) + "." + Text(minor);
    var p := c.p.(state := InVersion(true, HttpMinor), major := major, minor := minor);
    ReadsHeadBoth(c, "H", d.p, Closed, [], version, p, Closed, []);
    var e := Run(c, "H" + version).c;
    ReqLineEnds(p, e.skipping);
    ReadsByte(e, CR, To(p, Line(ReqLineAlmostDone)));
    var q := p.(state := Line(ReqLineAlmostDone));
    var f := Run(e, [CR]).c;
    ReqLineEnds(q, f.skipping);
    ReadsByte(f, LF, To(q, Head(HeaderFieldStart)));
    var r := q.(state := Head(HeaderFieldStart));
    ReadsHeadBoth(e, [CR], q, Closed, [], [LF], r, Closed, []);
    ReadsHeadBoth(c, "H" + version, p, Closed, [], [CR] + [LF], r, Closed, []);
    assert "H" + version + ([CR] + [LF]) == "HTTP/" + Text(major) + "." + Text(minor) + "\r\n";
  }

  lemma ResponseStarts(p: Parser, skipping: bool)
    requires p.state == Idle(StartRes)
    ensures Transition(p, skipping, 'H')
      == ToTelling(p.(flags := NO_FLAGS, contentLength := NO_LENGTH), InVersion(false, VersionH), [MessageBegin])
  {
  }

  lemma SpaceInStatus(p: Parser, skipping: bool)
    ensures p.state == Line(ResVersion(HttpMinor)) ==>
      Transition(p, skipping, ' ') == To(p, Line(ResStatus(FirstStatusCode)))
    ensures p.state == Line(ResStatus(StatusCode)) ==>
      Transition(p, skipping, ' ') == To(p, Line(ResStatus(StatusStart)))
  {
  }

  lemma ReasonByte(p: Parser, skipping: bool, ch: char)
    requires ch != CR && ch != LF
    ensures p.state == Line(ResStatus(StatusStart)) ==>
      Transition(p, skipping, ch) == ToMarking(p.(index := 0), Line(ResStatus(StatusText)), Status(p.status))
    ensures p.state == Line(ResStatus(StatusText)) ==> Transition(p, skipping, ch) == Stay(p)
  {
  }

  lemma ReasonEnds(p: Parser, skipping: bool)
    ensures p.state == Line(ResStatus(StatusText)) ==>
      Transition(p, skipping, CR) == ToFlushing(p, Line(ResStatus(StatusLineAlmostDone)), Status(p.status))
    ensures p.state == Line(ResStatus(StatusLineAlmostDone)) ==>
      Transition(p, skipping, LF) == To(p, Head(HeaderFieldStart))
  {
  }

  lemma {:induction false} RestOfReason(c: Core, v: string)
    requires Going(c) && c.p.state == Line(ResStatus(StatusText)) && c.slice.Open? && CR !in v && LF !in v
    ensures ReadsHead(c, v, c.p, Open(c.slice.kind, c.slice.bytes + v), [])
    decreases |v|
  {
    hide Transition, Run, Step;
    if v == "" {
      assert c.slice.bytes + v == c.slice.bytes;
      ReadsNothing(c);
    } else {
      var ch, rest := v[0], v[1..];
      var slice := Open(c.slice.kind, c.slice.bytes + [ch]);
      assert ch in v && (forall x <- rest :: x in v) && v == [ch] + rest;
      assert c.slice.bytes + v == slice.bytes + rest;
      ReasonByte(c.p, c.skipping, ch);
      ReadsByte(c, ch, Stay(c.p));
      RestOfReason(Run(c, [ch]).c, rest);
      ReadsHeadBoth(c, [ch], c.p, slice, [], rest, c.p, Open(c.slice.kind, c.slice.bytes + v), []);
    }
  }

  /** The reason of a status line and its end. */
  lemma ReasonIsRead(c: Core, reason: string)
    requires Going(c) && c.p.state == Line(ResStatus(StatusStart)) && c.slice.Closed?
    requires reason != "" && CR !in reason && LF !in reason
    ensures ReadsHead(c, reason + "\r\n", c.p.(state := Head(HeaderFieldStart), index := 0), Closed,
                      [Data(Status(c.p.status), reason)])
  {
    hide Clean, Transition, Run, Step;
    var ch, rest := reason[0], reason[1..];
    assert ch in reason && (forall x <- rest :: x in reason) && reason == [ch] + rest;
    var kind := Status(c.p.status);
    ReasonByte(c.p, c.skipping, ch);
    ReadsByte(c, ch, ToMarking(c.p.(index := 0), Line(ResStatus(StatusText)), kind));
    var d := Run(c, [ch]).c;
    RestOfReason(d, rest);
    ReadsHeadBoth(c, [ch], d.p, d.slice, [], rest, d.p, Open(kind, reason), []);
    var e := Run(c, reason).c;
    ReasonEnds(e.p, e.skipping);
    var q := e.p.(state := Line(ResStatus(StatusLineAlmostDone)));
    ReadsByte(e, CR, ToFlushing(e.p, Line(ResStatus(StatusLineAlmostDone)), kind));
    var f := Run(e, [CR]).c;
    ReasonEnds(q, f.skipping);
    ReadsByte(f, LF, To(q, Head(HeaderFieldStart)));
    var r := q.(state := Head(HeaderFieldStart));
    ReadsHeadBoth(e, [CR], q, Closed, [Data(kind, reason)], [LF], r, Closed, []);
    ReadsHeadBoth(c, reason, e.p, e.slice, [], [CR] + [LF], r, Closed, [Data(kind, reason)]);
    assert reason + ([CR] + [LF]) == reason + "\r\n";
  }

  /** The parser behind a status line. */
  function AfterStatus(p: Parser, major: nat, minor: nat, code: nat): Parser {
    p.(flags := NO_FLAGS, contentLength := NO_LENGTH, state := Head(HeaderFieldStart), index := 0,
       major := major, minor := minor, status := code)
  }

  /** The version of a response and the space behind it. */
  lemma ResVersionIsRead(c: Core, major: nat, minor: nat)
    requires Going(c) && c.p.state == Idle(StartRes) && c.slice.Closed?
    requires major <= 999 && minor <= 999
    ensures
      ReadsHead(c, "HTTP/" + Text(major) + "." + Text(minor) + " ",
                c.p.(flags := NO_FLAGS, contentLength := NO_LENGTH, state := Line(ResStatus(FirstStatusCode)),
                     major := major, minor := minor),
                Closed, [MessageBegin])
  {
    hide Clean, Transition, Run, Step, Text;
    var p0 := c.p.(flags := NO_FLAGS, contentLength := NO_LENGTH, state := InVersion(false, VersionH));
    ResponseStarts(c.p, c.skipping);
    ReadsByte(c, 'H', ToTelling(p0, p0.state, [MessageBegin]));
    var d := Run(c, "H").c;
    VersionIsRead(d, false, major, minor);
    var version := "TTP/" + Text(major) + "." + Text(minor);
    var p1 := p0.(state := InVersion(false, HttpMinor), major := major, minor := minor);
    ReadsHeadBoth(c, "H", p0, Closed, [MessageBegin], version, p1, Closed, []);
    var e := Run(c, "H" + version).c;
    SpaceInStatus(p1, e.skipping);
    var p2 := p1.(state := Line(ResStatus(FirstStatusCode)));
    ReadsByte(e, ' ', To(p1, p2.state));
    ReadsHeadBoth(c, "H" + version, p1, Closed, [MessageBegin], " ", p2, Closed, []);
    assert "H" + version + " " == "HTTP/" + Text(major) + "." + Text(minor) + " ";
  }

  /** The code and the space behind it. */
  lemma CodeIsRead(c: Core, code: nat)
    requires Going(c) && c.p.state == Line(ResStatus(FirstStatusCode)) && c.slice.Closed? && code <= 999
    ensures ReadsHead(c, Text(code) + " ", c.p.(state := Line(ResStatus(StatusStart)), status := code), Closed, [])
  {
    hide Transition, Run, Step, Text;
    NumberIsRead(c, Code, Line(ResStatus(StatusCode)), code);
    var p := c.p.(state := Line(ResStatus(StatusCode)), status := code);
    var d := Run(c, Text(code)).c;
    SpaceInStatus(p, d.skipping);
    var q := p.(state := Line(ResStatus(StatusStart)));
    ReadsByte(d, ' ', To(p, q.state));
    ReadsHeadBoth(c, Text(code), p, Closed, [], " ", q, Closed, []);
  }

  /** A status line with a reason. */
  lemma StatusLineIsRead(c: Core, major: nat, minor: nat, code: nat, reason: string)
    requires Going(c) && c.p.state == Idle(StartRes) && c.slice.Closed?
    requires major <= 999 && minor <= 999 && code <= 999
    requires reason != "" && CR !in reason && LF !in reason
    ensures
      ReadsHead(c, "HTTP/" + Text(major) + "." + Text(minor) + " " + Text(code) + " " + reason + "\r\n",
                AfterStatus(c.p, major, minor, code), Closed, [MessageBegin] + [Data(Status(code), reason)])
  {
    hide Clean, Run, Text;
    ResVersionIsRead(c, major, minor);
    var version := "HTTP/" + Text(major) + "." + Text(minor) + " ";
    var d := Run(c, version).c;
    CodeIsRead(d, code);
    var e := Run(d, Text(code) + " ").c;
    ReasonIsRead(e, reason);
    var p, told := AfterStatus(c.p, major, minor, code), [Data(Status(code), reason)];
    ReadsHeadBoth(d, Text(code) + " ", e.p, Closed, [], reason + "\r\n", p, Closed, told);
    ReadsHeadBoth(c, version, d.p, Closed, [MessageBegin], Text(code) + " " + (reason + "\r\n"), p, Closed, told);
    assert version + (Text(code) + " " + (reason + "\r\n")) == version + Text(code) + " " + reason + "\r\n";
  }
}
