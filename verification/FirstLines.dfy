/** First lines in all the forms that are taken: more spaces, no version, no reason, line ends in front. */
module FirstLines {
  import opened Chars
  import opened Alphabets
  import opened ParserTypes
  import opened Transitions
  import opened Machine
  import opened Runs
  import opened Lengths
  import opened Lines
  import opened Methods
  import opened Connections
  import opened Segmentation
  import opened Requests

  // ---- Spaces ----

  /** In front of the URL, of the version and of the status code, any number of spaces may stand. */
  predicate SkipsSpaces(s: State) {
    s == Line(ReqSpacesBeforeUrl) || s == Line(ReqHttpStart) || s == Line(ResStatus(FirstStatusCode))
  }

  lemma SpaceStays(p: Parser, skipping: bool)
    requires SkipsSpaces(p.state)
    ensures Transition(p, skipping, ' ') == Stay(p)
  {
  }

  lemma {:induction false} SpacesAreRead(c: Core, n: nat)
    requires Going(c) && SkipsSpaces(c.p.state) && c.slice.Closed?
    ensures ReadsHead(c, Spaces(n), c.p, Closed, [])
    decreases n
  {
    hide Transition, Run, Step;
    if n == 0 {
      ReadsNothing(c);
    } else {
      SpaceStays(c.p, c.skipping);
      ReadsByte(c, ' ', Stay(c.p));
      assert [' '] + Spaces(n - 1) == Spaces(n);
      SpacesAreRead(Run(c, [' ']).c, n - 1);
      ReadsHeadBoth(c, [' '], c.p, Closed, [], Spaces(n - 1), c.p, Closed, []);
    }
  }

  /** A request line with more than one space at both places is read as one with one. */
  lemma LooseLineIsRead(c: Core, m: Method, uri: string, major: nat, minor: nat, j: nat, k: nat)
    requires Going(c) && c.p.state == Idle(StartReq) && c.slice.Closed?
    requires IsUrlFrom(UrlStart(m), uri) && 0 < major <= 999 && minor <= 999
    ensures
      var version := "HTTP/" + Text(major) + "." + Text(minor) + "\r\n";
      var line := MethodName(m) + " " + (Spaces(j) + (uri + " " + (Spaces(k) + version)));
      ReadsHead(c, line, AfterRequestLine(c.p, m, major, minor), Closed, [MessageBegin] + [Data(Url, uri)])
  {
    hide Run, Text, MethodName, IsUrlFrom;
    var version := "HTTP/" + Text(major) + "." + Text(minor) + "\r\n";
    var p := AfterRequestLine(c.p, m, major, minor);
    MethodIsRead(c, m);
    var d := Run(c, MethodName(m) + " ").c;
    SpacesAreRead(d, j);
    var e := Run(d, Spaces(j)).c;
    UrlIsRead(e, uri);
    var f := Run(e, uri + " ").c;
    SpacesAreRead(f, k);
    var g := Run(f, Spaces(k)).c;
    ReqVersionIsRead(g, major, minor);
    ReadsHeadBoth(f, Spaces(k), f.p, Closed, [], version, p, Closed, []);
    ReadsHeadBoth(e, uri + " ", f.p, Closed, [Data(Url, uri)], Spaces(k) + version, p, Closed, []);
    ReadsHeadBoth(d, Spaces(j), d.p, Closed, [], uri + " " + (Spaces(k) + version), p, Closed, [Data(Url, uri)]);
    var rest := Spaces(j) + (uri + " " + (Spaces(k) + version));
    ReadsHeadBoth(c, MethodName(m) + " ", d.p, Closed, [MessageBegin], rest, p, Closed, [Data(Url, uri)]);
    assert [Data(Url, uri)] + [] == [Data(Url, uri)];
    assert [] + [Data(Url, uri)] == [Data(Url, uri)];
  }

  // ---- No version ----

  lemma UrlLineEnds(p: Parser, u: UrlState, skipping: bool)
    requires p.state == Line(ReqUrl(u)) && !UrlMustGoOn(u)
    ensures Transition(p, skipping, CR) == ToFlushing(p.(major := 0, minor := 9), Line(ReqLineAlmostDone), Url)
  {
  }

  lemma AlmostDoneEnds(p: Parser, skipping: bool)
    requires p.state == Line(ReqLineAlmostDone)
    ensures Transition(p, skipping, LF) == To(p, Head(HeaderFieldStart))
  {
  }

  /** A URL whose line ends right behind it. */
  lemma LastUrlIsRead(c: Core, s: string)
    requires Going(c) && c.p.state == Line(ReqSpacesBeforeUrl) && c.slice.Closed?
    requires IsUrlFrom(UrlStart(c.p.verb), s)
    ensures
      ReadsHead(c, s + "\r\n", c.p.(state := Head(HeaderFieldStart), major := 0, minor := 9), Closed, [Data(Url, s)])
  {
    hide Transition, ParseUrlChar, Run, Step;
    var ch, rest := s[0], s[1..];
    var u := ParseUrlChar(UrlStart(c.p.verb), ch);
    var v := UrlRun(u, rest);
    assert s == [ch] + rest;
    DeadStaysDead(rest);
    UrlStarts(c.p, c.skipping, ch);
    ReadsByte(c, ch, ToMarking(c.p, Line(ReqUrl(u)), Url));
    var d := Run(c, [ch]).c;
    RestOfUrl(d, u, rest);
    ReadsHeadBoth(c, [ch], d.p, d.slice, [], rest, c.p.(state := Line(ReqUrl(v))), Open(Url, s), []);
    var e := Run(c, s).c;
    var q := e.p.(major := 0, minor := 9, state := Line(ReqLineAlmostDone));
    UrlLineEnds(e.p, v, e.skipping);
    ReadsByte(e, CR, ToFlushing(e.p.(major := 0, minor := 9), Line(ReqLineAlmostDone), Url));
    var f := Run(e, [CR]).c;
    AlmostDoneEnds(q, f.skipping);
    ReadsByte(f, LF, To(q, Head(HeaderFieldStart)));
    var r := q.(state := Head(HeaderFieldStart));
    ReadsHeadBoth(e, [CR], q, Closed, [Data(Url, s)], [LF], r, Closed, []);
    assert "\r\n" == [CR] + [LF];
    ReadsHeadBoth(c, s, e.p, e.slice, [], "\r\n", r, Closed, [Data(Url, s)]);
  }

  /** A request line without a version is one of version 0.9. */
  lemma ShortLineIsRead(c: Core, m: Method, uri: string)
    requires Going(c) && c.p.state == Idle(StartReq) && c.slice.Closed? && IsUrlFrom(UrlStart(m), uri)
    ensures
      var line := MethodName(m) + " " + (uri + "\r\n");
      ReadsHead(c, line, AfterRequestLine(c.p, m, 0, 9), Closed, [MessageBegin] + [Data(Url, uri)])
  {
    hide Run, MethodName, IsUrlFrom;
    MethodIsRead(c, m);
    var d := Run(c, MethodName(m) + " ").c;
    LastUrlIsRead(d, uri);
    var p := AfterRequestLine(c.p, m, 0, 9);
    ReadsHeadBoth(c, MethodName(m) + " ", d.p, Closed, [MessageBegin], uri + "\r\n", p, Closed, [Data(Url, uri)]);
  }

  // ---- Numbers ----

  lemma NumberByteIs(p: Parser, k: Part, skipping: bool, ch: char)
    requires InNumber(p.state, k) && IsNum(ch)
    ensures
      var o := Transition(p, skipping, ch);
      var n := Get(p, k) * 10 + DigitOf(ch);
      if n <= 999 then o == Stay(Set(p, k, n)) else o.p.errno == if k.Code? then INVALID_STATUS else INVALID_VERSION
  {
  }

  /** The digits `v` are taken and leave `p` if they come to `n`, at most 999; or they are refused. */
  predicate EndsNumber(c: Core, k: Part, v: string, n: nat, p: Parser) {
    if n <= 999 then ReadsHead(c, v, p, Closed, [])
    else Run(c, v).c.p.errno == if k.Code? then INVALID_STATUS else INVALID_VERSION
  }

  lemma OneMoreDigit(c: Core, k: Part, ch: char, rest: string, q: Parser, n: nat, p: Parser)
    requires ReadsHead(c, [ch], q, Closed, []) && EndsNumber(Run(c, [ch]).c, k, rest, n, p)
    ensures EndsNumber(c, k, [ch] + rest, n, p)
  {
    hide Run;
    RunAppend(c, [ch], rest);
    if n <= 999 {
      ReadsHeadBoth(c, [ch], q, Closed, [], rest, p, Closed, []);
    }
  }

  /** Further digits of a number: they are taken exactly as long as it is at most 999. */
  lemma {:induction false} RestOfNumberIs(c: Core, k: Part, n: nat, v: string)
    requires Going(c) && InNumber(c.p.state, k) && c.slice.Closed? && n == Get(c.p, k) <= 999
    requires IsLengthText(v) && forall ch <- v :: IsNum(ch)
    ensures EndsNumber(c, k, v, Decimal(n, v), Set(c.p, k, Decimal(n, v)))
    decreases |v|
  {
    hide Transition, Run, InNumber, IsNum, Decimal, Get, Set, EndsNumber, IsLengthText;
    if v == "" {
      NoDigitIsRead(c, k, n);
    } else {
      var ch, rest := v[0], v[1..];
      assert ch in v && (forall x <- rest :: x in v) && v == [ch] + rest;
      var l, m := n * 10 + DigitOf(ch), Decimal(n, v);
      DecimalStep(n, v);
      NumberByteIs(c.p, k, c.skipping, ch);
      ByteInNumber(c.p, k);
      if l <= 999 {
        var q := Set(c.p, k, l);
        SetOnce(c.p, k, l, m);
        DigitIsRead(c, ch, q);
        RestOfNumberIs(Run(c, [ch]).c, k, l, rest);
        OneMoreDigit(c, k, ch, rest, q, m, Set(c.p, k, m));
      } else {
        FirstIsRefused(c, k, ch, rest, m, Set(c.p, k, m));
      }
    }
  }

  lemma NoDigitIsRead(c: Core, k: Part, n: nat)
    requires Going(c) && c.slice.Closed? && n == Get(c.p, k) <= 999
    ensures IsLengthText("") && EndsNumber(c, k, "", Decimal(n, ""), Set(c.p, k, Decimal(n, "")))
  {
    SetGet(c.p, k);
    ReadsNothing(c);
    hide Run;
  }

  lemma FirstIsRefused(c: Core, k: Part, ch: char, rest: string, n: nat, p: Parser)
    requires Going(c) && n > 999
    requires Transition(c.p, c.skipping, ch).p.errno == if k.Code? then INVALID_STATUS else INVALID_VERSION
    ensures EndsNumber(c, k, [ch] + rest, n, p)
  {
    RefusedThere(c, ch, rest);
    hide Transition, Run;
  }

  lemma SetOnce(p: Parser, k: Part, n: nat, m: nat)
    ensures Get(Set(p, k, n), k) == n && Set(p, k, n).state == p.state && Set(p, k, n).errno == p.errno
    ensures Set(Set(p, k, n), k, m) == Set(p, k, m)
  {
  }

  lemma DigitIsRead(c: Core, ch: char, q: Parser)
    requires Going(c) && c.slice.Closed? && Transition(c.p, c.skipping, ch) == Stay(q)
    requires q.errno == OK && ParsingHeader(c.p.state) && c.p.state != Head(HeaderValue)
    ensures ReadsHead(c, [ch], q, Closed, []) && Run(c, [ch]).c.p == q
    ensures Going(Run(c, [ch]).c) && Run(c, [ch]).c.slice.Closed?
  {
    hide Transition, Run;
    ReadsByte(c, ch, Stay(q));
  }

  lemma SetGet(p: Parser, k: Part)
    ensures Set(p, k, Get(p, k)) == p
  {
  }

  lemma RefusedThere(c: Core, ch: char, rest: string)
    requires Going(c) && Transition(c.p, c.skipping, ch).p.errno != OK
    ensures Run(c, [ch] + rest).c.p.errno == Transition(c.p, c.skipping, ch).p.errno
  {
    hide Transition;
    assert ([ch] + rest)[1..] == rest;
    RunStopped(Step(c, ch).c, rest);
  }

  /**
    A number of the first line, of any digits: it is stored if it is at most 999, and refused if it is
    larger. Only the major number of a request may not begin with a zero.
   */
  lemma AnyNumberIsRead(c: Core, k: Part, t: State, v: string)
    requires Going(c) && BeforeNumber(c.p.state, k, t) && InNumber(t, k) && c.slice.Closed?
    requires v != "" && forall ch <- v :: IsNum(ch)
    ensures IsLengthText(v)
    ensures
      if c.p.state == Line(ReqVersion(FirstHttpMajor)) && v[0] == '0' then Run(c, v).c.p.errno == INVALID_VERSION
      else if Decimal(0, v) <= 999 then ReadsHead(c, v, Set(c.p, k, Decimal(0, v)).(state := t), Closed, [])
      else Run(c, v).c.p.errno == if k.Code? then INVALID_STATUS else INVALID_VERSION
  {
    assert IsLengthText(v);
    hide Transition, Run, InNumber, BeforeNumber, IsNum, Decimal, Get, Set;
    var ch, rest := v[0], v[1..];
    assert ch in v && (forall x <- rest :: x in v) && v == [ch] + rest;
    if c.p.state == Line(ReqVersion(FirstHttpMajor)) && ch == '0' {
      NoLeadingZero(c.p, c.skipping);
      RefusedThere(c, ch, rest);
    } else {
      var m := Decimal(0, v);
      DecimalStep(0, v);
      NumberStarts(c.p, k, t, c.skipping, ch);
      SetOnce(c.p, k, DigitOf(ch), m);
      SetState(c.p, k, DigitOf(ch), m, t);
      ByteBeforeNumber(c.p, k, t);
      var q := Set(c.p, k, DigitOf(ch)).(state := t);
      DigitIsRead(c, ch, q);
      RestOfNumberIs(Run(c, [ch]).c, k, DigitOf(ch), rest);
      OneMoreDigit(c, k, ch, rest, q, m, Set(c.p, k, m).(state := t));
    }
  }

  lemma NoLeadingZero(p: Parser, skipping: bool)
    requires p.state == Line(ReqVersion(FirstHttpMajor))
    ensures Transition(p, skipping, '0').p.errno == INVALID_VERSION
  {
  }

  // ---- No reason ----

  lemma CodeEnds(p: Parser, skipping: bool)
    ensures p.state == Line(ResStatus(StatusCode)) || p.state == Line(ResStatus(StatusStart)) ==>
      Transition(p, skipping, CR) == To(p, Line(ResStatus(StatusLineAlmostDone)))
    ensures p.state == Line(ResStatus(StatusLineAlmostDone)) ==>
      Transition(p, skipping, LF) == To(p, Head(HeaderFieldStart))
  {
  }

  lemma CodeLineEnds(c: Core)
    requires Going(c) && c.slice.Closed?
    requires c.p.state == Line(ResStatus(StatusCode)) || c.p.state == Line(ResStatus(StatusStart))
    ensures ReadsHead(c, "\r\n", c.p.(state := Head(HeaderFieldStart)), Closed, [])
  {
    hide Transition, Run, Step;
    CodeEnds(c.p, c.skipping);
    var q := c.p.(state := Line(ResStatus(StatusLineAlmostDone)));
    ReadsByte(c, CR, To(c.p, q.state));
    var d := Run(c, [CR]).c;
    CodeEnds(q, d.skipping);
    ReadsByte(d, LF, To(q, Head(HeaderFieldStart)));
    assert "\r\n" == [CR] + [LF];
    ReadsHeadBoth(c, [CR], q, Closed, [], [LF], c.p.(state := Head(HeaderFieldStart)), Closed, []);
  }

  /** A status line without a reason, with or without the space behind the code: no reason is told. */
  lemma BareStatusIsRead(c: Core, major: nat, minor: nat, code: nat, j: nat, spaced: bool)
    requires Going(c) && c.p.state == Idle(StartRes) && c.slice.Closed?
    requires major <= 999 && minor <= 999 && code <= 999
    ensures
      var begin := "HTTP/" + Text(major) + "." + Text(minor) + " ";
      var line := begin + (Spaces(j) + (Text(code) + ((if spaced then " " else "") + "\r\n")));
      ReadsHead(c, line,
                c.p.(flags := NO_FLAGS, contentLength := NO_LENGTH, state := Head(HeaderFieldStart),
                     major := major, minor := minor, status := code),
                Closed, [MessageBegin])
  {
    hide Clean, Run, Text, Transition;
    var begin := "HTTP/" + Text(major) + "." + Text(minor) + " ";
    ResVersionIsRead(c, major, minor);
    var d := Run(c, begin).c;
    SpacesAreRead(d, j);
    var e := Run(d, Spaces(j)).c;
    var p := d.p.(status := code, state := Head(HeaderFieldStart));
    var end := (if spaced then " " else "") + "\r\n";
    var q := p.(state := if spaced then Line(ResStatus(StatusStart)) else Line(ResStatus(StatusCode)));
    if spaced {
      CodeIsRead(e, code);
      CodeLineEnds(Run(e, Text(code) + " ").c);
      ReadsHeadBoth(e, Text(code) + " ", q, Closed, [], "\r\n", p, Closed, []);
      assert Text(code) + " " + "\r\n" == Text(code) + end;
    } else {
      NumberIsRead(e, Code, Line(ResStatus(StatusCode)), code);
      CodeLineEnds(Run(e, Text(code)).c);
      ReadsHeadBoth(e, Text(code), q, Closed, [], "\r\n", p, Closed, []);
      assert "" + "\r\n" == "\r\n";
    }
    ReadsHeadBoth(d, Spaces(j), d.p, Closed, [], Text(code) + end, p, Closed, []);
    ReadsHeadBoth(c, begin, d.p, Closed, [MessageBegin], Spaces(j) + (Text(code) + end), p, Closed, []);
    assert [MessageBegin] + [] == [MessageBegin];
  }

  // ---- Line ends in front ----

  /** CRs and LFs in any order. */
  predicate AreLineEnds(s: string) {
    forall ch <- s :: ch == CR || ch == LF
  }

  /** A parser of requests, or of either kind, takes them without a callback. */
  lemma {:induction false} LineEndsAreSkipped(c: Core, s: string)
    requires Going(c) && (c.p.state == Idle(StartReq) || c.p.state == Idle(StartReqOrRes)) && c.slice.Closed?
    requires AreLineEnds(s)
    ensures ReadsHead(c, s, c.p, Closed, [])
    decreases |s|
  {
    hide Transition, Run, Step;
    if s == "" {
      ReadsNothing(c);
    } else {
      var ch, rest := s[0], s[1..];
      assert ch in s && (forall x <- rest :: x in s) && s == [ch] + rest;
      LineEndStays(c.p, c.skipping, ch);
      ReadsByte(c, ch, Stay(c.p));
      LineEndsAreSkipped(Run(c, [ch]).c, rest);
      ReadsHeadBoth(c, [ch], c.p, Closed, [], rest, c.p, Closed, []);
    }
  }

  lemma LineEndStays(p: Parser, skipping: bool, ch: char)
    requires ch == CR || ch == LF
    ensures p.state == Idle(StartReq) || p.state == Idle(StartReqOrRes) ==> Transition(p, skipping, ch) == Stay(p)
    ensures p.state == Idle(StartRes) ==>
      Transition(p, skipping, ch)
        == ToTelling(p.(flags := NO_FLAGS, contentLength := NO_LENGTH), Idle(StartRes), [MessageBegin])
  {
  }

  /** A parser of replies tells the beginning of a message for each of them. */
  lemma {:induction false} LineEndsAreTold(c: Core, s: string)
    requires Going(c) && c.p.state == Idle(StartRes) && c.slice.Closed? && AreLineEnds(s) && s != ""
    ensures ReadsHead(c, s, c.p.(flags := NO_FLAGS, contentLength := NO_LENGTH), Closed, seq(|s|, i => MessageBegin))
    decreases |s|
  {
    hide Transition, Run, Step;
    var ch, rest := s[0], s[1..];
    var q := c.p.(flags := NO_FLAGS, contentLength := NO_LENGTH);
    assert ch in s && (forall x <- rest :: x in s) && s == [ch] + rest;
    LineEndStays(c.p, c.skipping, ch);
    ReadsByte(c, ch, ToTelling(q, Idle(StartRes), [MessageBegin]));
    var d := Run(c, [ch]).c;
    var one, more := seq(1, i => MessageBegin), seq(|rest|, i => MessageBegin);
    assert [] + [MessageBegin] == one && one + more == seq(|s|, i => MessageBegin);
    if rest == "" {
      assert s == [ch] && one == seq(|s|, i => MessageBegin);
    } else {
      LineEndsAreTold(d, rest);
      ReadsHeadBoth(c, [ch], q, Closed, one, rest, q, Closed, more);
    }
  }
}
