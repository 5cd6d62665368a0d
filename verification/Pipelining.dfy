/**
  Messages one behind the other: nothing of a message that is over is read by the next one,
  and where the connection is to be closed no message follows.
 */
module Pipelining {
  import opened Chars
  import opened ParserTypes
  import opened Transitions
  import opened Machine
  import opened Invariant
  import opened Segmentation

  // ---- What the states still read ----

  predicate ReadsIndex(s: State) {
    s == Line(ReqMethod) || s == Head(HeaderField) || s == Head(HeaderValue)
  }

  predicate ReadsHeaderState(s: State) {
    s.Head? && !s.head.HeaderFieldStart? && !s.head.HeadersAlmostDone? && !s.head.HeadersDone?
  }

  /** The letters of a version, in front of its numbers. */
  predicate BeforeMajor(v: VersionState) {
    v.VersionH? || v.VersionHT? || v.VersionHTT? || v.VersionHTTP? || v.FirstHttpMajor?
  }

  predicate ReadsMajor(s: State) {
    && !s.Idle?
    && (s.Line? ==>
          || (s.line.ResVersion? && !BeforeMajor(s.line.version)) || s.line.ResStatus?
          || (s.line.ReqVersion? && !BeforeMajor(s.line.version)) || s.line.ReqLineAlmostDone?)
  }

  predicate ReadsMinor(s: State) {
    && ReadsMajor(s)
    && s != Line(ResVersion(HttpMajor)) && s != Line(ReqVersion(HttpMajor))
    && s != Line(ResVersion(FirstHttpMinor)) && s != Line(ReqVersion(FirstHttpMinor))
  }

  predicate ReadsStatus(s: State, t: ParserType) {
    || (s.Line? && s.line.ResStatus? && !s.line.status.FirstStatusCode?)
    || (!t.REQUEST? && (s.Head? || s.Content? || s.Chunk?))
  }

  /** Requests are read by parsers of requests. */
  predicate IsTyped(p: Parser) {
    && (p.state == Idle(StartReq) ==> p.ptype.REQUEST?)
    && (p.state.Line? && !p.state.line.ResOrRespH? && !p.state.line.ResVersion? && !p.state.line.ResStatus? ==>
          p.ptype.REQUEST?)
  }

  /** Two parsers that differ only in fields that will be overwritten before they are read. */
  predicate Same(p: Parser, q: Parser) {
    && p.ptype == q.ptype && p.state == q.state && p.errno == q.errno && p.upgrade == q.upgrade && IsTyped(p)
    && (p.state == Idle(StartReq) || p.state == Idle(Dead) || p.verb == q.verb)
    && (p.state.Idle? || (p.flags == q.flags && p.contentLength == q.contentLength))
    && (ReadsIndex(p.state) ==> p.index == q.index)
    && (ReadsHeaderState(p.state) ==> p.hstate == q.hstate)
    && (ReadsMajor(p.state) ==> p.major == q.major)
    && (ReadsMinor(p.state) ==> p.minor == q.minor)
    && (ReadsStatus(p.state, p.ptype) ==> p.status == q.status)
  }

  /** Outcomes that differ no more than that. */
  predicate SameOut(o: Outcome, u: Outcome) {
    && o.flush == u.flush && o.notes == u.notes && o.mark == u.mark
    && o.reset == u.reset && o.skipping == u.skipping && o.halt == u.halt
    && o.p.errno == u.p.errno && (o.p.errno == OK ==> Same(o.p, u.p))
  }

  lemma StartReqSame(p: Parser, q: Parser, ch: char)
    requires p.state == Idle(StartReq) && p.errno == OK && IsTyped(p)
    requires p.ptype == q.ptype && p.state == q.state && p.errno == q.errno && p.upgrade == q.upgrade
    ensures SameOut(OnStartReq(p, ch), OnStartReq(q, ch))
  {
    hide FirstGuess;
  }

  lemma StartAnySame(p: Parser, q: Parser, ch: char)
    requires Same(p, q) && p.state == Idle(StartReqOrRes) && p.errno == OK
    ensures SameOut(OnIdle(p, StartReqOrRes, ch), OnIdle(q, StartReqOrRes, ch))
  {
    var x := p.(flags := NO_FLAGS, contentLength := NO_LENGTH);
    var y := q.(flags := NO_FLAGS, contentLength := NO_LENGTH);
    StartReqSame(x.(ptype := REQUEST, state := Idle(StartReq)), y.(ptype := REQUEST, state := Idle(StartReq)), ch);
    hide OnStartReq;
  }

  lemma StartResSame(p: Parser, q: Parser, ch: char)
    requires Same(p, q) && p.errno == OK
    ensures p.state == Idle(StartRes) ==> SameOut(OnIdle(p, StartRes, ch), OnIdle(q, StartRes, ch))
    ensures p.state == Idle(Dead) ==> SameOut(OnIdle(p, Dead, ch), OnIdle(q, Dead, ch))
  {
    hide OnStartReq;
  }

  lemma IdleSame(p: Parser, q: Parser, s: IdleState, ch: char)
    requires Same(p, q) && p.state == Idle(s) && p.errno == OK
    ensures SameOut(OnIdle(p, s, ch), OnIdle(q, s, ch))
  {
    hide OnStartReq, SameOut;
    match s
    case StartReq => StartReqSame(p, q, ch);
    case StartReqOrRes => StartAnySame(p, q, ch);
    case StartRes => StartResSame(p, q, ch);
    case Dead => StartResSame(p, q, ch);
  }

  function LetterAfter(v: VersionState): char
    requires BeforeMajor(v) && !v.FirstHttpMajor?
  {
    if v.VersionH? || v.VersionHT? then 'T' else if v.VersionHTT? then 'P' else '/'
  }

  function LetterBehind(v: VersionState): VersionState
    requires BeforeMajor(v) && !v.FirstHttpMajor?
  {
    if v.VersionH? then VersionHT else if v.VersionHT? then VersionHTT
    else if v.VersionHTT? then VersionHTTP else FirstHttpMajor
  }

  lemma ExpectSame(p: Parser, q: Parser, s: LineState, ch: char, expected: char, t: LineState)
    requires Same(p, q) && p.state == Line(s) && p.errno == OK
    requires
      || (s.ResVersion? && t.ResVersion? && BeforeMajor(s.version) && BeforeMajor(t.version))
      || (s.ReqVersion? && t.ReqVersion? && BeforeMajor(s.version) && BeforeMajor(t.version))
    ensures SameOut(Expect(p, ch, expected, Line(t)), Expect(q, ch, expected, Line(t)))
  {
  }

  lemma ResLettersSame(p: Parser, q: Parser, v: VersionState, ch: char)
    requires Same(p, q) && p.state == Line(ResVersion(v)) && p.errno == OK && BeforeMajor(v)
    ensures SameOut(OnResVersion(p, v, ch), OnResVersion(q, v, ch))
  {
    hide Expect;
    if !v.FirstHttpMajor? {
      ExpectSame(p, q, ResVersion(v), ch, LetterAfter(v), ResVersion(LetterBehind(v)));
      hide Same, SameOut;
    }
  }

  lemma ResMajorSame(p: Parser, q: Parser, ch: char)
    requires Same(p, q) && p.state == Line(ResVersion(HttpMajor)) && p.errno == OK
    ensures SameOut(OnMajor(p, ch, Line(ResVersion(FirstHttpMinor))), OnMajor(q, ch, Line(ResVersion(FirstHttpMinor))))
  {
  }

  lemma ResNumbersSame(p: Parser, q: Parser, v: VersionState, ch: char)
    requires Same(p, q) && p.state == Line(ResVersion(v)) && p.errno == OK && !BeforeMajor(v)
    ensures SameOut(OnResVersion(p, v, ch), OnResVersion(q, v, ch))
  {
    if v.HttpMajor? {
      hide OnMajor, Same, SameOut;
      ResMajorSame(p, q, ch);
    }
  }

  lemma ResVersionSame(p: Parser, q: Parser, v: VersionState, ch: char)
    requires Same(p, q) && p.state == Line(ResVersion(v)) && p.errno == OK
    ensures SameOut(OnResVersion(p, v, ch), OnResVersion(q, v, ch))
  {
    hide OnResVersion, Same, SameOut;
    if BeforeMajor(v) { ResLettersSame(p, q, v, ch); } else { ResNumbersSame(p, q, v, ch); }
  }

  lemma ReqLettersSame(p: Parser, q: Parser, v: VersionState, ch: char)
    requires Same(p, q) && p.state == Line(ReqVersion(v)) && p.errno == OK && BeforeMajor(v)
    ensures SameOut(OnReqVersion(p, v, ch), OnReqVersion(q, v, ch))
  {
    hide Expect;
    if !v.FirstHttpMajor? {
      ExpectSame(p, q, ReqVersion(v), ch, LetterAfter(v), ReqVersion(LetterBehind(v)));
      hide Same, SameOut;
    }
  }

  lemma ReqMajorSame(p: Parser, q: Parser, ch: char)
    requires Same(p, q) && p.state == Line(ReqVersion(HttpMajor)) && p.errno == OK
    ensures SameOut(OnMajor(p, ch, Line(ReqVersion(FirstHttpMinor))), OnMajor(q, ch, Line(ReqVersion(FirstHttpMinor))))
  {
  }

  lemma ReqNumbersSame(p: Parser, q: Parser, v: VersionState, ch: char)
    requires Same(p, q) && p.state == Line(ReqVersion(v)) && p.errno == OK && !BeforeMajor(v)
    ensures SameOut(OnReqVersion(p, v, ch), OnReqVersion(q, v, ch))
  {
    if v.HttpMajor? {
      hide OnMajor, Same, SameOut;
      ReqMajorSame(p, q, ch);
    }
  }

  lemma ReqVersionSame(p: Parser, q: Parser, v: VersionState, ch: char)
    requires Same(p, q) && p.state == Line(ReqVersion(v)) && p.errno == OK
    ensures SameOut(OnReqVersion(p, v, ch), OnReqVersion(q, v, ch))
  {
    hide OnReqVersion, Same, SameOut;
    if BeforeMajor(v) { ReqLettersSame(p, q, v, ch); } else { ReqNumbersSame(p, q, v, ch); }
  }

  lemma CodeSame(p: Parser, q: Parser, ch: char)
    requires Same(p, q) && p.state == Line(ResStatus(StatusCode)) && p.errno == OK
    ensures SameOut(OnStatusCode(p, ch), OnStatusCode(q, ch))
  {
  }

  lemma StatusSame(p: Parser, q: Parser, t: StatusState, ch: char)
    requires Same(p, q) && p.state == Line(ResStatus(t)) && p.errno == OK
    ensures SameOut(OnStatus(p, t, ch), OnStatus(q, t, ch))
  {
    if t.StatusCode? { CodeSame(p, q, ch); }
    hide OnStatusCode;
  }

  lemma MethodSame(p: Parser, q: Parser, ch: char)
    requires Same(p, q) && p.state == Line(ReqMethod) && p.errno == OK
    ensures SameOut(OnMethod(p, ch), OnMethod(q, ch))
  {
    hide MethodName, NextGuess;
  }

  /** Parsers of requests that agree on all that the first line has set so far. */
  predicate SameLine(p: Parser, q: Parser) {
    && p.ptype.REQUEST?
    && q == p.(index := q.index, hstate := q.hstate, major := q.major, minor := q.minor, status := q.status)
  }

  lemma UrlIsSameLine(p: Parser, q: Parser)
    requires p.state.Line? && (p.state.line.ReqUrl? || p.state.line.ReqHttpStart?)
    ensures Same(p, q) <==> SameLine(p, q)
  {
  }

  lemma LineIsOver(p: Parser, q: Parser)
    requires SameLine(p, q) && p.major == q.major && p.minor == q.minor
    requires p.state == Line(ReqLineAlmostDone) || p.state == Head(HeaderFieldStart)
    ensures Same(p, q)
  {
  }

  lemma UrlEndSame(p: Parser, q: Parser, u: UrlState, ch: char)
    requires Same(p, q) && p.state == Line(ReqUrl(u)) && p.errno == OK
    ensures SameOut(OnUrlOrEnd(p, u, ch), OnUrlOrEnd(q, u, ch))
  {
    hide ParseUrlChar, Same;
    UrlIsSameLine(p, q);
    var x, y := p.(major := 0, minor := 9), q.(major := 0, minor := 9);
    if ch == ' ' {
      UrlIsSameLine(p.(state := Line(ReqHttpStart)), q.(state := Line(ReqHttpStart)));
    } else if ch == CR {
      LineIsOver(x.(state := Line(ReqLineAlmostDone)), y.(state := Line(ReqLineAlmostDone)));
    } else if ch == LF {
      LineIsOver(x.(state := Head(HeaderFieldStart)), y.(state := Head(HeaderFieldStart)));
    } else {
      var next := Line(ReqUrl(ParseUrlChar(u, ch)));
      UrlIsSameLine(p.(state := next), q.(state := next));
    }
  }

  /** The states around the URL. */
  lemma UrlSame(p: Parser, q: Parser, s: LineState, ch: char)
    requires Same(p, q) && p.state == Line(s) && p.errno == OK
    requires s.ReqSpacesBeforeUrl? || s.ReqUrl?
    ensures SameOut(OnLine(p, s, ch), OnLine(q, s, ch))
  {
    if s.ReqUrl? && !UrlMustGoOn(s.url) { UrlEndSame(p, q, s.url, ch); hide Same, SameOut; }
    hide ParseUrlChar, OnUrlOrEnd;
  }

  lemma FirstLetterSame(p: Parser, q: Parser, ch: char)
    requires Same(p, q) && p.state == Line(ResOrRespH) && p.errno == OK
    ensures SameOut(OnLine(p, ResOrRespH, ch), OnLine(q, ResOrRespH, ch))
  {
  }

  lemma AroundVersionSame(p: Parser, q: Parser, s: LineState, ch: char)
    requires Same(p, q) && p.state == Line(s) && p.errno == OK && (s.ReqHttpStart? || s.ReqLineAlmostDone?)
    ensures SameOut(OnLine(p, s, ch), OnLine(q, s, ch))
  {
  }

  lemma LineSame(p: Parser, q: Parser, s: LineState, ch: char)
    requires Same(p, q) && p.state == Line(s) && p.errno == OK
    ensures SameOut(OnLine(p, s, ch), OnLine(q, s, ch))
  {
    hide OnResVersion, OnReqVersion, OnStatus, OnMethod, OnUrl, OnUrlOrEnd;
    match s
    case ResVersion(v) => ResVersionSame(p, q, v, ch); hide Same, SameOut;
    case ReqVersion(v) => ReqVersionSame(p, q, v, ch); hide Same, SameOut;
    case ResStatus(t) => StatusSame(p, q, t, ch); hide Same, SameOut;
    case ReqMethod => MethodSame(p, q, ch); hide Same, SameOut;
    case ReqSpacesBeforeUrl => UrlSame(p, q, s, ch); hide Same, SameOut;
    case ReqUrl(_) => UrlSame(p, q, s, ch); hide Same, SameOut;
    case ResOrRespH => FirstLetterSame(p, q, ch); hide Same, SameOut;
    case ReqHttpStart => AroundVersionSame(p, q, s, ch); hide Same, SameOut;
    case ReqLineAlmostDone => AroundVersionSame(p, q, s, ch); hide Same, SameOut;
  }

  lemma FieldSame(p: Parser, q: Parser, ch: char)
    requires Same(p, q) && p.state == Head(HeaderField) && p.errno == OK
    ensures SameOut(OnField(p, ch), OnField(q, ch))
  {
    hide IsToken, TokenOf, NameFor;
  }

  lemma EndOfLineSame(p: Parser, q: Parser)
    requires Same(p, q) && p.state.Head? && ReadsHeaderState(p.state)
    ensures Same(EndOfLine(p), EndOfLine(q)) && EndOfLine(p).flags == EndOfLine(q).flags
    ensures EndOfLine(p).state == p.state && EndOfLine(p).errno == p.errno
  {
  }

  lemma NewMessageSame(p: Parser, q: Parser)
    requires Same(p, q) && (p.state.Head? || p.state.Content? || p.state.Chunk?)
    ensures Same(p.(state := NewMessage(p)), q.(state := NewMessage(q)))
  {
  }

  lemma HeadersDoneSame(p: Parser, q: Parser, ch: char, before: seq<Event>)
    requires Same(p, q) && p.state.Head? && p.errno == OK
    ensures SameOut(OnHeadersDone(p, ch, before), OnHeadersDone(q, ch, before))
  {
    NewMessageSame(p, q);
    hide NewMessage;
  }

  lemma MessageDoneSame(p: Parser, q: Parser, before: seq<Event>)
    requires Same(p, q) && p.state.Head? && p.errno == OK
    ensures SameOut(OnMessageDone(p, Keep, before), OnMessageDone(q, Keep, before))
  {
    NewMessageSame(p, q);
    hide NewMessage;
  }

  lemma HeadersEndSame(p: Parser, q: Parser, ch: char, before: seq<Event>)
    requires Same(p, q) && p.state.Head? && p.errno == OK
    ensures SameOut(OnHeadersAlmostDone(p, ch, before), OnHeadersAlmostDone(q, ch, before))
  {
    var up := (p.flags.upgrade && p.flags.connUpgrade) || p.verb == CONNECT;
    HeadersDoneSame(p.(state := Head(HeadersDone), upgrade := up), q.(state := Head(HeadersDone), upgrade := up), ch,
                    before + [HeadersComplete(p.major, p.minor)]);
    MessageDoneSame(p, q, before + [ChunkComplete]);
    hide OnHeadersDone, OnMessageDone;
  }

  lemma FieldStartSame(p: Parser, q: Parser, ch: char, before: seq<Event>)
    requires Same(p, q) && p.state.Head? && p.errno == OK
    ensures SameOut(OnFieldStart(p, ch, before), OnFieldStart(q, ch, before))
  {
    HeadersEndSame(p, q, ch, before);
    hide OnHeadersAlmostDone, IsToken, TokenOf;
  }

  lemma StartIsSame(p: Parser, q: Parser)
    requires Same(p, q) && p.state.Head? && ReadsHeaderState(p.state)
    ensures q == p.(status := q.status, index := q.index) && (p.ptype.REQUEST? || p.status == q.status)
  {
  }

  lemma ValueStartSame(p: Parser, q: Parser, ch: char)
    requires Same(p, q) && p.state.Head? && ReadsHeaderState(p.state) && p.errno == OK
    ensures SameOut(OnValueStart(p, ch), OnValueStart(q, ch))
  {
    StartIsSame(p, q);
    hide Same, TokenStart, Lower;
    var x, y := OnValueStart(p, ch), OnValueStart(q, ch);
    assert y == x.(p := x.p.(status := q.status));
    if x.p.errno == OK {
      ValueIsSame(x.p, y.p);
    }
  }

  /** The two states behind the line of a field. */
  lemma LwsSame(p: Parser, q: Parser, s: HeadState, ch: char)
    requires Same(p, q) && p.state == Head(s) && p.errno == OK && (s.HeaderValueDiscardLws? || s.HeaderValueLws?)
    ensures SameOut(OnHead(p, s, ch), OnHead(q, s, ch))
  {
    hide OnFieldStart, OnValueStart, EndOfLine;
    EndOfLineSame(p, q);
    if s.HeaderValueDiscardLws? {
      FieldStartSame(EndOfLine(p), EndOfLine(q), ch, [Data(Value, "")]);
    } else {
      FieldStartSame(EndOfLine(p), EndOfLine(q), ch, []);
      ValueStartSame(p, q, ch);
      hide Same, SameOut;
    }
  }

  lemma HeadSame(p: Parser, q: Parser, s: HeadState, ch: char)
    requires Same(p, q) && p.state == Head(s) && p.errno == OK && !s.HeaderValue?
    ensures SameOut(OnHead(p, s, ch), OnHead(q, s, ch))
  {
    hide OnField, OnFieldStart, OnValueStart, OnHeadersAlmostDone, OnHeadersDone, EndOfLine;
    match s
    case HeaderFieldStart => FieldStartSame(p, q, ch, []); hide Same, SameOut;
    case HeaderField => FieldSame(p, q, ch); hide Same, SameOut;
    case HeaderValueDiscardLws => LwsSame(p, q, s, ch); hide Same, SameOut;
    case HeaderValueLws => LwsSame(p, q, s, ch); hide Same, SameOut;
    case HeadersAlmostDone => HeadersEndSame(p, q, ch, []); hide Same, SameOut;
    case HeadersDone => HeadersDoneSame(p, q, ch, []); hide Same, SameOut;
    case HeaderValueDiscardWs => ValueStartSame(p, q, ch);
    case HeaderValueStart => ValueStartSame(p, q, ch); hide Same, SameOut;
    case _ =>
  }

  /** In a value nothing is still to be overwritten but the status of a request. */
  lemma ValueIsSame(p: Parser, q: Parser)
    requires p.state == Head(HeaderValue)
    ensures Same(p, q) <==> q == p.(status := q.status) && (p.ptype.REQUEST? || p == q)
  {
  }

  lemma SpecialSame(p: Parser, q: Parser, ch: char)
    requires Same(p, q) && p.state == Head(HeaderValue) && p.errno == OK
    ensures SameOut(OnSpecialValue(p, ch), OnSpecialValue(q, ch))
  {
    hide Same, MatchLetter, TokenStart, EndOfToken, Lower, IsToken;
    ValueIsSame(p, q);
    var x, y := OnSpecialValue(p, ch), OnSpecialValue(q, ch);
    assert y == x.(p := x.p.(status := q.status));
    ValueIsSame(x.p, y.p);
  }

  lemma ValueSame(p: Parser, q: Parser, skipping: bool, ch: char)
    requires Same(p, q) && p.state == Head(HeaderValue) && p.errno == OK
    ensures SameOut(OnValue(p, skipping, ch), OnValue(q, skipping, ch))
  {
    hide IsHeaderChar, OnSpecialValue, Same;
    SpecialSame(p, q, ch);
    ValueEndSame(p, q);
    ValueIsSame(p, q);
  }

  lemma ValueEndSame(p: Parser, q: Parser)
    requires Same(p, q) && p.state == Head(HeaderValue)
    ensures Same(p.(state := Head(HeaderAlmostDone)), q.(state := Head(HeaderAlmostDone)))
    ensures Same(p.(state := Head(HeaderValueLws)), q.(state := Head(HeaderValueLws)))
  {
  }

  lemma ContentSame(p: Parser, q: Parser, s: ContentState, ch: char)
    requires Same(p, q) && p.state == Content(s) && p.errno == OK
    ensures SameOut(OnContent(p, s, ch), OnContent(q, s, ch))
  {
  }

  lemma ChunkSizeSame(p: Parser, q: Parser, ch: char)
    requires Same(p, q) && p.state == Chunk(ChunkSize) && p.errno == OK
    ensures SameOut(OnChunkSize(p, ch), OnChunkSize(q, ch))
  {
    hide Unhex;
  }

  lemma ChunkDataSame(p: Parser, q: Parser, s: ChunkState, ch: char)
    requires Same(p, q) && p.state == Chunk(s) && p.errno == OK && InChunkBytes(s)
    ensures SameOut(OnChunk(p, s, ch), OnChunk(q, s, ch))
  {
  }

  lemma ChunkSame(p: Parser, q: Parser, s: ChunkState, ch: char)
    requires Same(p, q) && p.state == Chunk(s) && p.errno == OK
    ensures SameOut(OnChunk(p, s, ch), OnChunk(q, s, ch))
  {
    hide Unhex, OnChunkSize;
    if s.ChunkSize? {
      ChunkSizeSame(p, q, ch);
      hide Same, SameOut;
    } else if InChunkBytes(s) {
      ChunkDataSame(p, q, s, ch);
      hide OnChunk, Same, SameOut;
    }
  }

  lemma TransitionSame(p: Parser, q: Parser, skipping: bool, ch: char)
    requires Same(p, q) && p.errno == OK
    ensures SameOut(Transition(p, skipping, ch), Transition(q, skipping, ch))
  {
    hide OnIdle, OnLine, OnHead, OnValue, OnContent, OnChunk, SameOut;
    match p.state
    case Idle(s) => IdleSame(p, q, s, ch);
    case Line(s) => LineSame(p, q, s, ch);
    case Head(s) => if s.HeaderValue? { ValueSame(p, q, skipping, ch); } else { HeadSame(p, q, s, ch); }
    case Content(s) => ContentSame(p, q, s, ch);
    case Chunk(s) => ChunkSame(p, q, s, ch);
  }

  /** Two cores, as long as they go on, that differ no more than their parsers may. */
  predicate SameCore(c: Core, d: Core) {
    && c.p.errno == d.p.errno && (c.p.errno == OK ==> Same(c.p, d.p) && c == d.(p := c.p))
  }

  lemma StepSame(c: Core, d: Core, ch: char)
    requires SameCore(c, d) && Going(c)
    ensures SameCore(Step(c, ch).c, Step(d, ch).c) && Step(c, ch).events == Step(d, ch).events
  {
    hide Transition, Same;
    TransitionSame(c.p, d.p, c.skipping, ch);
    SameState(c.p, d.p);
    assert Same(Transition(c.p, c.skipping, ch).p, Transition(d.p, d.skipping, ch).p)
      || Transition(c.p, c.skipping, ch).p.errno != OK;
    SameState(Transition(c.p, c.skipping, ch).p, Transition(d.p, d.skipping, ch).p);
  }

  lemma SameState(p: Parser, q: Parser)
    ensures Same(p, q) ==> p.state == q.state && p.errno == q.errno
  {
  }

  /** Whatever follows, they make the same callbacks. */
  lemma {:induction false} RunSame(c: Core, d: Core, data: string)
    requires SameCore(c, d)
    ensures
      var x, y := Run(c, data), Run(d, data);
      x.events == y.events && x.used == y.used && SameCore(x.c, y.c)
    decreases |data|
  {
    hide Step, Same;
    if data != [] && Going(c) {
      StepSame(c, d, data[0]);
      RunSame(Step(c, data[0]).c, Step(d, data[0]).c, data[1..]);
    }
  }

  // ---- Where a message ends ----

  /** What a transition that completes a message leaves. */
  predicate Finishes(p: Parser, o: Outcome) {
    && (o.p.errno == OK && MessageComplete in o.notes ==>
          && o.p.state == NewMessage(o.p) && o.halt == o.p.upgrade && (p.state.Head? || p.state.Content?)
          && (o.reset || p.state.Content? || p.flags.trailing) && (p.flags.chunked ==> o.p.flags.chunked))
    && (o.p.errno == OK && o.p.state.Content? ==> p.state.Content? || o.reset)
  }

  lemma LineFinishes(p: Parser, s: LineState, ch: char)
    requires p.state == Line(s)
    ensures Finishes(p, OnLine(p, s, ch))
  {
    hide ParseUrlChar, NextGuess, MethodName;
  }

  lemma HeadersDoneFinishes(p: Parser, ch: char, before: seq<Event>)
    requires p.state.Head? && MessageComplete !in before
    ensures Finishes(p, OnHeadersAlmostDone(p, ch, before)) && Finishes(p, OnHeadersDone(p, ch, before))
  {
    assert MessageComplete !in before + [HeadersComplete(p.major, p.minor)];
  }

  lemma FieldStartFinishes(p: Parser, ch: char, before: seq<Event>)
    requires p.state.Head? && MessageComplete !in before
    ensures Finishes(p, OnFieldStart(p, ch, before))
  {
    HeadersDoneFinishes(p, ch, before);
    hide OnHeadersAlmostDone, IsToken;
  }

  lemma HeadFinishes(p: Parser, s: HeadState, ch: char)
    requires p.state == Head(s) && !s.HeaderValue?
    ensures Finishes(p, OnHead(p, s, ch))
  {
    hide OnFieldStart, OnHeadersAlmostDone, OnHeadersDone, EndOfLine, IsToken, FieldLetter, NameFor, Lower;
    HeadersDoneFinishes(p, ch, []);
    FieldStartFinishes(p, ch, []);
    LineKeepsTrailing(p);
    FieldStartFinishes(EndOfLine(p), ch, []);
    FieldStartFinishes(EndOfLine(p), ch, [Data(Value, "")]);
  }

  lemma LineKeepsTrailing(p: Parser)
    ensures EndOfLine(p).flags.trailing == p.flags.trailing && EndOfLine(p).state == p.state
    ensures p.flags.chunked ==> EndOfLine(p).flags.chunked
  {
  }

  lemma IdleFinishes(p: Parser, s: IdleState, ch: char)
    requires p.state == Idle(s)
    ensures Finishes(p, OnIdle(p, s, ch))
  {
    hide FirstGuess;
  }

  lemma ContentFinishes(p: Parser, s: ContentState, ch: char)
    requires p.state == Content(s)
    ensures Finishes(p, OnContent(p, s, ch))
  {
  }

  lemma ChunkFinishes(p: Parser, s: ChunkState, ch: char)
    requires p.state == Chunk(s)
    ensures Finishes(p, OnChunk(p, s, ch))
  {
    hide Unhex;
  }

  lemma ValueFinishes(p: Parser, skipping: bool, ch: char)
    requires p.state == Head(HeaderValue)
    ensures Finishes(p, OnValue(p, skipping, ch))
  {
    hide IsHeaderChar, NameFor, Lower, IsToken;
  }

  lemma TransitionFinishes(p: Parser, skipping: bool, ch: char)
    ensures Finishes(p, Transition(p, skipping, ch))
  {
    hide OnIdle, OnLine, OnHead, OnValue, OnContent, OnChunk, Finishes;
    match p.state
    case Idle(s) => IdleFinishes(p, s, ch);
    case Line(s) => LineFinishes(p, s, ch);
    case Head(s) => if s.HeaderValue? { ValueFinishes(p, skipping, ch); } else { HeadFinishes(p, s, ch); }
    case Content(s) => ContentFinishes(p, s, ch);
    case Chunk(s) => ChunkFinishes(p, s, ch);
  }

  /** The bytes of a body do not count against the header limit. */
  predicate CountsNoBody(c: Core) {
    c.p.state.Content? ==> c.nread == 0
  }

  lemma StepCountsNoBody(c: Core, ch: char)
    requires CountsNoBody(c)
    ensures Step(c, ch).c.p.errno == OK ==> CountsNoBody(Step(c, ch).c)
  {
    hide Transition;
    TransitionFinishes(c.p, c.skipping, ch);
  }

  lemma {:induction false} RunCountsNoBody(c: Core, data: string)
    requires CountsNoBody(c)
    ensures Run(c, data).c.p.errno == OK ==> CountsNoBody(Run(c, data).c)
    decreases |data|
  {
    hide Step, CountsNoBody;
    if data != [] && Going(c) {
      StepCountsNoBody(c, data[0]);
      RunStopped(Step(c, data[0]).c, data[1..]);
      if Step(c, data[0]).c.p.errno == OK {
        RunCountsNoBody(Step(c, data[0]).c, data[1..]);
      }
    }
  }

  /** The byte that completes a message: the state says whether another one may follow. */
  lemma LastByte(c: Core, ch: char)
    requires CoreInv(c) && CountsNoBody(c) && Going(c)
    requires MessageComplete in Step(c, ch).events && Step(c, ch).c.p.errno == OK
    ensures
      var d := Step(c, ch).c;
      && d.p.state == NewMessage(d.p) && d.halted == d.p.upgrade && d.slice.Closed? && !d.inside && !d.skipping
      && (!d.p.flags.chunked ==> d.nread == 0)
  {
    hide Transition, Inv;
    TransitionFinishes(c.p, c.skipping, ch);
    StepInv(c, ch);
    IdleIsClosed(Step(c, ch).c);
    TrailersAreChunked(c.p);
  }

  lemma TrailersAreChunked(p: Parser)
    requires Inv(p)
    ensures p.flags.trailing && (p.state.Head? || p.state.Content?) ==> p.flags.chunked
  {
  }

  // ---- The parsers of requests and of replies ----

  /** Nothing but replies is read. */
  predicate OnlyReplies(p: Parser) {
    && p.ptype.RESPONSE? && p.verb == DELETE
    && p.state != Idle(StartReq) && p.state != Idle(StartReqOrRes)
    && p.state != Line(ResOrRespH) && p.state != Line(ReqMethod)
  }

  /** Nothing but requests is read. */
  predicate OnlyRequests(p: Parser) {
    p.ptype.REQUEST? && p.state != Idle(StartRes) && p.state != Idle(StartReqOrRes) && p.state != Line(ResOrRespH)
  }

  predicate KeepsType(p: Parser, o: Outcome) {
    o.p.errno == OK ==> (OnlyReplies(p) ==> OnlyReplies(o.p)) && (OnlyRequests(p) ==> OnlyRequests(o.p))
  }

  lemma ResVersionKeepsType(p: Parser, v: VersionState, ch: char)
    requires p.state == Line(ResVersion(v))
    ensures KeepsType(p, OnResVersion(p, v, ch))
  {
  }

  lemma ReqVersionKeepsType(p: Parser, v: VersionState, ch: char)
    requires p.state == Line(ReqVersion(v))
    ensures KeepsType(p, OnReqVersion(p, v, ch))
  {
  }

  lemma StatusKeepsType(p: Parser, t: StatusState, ch: char)
    requires p.state == Line(ResStatus(t))
    ensures KeepsType(p, OnStatus(p, t, ch))
  {
  }

  lemma LineKeepsType(p: Parser, s: LineState, ch: char)
    requires p.state == Line(s)
    ensures KeepsType(p, OnLine(p, s, ch))
  {
    hide OnResVersion, OnReqVersion, OnStatus, ParseUrlChar, NextGuess, MethodName;
    if s.ResVersion? { ResVersionKeepsType(p, s.version, ch); }
    if s.ReqVersion? { ReqVersionKeepsType(p, s.version, ch); }
    if s.ResStatus? { StatusKeepsType(p, s.status, ch); }
  }

  lemma NewMessageKeepsType(p: Parser)
    ensures OnlyReplies(p) ==> OnlyReplies(p.(state := NewMessage(p)))
    ensures OnlyRequests(p) ==> OnlyRequests(p.(state := NewMessage(p)))
  {
    hide ShouldKeepAlive;
  }

  lemma HeadersDoneKeepsType(p: Parser, ch: char, before: seq<Event>)
    requires p.state.Head?
    ensures KeepsType(p, OnHeadersDone(p, ch, before))
  {
    NewMessageKeepsType(p);
    hide NewMessage, NeedsEof, HasBody;
  }

  lemma HeadersEndKeepsType(p: Parser, ch: char, before: seq<Event>)
    requires p.state.Head?
    ensures KeepsType(p, OnHeadersAlmostDone(p, ch, before)) && KeepsType(p, OnHeadersDone(p, ch, before))
  {
    HeadersDoneKeepsType(p, ch, before);
    hide OnHeadersDone, NeedsEof;
    var q := p.(state := Head(HeadersDone), upgrade := (p.flags.upgrade && p.flags.connUpgrade) || p.verb == CONNECT);
    HeadersDoneKeepsType(q, ch, before + [HeadersComplete(p.major, p.minor)]);
  }

  lemma EndOfLineKeepsType(p: Parser)
    ensures OnlyReplies(EndOfLine(p)) == OnlyReplies(p) && OnlyRequests(EndOfLine(p)) == OnlyRequests(p)
    ensures EndOfLine(p).state == p.state
  {
  }

  lemma FieldStartKeepsType(p: Parser, ch: char, before: seq<Event>)
    requires p.state.Head?
    ensures KeepsType(p, OnFieldStart(p, ch, before))
  {
    HeadersEndKeepsType(p, ch, before);
    hide OnHeadersAlmostDone, IsToken;
  }

  lemma ValueStartKeepsType(p: Parser, ch: char)
    requires p.state.Head?
    ensures KeepsType(p, OnValueStart(p, ch)) && KeepsType(p, OnField(p, ch))
  {
    hide IsToken, FieldLetter, TokenStart, Lower;
  }

  lemma HeadKeepsType(p: Parser, s: HeadState, ch: char)
    requires p.state == Head(s) && !s.HeaderValue?
    ensures KeepsType(p, OnHead(p, s, ch))
  {
    hide OnField, OnFieldStart, OnValueStart, OnHeadersAlmostDone, OnHeadersDone, EndOfLine;
    HeadersEndKeepsType(p, ch, []);
    ValueStartKeepsType(p, ch);
    FieldStartKeepsType(p, ch, []);
    EndOfLineKeepsType(p);
    FieldStartKeepsType(EndOfLine(p), ch, []);
    FieldStartKeepsType(EndOfLine(p), ch, [Data(Value, "")]);
  }

  lemma ValueKeepsType(p: Parser, skipping: bool, ch: char)
    requires p.state == Head(HeaderValue)
    ensures KeepsType(p, OnValue(p, skipping, ch))
  {
    hide IsHeaderChar, NameFor, Lower, IsToken;
  }

  lemma IdleKeepsType(p: Parser, s: IdleState, ch: char)
    requires p.state == Idle(s)
    ensures KeepsType(p, OnIdle(p, s, ch))
  {
    hide FirstGuess;
  }

  lemma ContentKeepsType(p: Parser, s: ContentState, ch: char)
    requires p.state == Content(s)
    ensures KeepsType(p, OnContent(p, s, ch))
  {
    hide NeedsEof;
  }

  lemma ChunkKeepsType(p: Parser, s: ChunkState, ch: char)
    requires p.state == Chunk(s)
    ensures KeepsType(p, OnChunk(p, s, ch))
  {
    hide Unhex;
  }

  lemma TransitionKeepsType(p: Parser, skipping: bool, ch: char)
    ensures KeepsType(p, Transition(p, skipping, ch))
  {
    hide OnIdle, OnLine, OnHead, OnValue, OnContent, OnChunk, KeepsType;
    match p.state
    case Idle(s) => IdleKeepsType(p, s, ch);
    case Line(s) => LineKeepsType(p, s, ch);
    case Head(s) => if s.HeaderValue? { ValueKeepsType(p, skipping, ch); } else { HeadKeepsType(p, s, ch); }
    case Content(s) => ContentKeepsType(p, s, ch);
    case Chunk(s) => ChunkKeepsType(p, s, ch);
  }

  lemma {:induction false} RunKeepsType(c: Core, data: string)
    ensures Run(c, data).c.p.errno == OK ==>
      (OnlyReplies(c.p) ==> OnlyReplies(Run(c, data).c.p)) && (OnlyRequests(c.p) ==> OnlyRequests(Run(c, data).c.p))
    decreases |data|
  {
    hide Transition, OnlyReplies, OnlyRequests;
    if data != [] && Going(c) {
      TransitionKeepsType(c.p, c.skipping, data[0]);
      RunStopped(Step(c, data[0]).c, data[1..]);
      RunKeepsType(Step(c, data[0]).c, data[1..]);
    }
  }

  /** A parser that waits for a message, as one that has just been initialised does. */
  predicate Awaits(p: Parser, t: ParserType) {
    && p.errno == OK && !p.upgrade && p.ptype == t && Inv(p)
    && ((t.REQUEST? && p.state == Idle(StartReq)) || (t.RESPONSE? && p.state == Idle(StartRes) && p.verb == DELETE))
  }

  lemma AwaitingIsFresh(p: Parser, t: ParserType)
    requires Awaits(p, t)
    ensures Same(p, Init(t)) && OnlyReplies(p) == t.RESPONSE? && OnlyRequests(p) == t.REQUEST?
  {
  }

  // ---- One message after the other ----

  /** A call that takes all of `m`, with whose last byte a message is complete. */
  predicate IsWhole(p: Parser, n: nat, m: string) {
    && m != "" && TakesWhole(p, n, m)
    && var c := Run(Begin(p, n), m[..|m| - 1]).c;
       Going(c) && MessageComplete in Step(c, m[|m| - 1]).events
  }

  /** The last byte of a message, and the core in front of it. */
  lemma LastStep(p: Parser, n: nat, m: string)
    requires Ready(p, n) && p.state.Idle? && IsWhole(p, n, m)
    ensures
      var d := Run(Begin(p, n), m[..|m| - 1]).c;
      var o := Step(d, m[|m| - 1]);
      && CoreInv(d) && CountsNoBody(d) && Going(d) && MessageComplete in o.events
      && Run(Begin(p, n), m).c == o.c
  {
    hide Step, Inv, TakesWhole;
    var c := Begin(p, n);
    BeginInv(p, n);
    var k := |m| - 1;
    var d := Run(c, m[..k]).c;
    RunInv(c, m[..k]);
    RunCountsNoBody(c, m[..k]);
    assert m == m[..k] + [m[k]];
    RunAppend(c, m[..k], [m[k]]);
    RunOneByte(d, m[k]);
  }

  lemma RunOneByte(d: Core, ch: char)
    requires Going(d)
    ensures Run(d, [ch]).c == Step(d, ch).c
  {
    hide Step;
    assert [ch][1..] == "";
    RunNothing(Step(d, ch).c);
  }

  lemma WholeIsTaken(p: Parser, n: nat, m: string)
    requires IsWhole(p, n, m)
    ensures m != "" && Call(p, n, m).c.p.errno == OK && !Call(p, n, m).c.over && Call(p, n, m).used == |m|
    ensures Run(Begin(p, n), m).c.p.errno == OK
  {
    hide Run, Step;
  }

  lemma LastOfMessage(p: Parser, n: nat, m: string)
    requires Ready(p, n) && p.state.Idle? && IsWhole(p, n, m)
    ensures
      var d := Run(Begin(p, n), m).c;
      && d.p.errno == OK && d.p.state == NewMessage(d.p) && d.halted == d.p.upgrade && CoreInv(d)
      && d.slice.Closed? && !d.inside && !d.skipping && !d.over
      && (!d.p.flags.chunked ==> d.nread == 0)
    ensures Call(p, n, m) == Run(Begin(p, n), m)
  {
    WholeIsTaken(p, n, m);
    LastStep(p, n, m);
    hide Run, Step, CoreInv, CountsNoBody, NewMessage, Finish, Ready, IsWhole;
    var d := Run(Begin(p, n), m[..|m| - 1]).c;
    LastByte(d, m[|m| - 1]);
    StepInv(d, m[|m| - 1]);
    FinishKeeps(Run(Begin(p, n), m));
  }

  lemma FinishKeeps(r: RunOut)
    requires r.c.slice.Closed? && !r.c.inside
    ensures Finish(r).c.p == r.c.p && Finish(r).c.halted == r.c.halted
    ensures Finish(r).c.nread <= MAX_HEADER_SIZE || !Going(r.c) || Finish(r).c.over
    ensures !Finish(r).c.over ==> Finish(r) == r && !r.c.over
  {
    assert r.events + [] == r.events;
  }

  /**
    Behind a whole message without an upgrade the parser awaits another one exactly if the version and
    the Connection flags keep the connection open, and something else than the end of input has ended
    the message. Otherwise the connection is dead.
   */
  lemma AfterOneMessage(p: Parser, t: ParserType, n: nat, m: string)
    requires Ready(p, n) && Awaits(p, t) && IsWhole(p, n, m)
    ensures
      var q := Call(p, n, m).c.p;
      !q.upgrade ==>
        && (Awaits(q, t) <==>
              && (if q.major > 0 && q.minor > 0 then !q.flags.connClose else q.flags.connKeepAlive)
              && (t.REQUEST? || 100 <= q.status < 200 || q.status == 204 || q.status == 304
                  || q.flags.chunked || q.contentLength != 0xFFFF_FFFF_FFFF_FFFF))
        && (!Awaits(q, t) ==> q.state == Idle(Dead))
  {
    hide Run, Step, TakesWhole;
    LastOfMessage(p, n, m);
    AwaitingIsFresh(p, t);
    RunKeepsType(Begin(p, n), m);
    hide Same, Ready, IsWhole;
  }

  /** A dead connection takes line ends, makes no callback, and refuses all else. */
  lemma {:induction false} DeadIsSilent(c: Core, data: string)
    requires c.p.state == Idle(Dead) && Going(c) && c.slice.Closed? && !c.inside && !c.skipping
    ensures
      var r := Run(c, data);
      && r.events == [] && r.c.slice.Closed? && !r.c.halted && !r.c.inside
      && (r.c.p.errno == OK <==> forall ch <- data :: ch == CR || ch == LF)
      && (r.c.p.errno == OK ==> r.c.p == c.p) && (r.c.p.errno != OK ==> r.c.p.errno == CLOSED_CONNECTION)
    decreases |data|
  {
    if data != [] {
      var d := Step(c, data[0]).c;
      assert data[0] in data && (forall ch <- data[1..] :: ch in data);
      assert forall ch <- data :: ch == data[0] || ch in data[1..];
      if data[0] == CR || data[0] == LF {
        DeadIsSilent(d, data[1..]);
      } else {
        RunStopped(d, data[1..]);
      }
    }
  }

  /** However many calls follow, a dead connection makes no callback. */
  lemma {:induction false} DeadForever(p: Parser, n: nat, pieces: seq<string>)
    requires p.state == Idle(Dead) && p.errno == OK
    ensures Feed(p, n, pieces).events == []
    decreases |pieces|
  {
    hide Run;
    if pieces != [] {
      DeadIsSilent(Begin(p, n), pieces[0]);
      var r := Call(p, n, pieces[0]);
      if r.c.p.errno == OK {
        DeadForever(r.c.p, r.c.nread, pieces[1..]);
      }
    }
  }

  lemma AppendedIsRun(p: Parser, n: nat, a: string, b: string)
    requires Going(Run(Begin(p, n), a).c)
    ensures
      var x := Run(Begin(p, n), a);
      var y := Finish(Run(x.c, b));
      Call(p, n, a + b) == RunOut(y.c, x.events + y.events, x.used + y.used)
  {
    hide Step, Run;
    RunAppend(Begin(p, n), a, b);
    var x := Run(Begin(p, n), a);
    FinishAppend(x.events, x.used, Run(x.c, b));
  }

  lemma HaltedIsOver(p: Parser, n: nat, m: string, more: string)
    requires Run(Begin(p, n), m).c.halted
    ensures Call(p, n, m + more) == Call(p, n, m)
  {
    hide Step, Run;
    RunAppend(Begin(p, n), m, more);
    var x := Run(Begin(p, n), m);
    RunStopped(x.c, more);
    assert x.events + [] == x.events;
  }

  /**
    Pipelining: input behind a complete message is read as by a parser that has just been
    initialised, with what the first message has left of the header limit. It is not read at all
    if the message asked for an upgrade, and makes no callback if the message was to be the last.
   */
  lemma Pipelining(p: Parser, t: ParserType, n: nat, m: string, more: string)
    requires Ready(p, n) && Awaits(p, t) && IsWhole(p, n, m)
    ensures !Call(p, n, m).c.p.flags.chunked ==> Call(p, n, m).c.nread == 0
    ensures
      var x, z := Call(p, n, m), Call(p, n, m + more);
      if x.c.p.upgrade then z == x
      else if Awaits(x.c.p, t) then
        var y := Call(Init(t), x.c.nread, more);
        && z.events == x.events + y.events && z.used == x.used + y.used
        && z.c.p.errno == y.c.p.errno
        && (y.c.p.errno == OK ==>
              Same(z.c.p, y.c.p) && z.c.nread == y.c.nread && z.c.over == y.c.over && z.c.halted == y.c.halted)
      else
        && z.events == x.events
        && (z.c.p.errno == OK <==> forall ch <- more :: ch == CR || ch == LF)
  {
    hide Run, Step, Inv, Same, TakesWhole, IsWhole;
    LastOfMessage(p, n, m);
    AfterOneMessage(p, t, n, m);
    hide NewMessage;
    var c := Run(Begin(p, n), m).c;
    if c.p.upgrade {
      HaltedIsOver(p, n, m, more);
    } else {
      AppendedIsRun(p, n, m, more);
      var y := Run(c, more);
      if Awaits(c.p, t) {
        var f := Begin(Init(t), c.nread);
        AwaitingIsFresh(c.p, t);
        SameState(c.p, Init(t));
        RunSame(c, f, more);
        FinishSame(y, Run(f, more));
      } else {
        DeadIsSilent(c, more);
        assert Run(Begin(p, n), m).events + [] == Run(Begin(p, n), m).events;
        FinishKeeps(y);
        assert Finish(y).events == [];
      }
    }
  }

  lemma FinishSame(x: RunOut, y: RunOut)
    requires SameCore(x.c, y.c) && x.events == y.events && x.used == y.used
    ensures
      var u, v := Finish(x), Finish(y);
      && u.events == v.events && u.used == v.used && SameCore(u.c, v.c)
  {
    hide Same;
  }

  // ---- Many messages ----

  /** The count is not read by the states: it only tells when the limit is passed. */
  lemma {:induction false} CountIsNoState(c: Core, d: Core, data: string)
    requires d == c.(nread := d.nread, over := d.over)
    ensures
      var x, y := Run(c, data), Run(d, data);
      y.c == x.c.(nread := y.c.nread, over := y.c.over) && y.events == x.events && y.used == x.used
    decreases |data|
  {
    hide Transition, Hand, Extend;
    if data != [] && Going(c) {
      CountIsNoState(Step(c, data[0]).c, Step(d, data[0]).c, data[1..]);
    }
  }

  /**
    Messages that are each taken by a fresh parser which starts with the count the one before
    left; behind each of them the parser awaits another.
   */
  predicate AreKept(t: ParserType, n: nat, messages: seq<string>)
    decreases |messages|
  {
    messages == [] ||
    (IsWhole(Init(t), n, messages[0])
     && var c := Call(Init(t), n, messages[0]).c;
        Awaits(c.p, t) && AreKept(t, c.nread, messages[1..]))
  }

  /** The callbacks for messages that are each read by a parser of its own, with nothing counted before. */
  function EachAlone(t: ParserType, messages: seq<string>): seq<Event> {
    if messages == [] then [] else Call(Init(t), 0, messages[0]).events + EachAlone(t, messages[1..])
  }

  lemma AloneIsTheSame(t: ParserType, n: nat, m: string)
    ensures Call(Init(t), n, m).events == Call(Init(t), 0, m).events
  {
    hide Run;
    CountIsNoState(Begin(Init(t), 0), Begin(Init(t), n), m);
  }

  /** Any number of messages in one call: they are all taken, and reported one by one as if each came alone. */
  lemma {:induction false} AllMessages(t: ParserType, n: nat, messages: seq<string>)
    requires !t.BOTH? && n <= MAX_HEADER_SIZE && AreKept(t, n, messages)
    ensures TakesWhole(Init(t), n, Concat(messages))
    ensures Call(Init(t), n, Concat(messages)).events == EachAlone(t, messages)
    decreases |messages|
  {
    hide Run, Same, IsWhole;
    if messages == [] {
      RunNothing(Begin(Init(t), n));
      StartIsIdle(t);
    } else {
      var m, rest := messages[0], messages[1..];
      var x := Call(Init(t), n, m);
      InitAwaits(t, n);
      WholeIsTaken(Init(t), n, m);
      LastOfMessage(Init(t), n, m);
      CallIsWithinLimit(Init(t), n, m);
      AllMessages(t, x.c.nread, rest);
      Pipelining(Init(t), t, n, m, Concat(rest));
      AloneIsTheSame(t, n, m);
    }
  }

  lemma StartIsIdle(t: ParserType)
    ensures Resume(Init(t)) == Closed && Init(t).errno == OK
  {
  }

  lemma CallIsWithinLimit(p: Parser, n: nat, m: string)
    requires var c := Call(p, n, m).c; Going(c) && !c.over
    ensures Call(p, n, m).c.nread <= MAX_HEADER_SIZE
  {
    hide Run;
  }

  /** Where no message is chunked, each may be looked at alone: there is no count left to carry. */
  lemma {:induction false} PlainAreKept(t: ParserType, messages: seq<string>)
    requires !t.BOTH?
    requires forall m <- messages :: IsWhole(Init(t), 0, m)
    requires forall m <- messages ::
      var q := Call(Init(t), 0, m).c.p;
      Awaits(q, t) && !q.flags.chunked
    ensures AreKept(t, 0, messages)
    decreases |messages|
  {
    hide Run, IsWhole;
    if messages != [] {
      var m, rest := messages[0], messages[1..];
      assert m in messages && forall x <- rest :: x in messages;
      InitAwaits(t, 0);
      LastOfMessage(Init(t), 0, m);
      PlainAreKept(t, rest);
    }
  }

  lemma InitAwaits(t: ParserType, n: nat)
    requires !t.BOTH?
    ensures Ready(Init(t), n) && Awaits(Init(t), t)
  {
  }
}
