/** Line ends without CR, and parsers that do not know yet what they read. */
module LineEnds {
  import opened Chars
  import opened ParserTypes
  import opened Transitions
  import opened Machine
  import opened Invariant
  import opened FieldNames

  // ---- A line feed alone ----

  /** The states in which a line may end. */
  predicate MayEndLine(s: State) {
    match s
    case Idle(i) => i.StartReq? || i.StartReqOrRes? || i.Dead?
    case Line(l) =>
      || (l.ReqUrl? && !UrlMustGoOn(l.url)) || l == ReqVersion(HttpMinor)
      || l == ResStatus(StatusCode) || l == ResStatus(StatusStart) || l == ResStatus(StatusText)
    case Head(h) =>
      h.HeaderFieldStart? || h.HeaderValueDiscardWs? || h.HeaderValue? || h.HeaderValueLws? || h.HeaderValueDiscardLws?
    case _ => false
  }

  /** What CR and LF do, against what LF alone does. */
  predicate EndsAlike(p: Parser, cr: Outcome, crlf: Outcome, lf: Outcome) {
    && cr.p.errno == OK && !cr.halt && cr.mark.NoMark? && !cr.reset
    && crlf.p == lf.p && crlf.halt == lf.halt && crlf.reset == lf.reset
    && cr.flush == lf.flush && crlf.flush == Keep && crlf.mark == lf.mark == NoMark
    && cr.notes + crlf.notes == lf.notes
    && !crlf.skipping && !lf.skipping
  }

  lemma IdleEndsAlike(p: Parser, skipping: bool)
    requires p.errno == OK && MayEndLine(p.state) && p.state.Idle?
    ensures
      var cr := Transition(p, skipping, CR);
      EndsAlike(p, cr, Transition(cr.p, false, LF), Transition(p, skipping, LF))
  {
    hide OnHead, OnValue, OnLine;
  }

  lemma FirstLineEndsAlike(p: Parser, skipping: bool)
    requires p.errno == OK && MayEndLine(p.state) && p.state.Line?
    ensures
      var cr := Transition(p, skipping, CR);
      EndsAlike(p, cr, Transition(cr.p, false, LF), Transition(p, skipping, LF))
  {
    hide OnHead, OnValue, OnIdle, OnMethod;
  }

  lemma ValueEndsAlike(p: Parser, skipping: bool)
    requires p.errno == OK && MayEndLine(p.state)
    requires p.state == Head(HeaderValue) || p.state == Head(HeaderValueDiscardWs)
    ensures
      var cr := Transition(p, skipping, CR);
      EndsAlike(p, cr, Transition(cr.p, false, LF), Transition(p, skipping, LF))
  {
    hide OnLine, OnIdle, OnFieldStart, OnHeadersAlmostDone, OnHeadersDone, OnField, OnValueStart;
  }

  lemma HeadersEndIs(p: Parser, skipping: bool)
    requires p.state == Head(HeadersAlmostDone)
    ensures Transition(p, skipping, LF) == OnHeadersAlmostDone(p, LF, [])
  {
    hide OnHeadersAlmostDone;
  }

  /** The notes of the end of a header stand behind those before it. */
  lemma NotesBehind(p: Parser, before: seq<Event>)
    requires p.state.Head?
    ensures
      var q := p.(state := Head(HeadersAlmostDone));
      var x, y := OnHeadersAlmostDone(q, LF, []), OnHeadersAlmostDone(p, LF, before);
      && y.notes == before + x.notes && x.flush == y.flush == Keep && x.mark == y.mark == NoMark
      && x.halt == y.halt && x.reset == y.reset && !x.skipping && !y.skipping
      && x.p.errno == y.p.errno && (x.p.errno == OK ==> x.p == y.p)
  {
  }

  lemma HeaderEndsAlike(p: Parser, skipping: bool)
    requires p.errno == OK && AtField(p)
    ensures
      var cr := Transition(p, skipping, CR);
      var crlf, lf := Transition(cr.p, false, LF), Transition(p, skipping, LF);
      && cr.p.errno == OK && crlf.p.errno == lf.p.errno
      && (lf.p.errno == OK ==> EndsAlike(p, cr, crlf, lf))
  {
    hide Transition, OnHeadersAlmostDone;
    var q := AsField(p);
    OnFieldStartIs(p, skipping, CR);
    OnFieldStartIs(p, skipping, LF);
    NotesBehind(q, Owed(p));
    HeadersEndIs(q.(state := Head(HeadersAlmostDone)), false);
  }

  /** The cores agree but for the byte more that is counted. */
  lemma StepsAlike(c: Core)
    requires CoreInv(c) && Going(c) && ParsingHeader(c.p.state)
    requires
      var cr := Transition(c.p, c.skipping, CR);
      && EndsAlike(c.p, cr, Transition(cr.p, false, LF), Transition(c.p, c.skipping, LF))
      && !cr.skipping && ParsingHeader(cr.p.state)
      && (if cr.flush == Keep then c.slice.Closed? else cr.flush.Before? && c.slice.Open? && c.slice.kind == cr.flush.kind)
    requires Transition(c.p, c.skipping, LF).p.errno == OK
    ensures
      var cr := Step(c, CR);
      var crlf, lf := Step(cr.c, LF), Step(c, LF);
      && crlf.c.p == lf.c.p && crlf.c.slice == lf.c.slice && crlf.c.halted == lf.c.halted
      && cr.events + crlf.events == lf.events && lf.c.nread <= crlf.c.nread <= lf.c.nread + 1
  {
    hide Transition, Inv;
    var cr := Transition(c.p, c.skipping, CR);
    var rest := Transition(cr.p, false, LF).notes;
    var told := Rest(c.slice);
    assert told + (cr.notes + rest) == (told + cr.notes) + ([] + rest);
  }

  lemma CrStays(p: Parser, skipping: bool)
    requires p.errno == OK && MayEndLine(p.state)
    ensures
      var cr := Transition(p, skipping, CR);
      && !cr.skipping && ParsingHeader(p.state) && ParsingHeader(cr.p.state)
      && (if Marked(p).At? then cr.flush == Before(Marked(p).kind) else cr.flush == Keep)
  {
    hide OnHeadersAlmostDone, OnHeadersDone, OnField, OnValueStart, OnSpecialValue, FirstGuess;
  }

  lemma MarksAreOpen(c: Core)
    requires CoreInv(c) && ParsingHeader(c.p.state)
    ensures if Marked(c.p).At? then c.slice.Open? && c.slice.kind == Marked(c.p).kind else c.slice.Closed?
  {
  }

  /**
    Wherever a line may end, a line feed alone ends it just as CR LF does: the parser, the callbacks
    and what is marked are the same, and at most one byte less is counted.
   */
  lemma LineFeedEndsLine(c: Core)
    requires CoreInv(c) && Going(c) && MayEndLine(c.p.state)
    ensures
      var cr := Step(c, CR);
      var crlf, lf := Step(cr.c, LF), Step(c, LF);
      && Going(cr.c) && crlf.c.p.errno == lf.c.p.errno
      && (lf.c.p.errno == OK ==>
            && crlf.c.p == lf.c.p && crlf.c.slice == lf.c.slice && crlf.c.halted == lf.c.halted
            && cr.events + crlf.events == lf.events && lf.c.nread <= crlf.c.nread <= lf.c.nread + 1)
  {
    hide Transition, Inv, EndsAlike, Marked;
    var p := c.p;
    CrStays(p, c.skipping);
    MarksAreOpen(c);
    if !p.state.Head? {
      if p.state.Idle? { IdleEndsAlike(p, c.skipping); } else { FirstLineEndsAlike(p, c.skipping); }
      AlikeIsOk(p, c.skipping);
    } else if p.state == Head(HeaderValue) || p.state == Head(HeaderValueDiscardWs) {
      ValueEndsAlike(p, c.skipping);
      AlikeIsOk(p, c.skipping);
    } else {
      HeaderEndsAlike(p, c.skipping);
      CrDoesNotHalt(p, c.skipping);
    }
    if Transition(p, c.skipping, LF).p.errno == OK {
      StepsAlike(c);
    }
  }

  lemma AlikeIsOk(p: Parser, skipping: bool)
    requires
      var cr := Transition(p, skipping, CR);
      EndsAlike(p, cr, Transition(cr.p, false, LF), Transition(p, skipping, LF))
    ensures
      var cr := Transition(p, skipping, CR);
      && cr.p.errno == OK && !cr.halt
      && Transition(cr.p, false, LF).p.errno == Transition(p, skipping, LF).p.errno
  {
    hide Transition;
  }

  lemma CrDoesNotHalt(p: Parser, skipping: bool)
    requires AtField(p)
    ensures !Transition(p, skipping, CR).halt
  {
    OnFieldStartIs(p, skipping, CR);
    hide Transition;
  }

  // ---- Requests or replies ----

  /** A byte that only moves on, where nothing is marked. */
  lemma QuietStep(c: Core, ch: char, o: Outcome)
    requires Transition(c.p, c.skipping, ch) == o && c.slice.Closed? && ParsingHeader(c.p.state)
    requires o.p.errno == OK && o.flush == Keep && o.mark == NoMark && !o.reset
    ensures Step(c, ch) == StepOut(
      Core(o.p, c.nread + 1, Closed, o.skipping, Inside(c.p.state, o.p.state),
           c.over || c.nread + 1 > MAX_HEADER_SIZE, o.halt),
      o.notes)
  {
    hide Transition;
    assert [] + o.notes == o.notes;
  }

  /** What a parser has read behind the first letter, and behind the second. */
  lemma LettersOfReply()
    ensures
      var p := Init(BOTH).(flags := NO_FLAGS, contentLength := NO_LENGTH);
      && Transition(Init(BOTH), false, 'H') == ToTelling(p, Line(ResOrRespH), [MessageBegin])
      && Transition(p.(state := Line(ResOrRespH)), false, 'T')
           == To(p.(ptype := RESPONSE), Line(ResVersion(VersionHT)))
    ensures
      var p := Init(RESPONSE).(flags := NO_FLAGS, contentLength := NO_LENGTH);
      && Transition(Init(RESPONSE), false, 'H') == ToTelling(p, Line(ResVersion(VersionH)), [MessageBegin])
      && Transition(p.(state := Line(ResVersion(VersionH))), false, 'T') == To(p, Line(ResVersion(VersionHT)))
  {
    hide OnHead, OnValue, OnContent, OnChunk;
  }

  lemma LettersOfHead()
    ensures
      var p := Init(BOTH).(flags := NO_FLAGS, contentLength := NO_LENGTH);
      && Transition(Init(BOTH), false, 'H') == ToTelling(p, Line(ResOrRespH), [MessageBegin])
      && Transition(p.(state := Line(ResOrRespH)), false, 'E')
           == To(p.(ptype := REQUEST, verb := HEAD, index := 2), Line(ReqMethod))
    ensures
      var p := Init(REQUEST).(flags := NO_FLAGS, contentLength := NO_LENGTH, verb := HEAD, index := 1);
      && Transition(Init(REQUEST), false, 'H') == ToTelling(p, Line(ReqMethod), [MessageBegin])
      && Transition(p.(state := Line(ReqMethod)), false, 'E') == Stay(p.(state := Line(ReqMethod), index := 2))
  {
    hide OnHead, OnValue, OnContent, OnChunk;
    assert MethodName(HEAD) == "HEAD";
  }

  /** Two runs that come to the same core with the same callbacks in two letters. */
  lemma SameBehindTwo(c: Core, d: Core, a: char, b: char, x: StepOut, y: StepOut, u: StepOut, rest: string)
    requires Going(c) && Going(d) && Step(c, a) == x && Step(d, a) == y && Going(x.c) && Going(y.c)
    requires Step(x.c, b) == Step(y.c, b) == u && x.events == y.events
    ensures Run(c, [a] + [b] + rest) == Run(d, [a] + [b] + rest)
  {
    hide Step;
    var data := [a] + [b] + rest;
    assert data[1..] == [b] + rest && ([b] + rest)[1..] == rest;
  }

  /** A parser of either kind settles for replies behind "HT", with nothing left of the other kind. */
  lemma EitherReadsReplies(n: nat, rest: string)
    ensures Run(Begin(Init(BOTH), n), "HT" + rest) == Run(Begin(Init(RESPONSE), n), "HT" + rest)
  {
    hide Step, Run, Transition;
    LettersOfReply();
    var c, d := Begin(Init(BOTH), n), Begin(Init(RESPONSE), n);
    var p := Init(BOTH).(flags := NO_FLAGS, contentLength := NO_LENGTH);
    var q := Init(RESPONSE).(flags := NO_FLAGS, contentLength := NO_LENGTH);
    QuietStep(c, 'H', ToTelling(p, Line(ResOrRespH), [MessageBegin]));
    QuietStep(d, 'H', ToTelling(q, Line(ResVersion(VersionH)), [MessageBegin]));
    var x, y := Step(c, 'H'), Step(d, 'H');
    QuietStep(x.c, 'T', To(p.(ptype := RESPONSE), Line(ResVersion(VersionHT))));
    QuietStep(y.c, 'T', To(q, Line(ResVersion(VersionHT))));
    assert "HT" == ['H'] + ['T'];
    SameBehindTwo(c, d, 'H', 'T', x, y, Step(x.c, 'T'), rest);
  }

  /** And for requests behind "HE", as for the method HEAD. */
  lemma EitherReadsHead(n: nat, rest: string)
    ensures Run(Begin(Init(BOTH), n), "HE" + rest) == Run(Begin(Init(REQUEST), n), "HE" + rest)
  {
    hide Step, Run, Transition;
    LettersOfHead();
    var c, d := Begin(Init(BOTH), n), Begin(Init(REQUEST), n);
    var p := Init(BOTH).(flags := NO_FLAGS, contentLength := NO_LENGTH);
    var q := Init(REQUEST).(flags := NO_FLAGS, contentLength := NO_LENGTH, verb := HEAD, index := 1);
    QuietStep(c, 'H', ToTelling(p, Line(ResOrRespH), [MessageBegin]));
    QuietStep(d, 'H', ToTelling(q, Line(ReqMethod), [MessageBegin]));
    var x, y := Step(c, 'H'), Step(d, 'H');
    QuietStep(x.c, 'E', To(p.(ptype := REQUEST, verb := HEAD, index := 2), Line(ReqMethod)));
    QuietStep(y.c, 'E', Stay(q.(state := Line(ReqMethod), index := 2)));
    assert "HE" == ['H'] + ['E'];
    SameBehindTwo(c, d, 'H', 'E', x, y, Step(x.c, 'E'), rest);
  }

  lemma EitherStartsRequest(ch: char)
    requires ch != 'H' && ch != CR && ch != LF
    ensures
      var x, y := Transition(Init(BOTH), false, ch), Transition(Init(REQUEST), false, ch);
      x == y
  {
    hide OnHead, OnValue, OnContent, OnChunk, OnLine, FirstGuess;
  }

  /** Any other letter begins a request. */
  lemma EitherReadsRequests(n: nat, ch: char, rest: string)
    requires ch != 'H' && ch != CR && ch != LF
    ensures Run(Begin(Init(BOTH), n), [ch] + rest) == Run(Begin(Init(REQUEST), n), [ch] + rest)
  {
    hide Transition;
    EitherStartsRequest(ch);
    var c, d := Begin(Init(BOTH), n), Begin(Init(REQUEST), n);
    assert ([ch] + rest)[1..] == rest;
    assert Step(c, ch) == Step(d, ch);
    hide Step;
  }
}
