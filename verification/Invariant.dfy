/**
  The invariant of the parser between bytes, and that every byte keeps it.

  It implies every assertion in `http_parser_execute`.
 */
module Invariant {
  import opened Chars
  import opened ParserTypes
  import opened Transitions
  import opened Machine

  /** The header states a field name can be in. */
  predicate IsFieldState(h: HeaderState) {
    CountsFieldLetters(h) || h.General? || h.Connection? || h.ContentLength? || h.TransferEncoding? || h.Upgrade?
  }

  /** The header states a value can be in. */
  predicate IsValueState(h: HeaderState) {
    || h.General? || h.ContentLength? || h.MatchingChunked? || h.Chunked?
    || h.MatchingTokenStart? || h.MatchingToken?
    || h.MatchingKeepAlive? || h.MatchingClose? || h.MatchingConnUpgrade?
    || h.ConnKeepAlive? || h.ConnClose? || h.ConnUpgrade?
  }

  /** `index` is where the letters matched so far end. */
  predicate IndexFits(h: HeaderState, index: nat) {
    match h
    case C => index == 0
    case CO => index == 1
    case CON => index == 2
    case MatchingTokenStart => index == 0
    case _ => NameFor(h) != "" ==> index + 2 <= |NameFor(h)|
  }

  predicate InFieldOrSpace(s: HeadState) {
    s.HeaderField? || s.HeaderValueDiscardWs? || s.HeaderValueDiscardWsAlmostDone? || s.HeaderValueDiscardLws?
  }

  predicate InValue(s: HeadState) {
    s.HeaderValue? || s.HeaderAlmostDone? || s.HeaderValueLws?
  }

  /** In the first line of a message nothing is known of its length and its flags. */
  predicate LineFits(p: Parser, s: LineState) {
    && p.flags == NO_FLAGS
    && p.contentLength == NO_LENGTH
    && (s.ReqMethod? ==> 1 <= p.index <= |MethodName(p.verb)|)
    && (s.ReqUrl? ==> !s.url.UrlDead? && !s.url.BeforeUrl?)
  }

  /** `content_length` is known only from its header; the chunk sizes are over in a trailer. */
  predicate LengthFits(p: Parser) {
    && p.contentLength <= NO_LENGTH
    && (p.flags.trailing ==> p.flags.chunked)
    && (!p.flags.contentLength && !p.flags.trailing ==> p.contentLength == NO_LENGTH)
  }

  predicate HeadFits(p: Parser, s: HeadState) {
    && LengthFits(p)
    && !s.HeaderValueStart? && !s.HeadersDone?
    && (InFieldOrSpace(s) ==>
          IsFieldState(p.hstate) && (p.hstate.ContentLength? ==> p.flags.contentLength))
    && (InValue(s) ==>
          && IsValueState(p.hstate)
          && (p.hstate.ContentLength? ==> p.flags.contentLength && p.contentLength < NO_LENGTH))
    && (s.HeaderField? || s.HeaderValue? ==> IndexFits(p.hstate, p.index))
  }

  predicate ContentFits(p: Parser, s: ContentState) {
    && !s.MessageDone?
    && !p.flags.chunked && !p.flags.trailing
    && (if s.BodyIdentity? then p.flags.contentLength && 0 < p.contentLength < NO_LENGTH
        else p.contentLength == NO_LENGTH)
  }

  predicate ChunkFits(p: Parser, s: ChunkState) {
    && p.flags.chunked && !p.flags.trailing && !p.flags.contentLength
    && (s.ChunkData? ==> 0 < p.contentLength)
    && (if s.ChunkDataAlmostDone? || s.ChunkDataDone? then p.contentLength == 0
        else s.ChunkSizeStart? || p.contentLength < NO_LENGTH)
  }

  /** The fields of 7 and 16 bits never wrap. */
  predicate NumbersFit(p: Parser) {
    p.major <= 999 && p.minor <= 999 && p.status <= 999 && p.index <= 17
  }

  predicate Inv(p: Parser) {
    && NumbersFit(p)
    && match p.state
       case Idle(_) => true
       case Line(s) => LineFits(p, s)
       case Head(s) => HeadFits(p, s)
       case Content(s) => ContentFits(p, s)
       case Chunk(s) => ChunkFits(p, s)
  }

  /** The states in which bytes of the body may be marked. */
  predicate InBodyBytes(s: State) {
    s.Content? || (s.Chunk? && (s.chunk.ChunkData? || s.chunk.ChunkDataAlmostDone?))
  }

  /** What may be marked in each state: one kind of slice, and only where the state says so. */
  predicate SliceFits(p: Parser, slice: Slice) {
    if InBodyBytes(p.state) then slice.Open? ==> slice.kind == Body
    else
      match Marked(p)
      case At(kind) => slice.Open? && slice.kind == kind
      case NoMark => slice.Closed?
  }

  predicate CoreInv(c: Core) {
    && Inv(c.p)
    && SliceFits(c.p, c.slice)
    && (c.p.state == Chunk(ChunkSizeStart) ==> c.nread == 0)
    && (c.halted ==> c.p.state.Idle?)
    && (c.skipping ==> c.p.state == Head(HeaderValue))
    && (c.inside ==> InLetters(c.p.state))
  }

  lemma InitInv(t: ParserType)
    ensures Inv(Init(t))
  {
  }

  lemma BeginInv(p: Parser, nread: nat)
    requires Inv(p) && (p.state == Chunk(ChunkSizeStart) ==> nread == 0)
    ensures CoreInv(Begin(p, nread))
  {
  }

  /** Between two messages nothing is marked, and nothing skipped. */
  lemma IdleIsClosed(c: Core)
    requires CoreInv(c) && c.p.state.Idle?
    ensures c.slice.Closed? && !c.inside && !c.skipping
  {
  }

  // ---- Every byte keeps the invariant ----

  /** How the marks of the states before and after a byte hang together. */
  predicate MarksFlow(p: Parser, o: Outcome) {
    match o.flush
    case Keep =>
      if InBodyBytes(p.state) then InBodyBytes(o.p.state) && o.mark == At(Body) && o.notes == []
      else if Marked(p).At? then
        Marked(o.p) == Marked(p) && o.mark == NoMark && o.notes == [] && !InBodyBytes(o.p.state)
      else if InBodyBytes(o.p.state) then o.mark == NoMark
      else Marked(o.p) == o.mark
    case Before(kind) =>
      && (Marked(p) == At(kind) || (InBodyBytes(p.state) && kind == Body))
      && Marked(o.p) == NoMark == o.mark && !InBodyBytes(o.p.state)
    case Through(kind) =>
      p.state == Content(BodyIdentity) && kind == Body && Marked(o.p) == NoMark == o.mark && !InBodyBytes(o.p.state)
  }

  predicate Keeps(p: Parser, o: Outcome) {
    && (o.p.errno == OK ==> Inv(o.p) && (o.p.state == Chunk(ChunkSizeStart) ==> o.reset))
    && (p.errno == OK ==> o.p.errno != HEADER_OVERFLOW)
  }

  predicate Flows(p: Parser, o: Outcome) {
    && (if o.p.errno == OK then MarksFlow(p, o) else p.errno == OK ==> o.flush == Keep)
    && (o.skipping ==> p.state == Head(HeaderValue) == o.p.state)
    && (o.halt ==> o.p.state.Idle?)
  }

  lemma SliceKept(p: Parser, slice: Slice, o: Outcome, ch: char)
    requires SliceFits(p, slice) && MarksFlow(p, o)
    ensures SliceFits(o.p, Extend(Hand(slice, o.flush, ch).0, o.mark, ch))
  {
  }

  lemma IdleInv(p: Parser, s: IdleState, ch: char)
    requires Inv(p) && p.state == Idle(s)
    ensures Keeps(p, OnIdle(p, s, ch)) && Flows(p, OnIdle(p, s, ch))
  {
    hide ContentFits, ChunkFits, IsFieldState, IsValueState, IndexFits, HeadFits;
  }

  lemma ResVersionInv(p: Parser, s: VersionState, ch: char)
    requires Inv(p) && p.state == Line(ResVersion(s))
    ensures Keeps(p, OnResVersion(p, s, ch)) && Flows(p, OnResVersion(p, s, ch))
  {
    hide ContentFits, ChunkFits, IsFieldState, IsValueState, IndexFits;
  }

  lemma CodeInv(p: Parser, ch: char)
    requires Inv(p) && p.state == Line(ResStatus(StatusCode))
    ensures Keeps(p, OnStatusCode(p, ch)) && Flows(p, OnStatusCode(p, ch))
  {
    hide ContentFits, ChunkFits, IsFieldState, IsValueState, IndexFits;
  }

  lemma StatusInv(p: Parser, s: StatusState, ch: char)
    requires Inv(p) && p.state == Line(ResStatus(s))
    ensures Keeps(p, OnStatus(p, s, ch)) && Flows(p, OnStatus(p, s, ch))
  {
    hide OnStatusCode, ContentFits, ChunkFits, IsFieldState, IsValueState, IndexFits;
    if s.StatusCode? { CodeInv(p, ch); }
  }

  lemma ReqVersionInv(p: Parser, s: VersionState, ch: char)
    requires Inv(p) && p.state == Line(ReqVersion(s))
    ensures Keeps(p, OnReqVersion(p, s, ch)) && Flows(p, OnReqVersion(p, s, ch))
  {
    hide ContentFits, ChunkFits, IsFieldState, IsValueState, IndexFits;
  }

  lemma MethodInv(p: Parser, ch: char)
    requires Inv(p) && p.state == Line(ReqMethod)
    ensures Keeps(p, OnMethod(p, ch)) && Flows(p, OnMethod(p, ch))
  {
    hide ContentFits, ChunkFits, IsFieldState, IsValueState, IndexFits, FirstGuess;
  }

  lemma UrlByteInv(p: Parser, u: UrlState, ch: char)
    requires Inv(p) && p.state == Line(ReqUrl(u))
    ensures Keeps(p, OnUrl(p, u, ch, NoMark)) && Flows(p, OnUrl(p, u, ch, NoMark))
  {
    hide ContentFits, ChunkFits, HeadFits, ParseUrlChar;
  }

  lemma UrlInv(p: Parser, u: UrlState, ch: char)
    requires Inv(p) && p.state == Line(ReqUrl(u))
    ensures Keeps(p, OnUrlOrEnd(p, u, ch)) && Flows(p, OnUrlOrEnd(p, u, ch))
  {
    UrlByteInv(p, u, ch);
    hide OnUrl, ContentFits, ChunkFits, IsFieldState, IsValueState, IndexFits, ParseUrlChar;
  }

  lemma LineInv(p: Parser, s: LineState, ch: char)
    requires Inv(p) && p.state == Line(s)
    ensures Keeps(p, OnLine(p, s, ch)) && Flows(p, OnLine(p, s, ch))
  {
    hide ParseUrlChar, OnResVersion, OnReqVersion, OnStatus, OnMethod, OnUrlOrEnd;
    match s {
      case ResVersion(v) => ResVersionInv(p, v, ch);
      case ReqVersion(v) => ReqVersionInv(p, v, ch);
      case ResStatus(t) => StatusInv(p, t, ch);
      case ReqMethod => MethodInv(p, ch);
      case ReqUrl(u) => UrlByteInv(p, u, ch); UrlInv(p, u, ch);
      case _ =>
    }
  }

  /** A value byte in a recognising state only moves the recogniser. */
  lemma SpecialShape(p: Parser, ch: char)
    ensures
      var o := OnSpecialValue(p, ch);
      var q := o.p;
      && o == Stay(q) && (p.errno == OK ==> q.errno != HEADER_OVERFLOW)
      && q == p.(hstate := q.hstate, index := q.index, flags := q.flags, contentLength := q.contentLength,
                 errno := q.errno)
  {
    hide MatchLetter, Lower, TokenStart, EndOfToken, IsToken;
  }

  lemma ValueFlow(p: Parser, skipping: bool, ch: char)
    requires p.state == Head(HeaderValue)
    ensures Flows(p, OnValue(p, skipping, ch))
  {
    hide OnSpecialValue;
    SpecialShape(p, ch);
  }

  lemma MatchingValueInv(p: Parser, ch: char)
    requires Inv(p) && p.state == Head(HeaderValue) && NameFor(p.hstate) != ""
    ensures Keeps(p, OnSpecialValue(p, ch))
  {
    hide LineFits, ContentFits, ChunkFits, IsFieldState, Lower, EndOfToken;
  }

  lemma TokenValueInv(p: Parser, ch: char)
    requires Inv(p) && p.state == Head(HeaderValue)
    requires p.hstate.MatchingTokenStart? || p.hstate.MatchingToken? || p.hstate.Chunked?
    ensures Keeps(p, OnSpecialValue(p, ch))
  {
    hide LineFits, ContentFits, ChunkFits, IsFieldState;
  }

  lemma AfterTokenInv(p: Parser, ch: char)
    requires Inv(p) && p.state == Head(HeaderValue)
    requires p.hstate.ConnKeepAlive? || p.hstate.ConnClose? || p.hstate.ConnUpgrade?
    ensures Keeps(p, OnSpecialValue(p, ch))
  {
    hide LineFits, ContentFits, ChunkFits, IsFieldState;
  }

  lemma LengthValueInv(p: Parser, ch: char)
    requires Inv(p) && p.state == Head(HeaderValue) && p.hstate.ContentLength?
    ensures Keeps(p, OnSpecialValue(p, ch))
  {
  }

  lemma ValueInv(p: Parser, skipping: bool, ch: char)
    requires Inv(p) && p.state == Head(HeaderValue)
    ensures Keeps(p, OnValue(p, skipping, ch))
  {
    hide LineFits, ContentFits, ChunkFits, IsFieldState, OnSpecialValue, MatchLetter;
    if !p.hstate.General? {
      assert Keeps(p, OnSpecialValue(p, ch)) by {
        match p.hstate
        case ContentLength => LengthValueInv(p, ch);
        case MatchingTokenStart => TokenValueInv(p, ch);
        case MatchingToken => TokenValueInv(p, ch);
        case Chunked => TokenValueInv(p, ch);
        case ConnKeepAlive => AfterTokenInv(p, ch);
        case ConnClose => AfterTokenInv(p, ch);
        case ConnUpgrade => AfterTokenInv(p, ch);
        case _ => MatchingValueInv(p, ch);
      }
    }
  }

  lemma EnterValue(p: Parser, q: Parser)
    requires NumbersFit(p) && LengthFits(q)
    requires q == p.(state := Head(HeaderValue), index := 0, hstate := q.hstate, flags := q.flags,
                     contentLength := q.contentLength)
    requires IsValueState(q.hstate) && IndexFits(q.hstate, 0)
    requires q.hstate.ContentLength? ==> q.flags.contentLength && q.contentLength < NO_LENGTH
    ensures Inv(q)
  {
  }

  lemma ValueStartInv(p: Parser, ch: char)
    requires NumbersFit(p) && LengthFits(p) && (p.hstate.ContentLength? ==> p.flags.contentLength)
    ensures Keeps(p, OnValueStart(p, ch))
  {
    hide Inv, Lower, TokenStart;
    var o := OnValueStart(p, ch);
    if o.p.errno == OK {
      EnterValue(p, o.p);
    }
  }

  lemma ValueStartFlow(p: Parser, ch: char)
    requires Marked(p) == NoMark && !InBodyBytes(p.state)
    ensures Flows(p, OnValueStart(p, ch))
  {
    hide Lower, TokenStart;
  }

  function NextIndex(h: HeaderState, index: nat): nat {
    if CountsFieldLetters(h) then index + 1 else index
  }

  lemma FieldLetterFits(h: HeaderState, index: nat, c: char)
    requires IsFieldState(h) && IndexFits(h, index) && index <= 17
    ensures
      var next := FieldLetter(h, index, c);
      && IsFieldState(next)
      && IndexFits(next, NextIndex(h, index)) && NextIndex(h, index) <= 17
      && (next.ContentLength? ==> h.MatchingContentLength?)
  {
  }

  lemma FieldInv(p: Parser, ch: char)
    requires Inv(p) && p.state == Head(HeaderField)
    ensures Keeps(p, OnField(p, ch)) && Flows(p, OnField(p, ch))
  {
    hide FieldLetter, CountsFieldLetters, IsFieldState, IndexFits, IsToken, TokenOf;
    FieldLetterFits(p.hstate, p.index, TokenOf(ch));
  }

  lemma MessageDoneInv(p: Parser, flush: Flush, before: seq<Event>)
    requires NumbersFit(p)
    requires flush == Keep ==> Marked(p) == NoMark && !InBodyBytes(p.state)
    requires flush != Keep ==> flush == Through(Body) && p.state == Content(BodyIdentity)
    ensures Keeps(p, OnMessageDone(p, flush, before)) && Flows(p, OnMessageDone(p, flush, before))
  {
  }

  lemma HeadersDoneInv(p: Parser, ch: char, before: seq<Event>)
    requires NumbersFit(p) && LengthFits(p) && !p.flags.trailing
    requires p.flags.chunked ==> !p.flags.contentLength
    requires Marked(p) == NoMark && !InBodyBytes(p.state)
    ensures Keeps(p, OnHeadersDone(p, ch, before)) && Flows(p, OnHeadersDone(p, ch, before))
  {
  }

  lemma HeadersAlmostDoneInv(p: Parser, ch: char, before: seq<Event>)
    requires NumbersFit(p) && LengthFits(p)
    requires Marked(p) == NoMark && !InBodyBytes(p.state)
    ensures Keeps(p, OnHeadersAlmostDone(p, ch, before)) && Flows(p, OnHeadersAlmostDone(p, ch, before))
  {
    hide OnHeadersDone, OnMessageDone;
    if p.flags.trailing {
      MessageDoneInv(p, Keep, before + [ChunkComplete]);
    } else if !(p.flags.chunked && p.flags.contentLength) {
      HeadersDoneInv(
        p.(state := Head(HeadersDone), upgrade := (p.flags.upgrade && p.flags.connUpgrade) || p.verb == CONNECT),
        ch, before + [HeadersComplete(p.major, p.minor)]);
    }
  }

  lemma FieldStartInv(p: Parser, ch: char, before: seq<Event>)
    requires NumbersFit(p) && LengthFits(p)
    requires Marked(p) == NoMark && !InBodyBytes(p.state)
    ensures Keeps(p, OnFieldStart(p, ch, before)) && Flows(p, OnFieldStart(p, ch, before))
  {
    hide OnHeadersAlmostDone, IsToken, TokenOf;
    HeadersAlmostDoneInv(p, ch, before);
  }

  /** The two states behind the line of a field. */
  lemma LwsInv(p: Parser, s: HeadState, ch: char)
    requires Inv(p) && p.state == Head(s) && (s.HeaderValueDiscardLws? || s.HeaderValueLws?)
    ensures Keeps(p, OnHead(p, s, ch)) && Flows(p, OnHead(p, s, ch))
  {
    hide LineFits, ContentFits, ChunkFits, OnFieldStart, OnValueStart, EndOfToken, IndexFits;
    if s.HeaderValueDiscardLws? {
      FieldStartInv(EndOfLine(p), ch, [Data(Value, "")]);
    } else {
      ValueStartInv(p, ch);
      ValueStartFlow(p, ch);
      FieldStartInv(EndOfLine(p), ch, []);
    }
  }

  lemma HeadInv(p: Parser, s: HeadState, ch: char)
    requires Inv(p) && p.state == Head(s) && !s.HeaderValue?
    ensures Keeps(p, OnHead(p, s, ch)) && Flows(p, OnHead(p, s, ch))
  {
    hide LineFits, ContentFits, ChunkFits, OnFieldStart, OnField, OnValueStart, OnHeadersAlmostDone, OnHeadersDone, EndOfToken, IndexFits;
    match s
    case HeaderFieldStart => FieldStartInv(p, ch, []); hide Keeps, Flows;
    case HeaderField => FieldInv(p, ch); hide Keeps, Flows;
    case HeaderValueDiscardWs => ValueStartInv(p, ch); ValueStartFlow(p, ch);
    case HeaderValueDiscardLws => LwsInv(p, s, ch); hide Keeps, Flows;
    case HeaderValueLws => LwsInv(p, s, ch); hide Keeps, Flows;
    case HeadersAlmostDone => HeadersAlmostDoneInv(p, ch, []); hide Keeps, Flows;
    case _ =>
  }

  lemma ContentInv(p: Parser, s: ContentState, ch: char)
    requires Inv(p) && p.state == Content(s)
    ensures Keeps(p, OnContent(p, s, ch)) && Flows(p, OnContent(p, s, ch))
  {
  }

  lemma ChunkSizeInv(p: Parser, ch: char)
    requires Inv(p) && p.state == Chunk(ChunkSize)
    ensures Keeps(p, OnChunkSize(p, ch)) && Flows(p, OnChunkSize(p, ch))
  {
  }

  lemma ChunkInv(p: Parser, s: ChunkState, ch: char)
    requires Inv(p) && p.state == Chunk(s)
    ensures Keeps(p, OnChunk(p, s, ch)) && Flows(p, OnChunk(p, s, ch))
  {
    hide OnChunkSize;
    if s.ChunkSize? {
      ChunkSizeInv(p, ch);
    }
  }

  lemma TransitionInv(p: Parser, skipping: bool, ch: char)
    requires Inv(p)
    ensures Keeps(p, Transition(p, skipping, ch)) && Flows(p, Transition(p, skipping, ch))
  {
    hide OnValue, OnHead, OnIdle, OnLine, OnContent, OnChunk;
    match p.state
    case Idle(s) => IdleInv(p, s, ch);
    case Line(s) => LineInv(p, s, ch);
    case Head(s) =>
      if s.HeaderValue? {
        ValueInv(p, skipping, ch); ValueFlow(p, skipping, ch);
      } else {
        HeadInv(p, s, ch);
      }
    case Content(s) => ContentInv(p, s, ch);
    case Chunk(s) => ChunkInv(p, s, ch);
  }

  /** Every byte that is not refused keeps the invariant; none is refused for the header limit. */
  lemma StepInv(c: Core, ch: char)
    requires CoreInv(c)
    ensures Step(c, ch).c.p.errno == OK ==> CoreInv(Step(c, ch).c)
    ensures c.p.errno == OK ==> Step(c, ch).c.p.errno != HEADER_OVERFLOW
  {
    hide Transition;
    TransitionInv(c.p, c.skipping, ch);
    var o := Transition(c.p, c.skipping, ch);
    if o.p.errno == OK {
      SliceKept(c.p, c.slice, o, ch);
    }
  }

  /** Every run of bytes that meets no error keeps the invariant. */
  lemma {:induction false} RunInv(c: Core, data: string)
    requires CoreInv(c)
    ensures Run(c, data).c.p.errno == OK ==> CoreInv(Run(c, data).c)
    decreases |data|
  {
    hide Step;
    if data != [] && Going(c) {
      StepInv(c, data[0]);
      var o := Step(c, data[0]);
      if o.c.p.errno == OK {
        RunInv(o.c, data[1..]);
      } else {
        assert Run(o.c, data[1..]).c == o.c;
      }
    }
  }

  // ---- The assertions of the source ----

  /**
    What the assertions in `http_parser_execute` say of the parser as a byte is looked at: the
    header state is one of those the state knows, the count is 1 where a chunk size begins, the
    flag is set in all chunk states, bytes of a body are awaited where they are read and none where
    they are over, and no state is met that is only passed through. That at most one mark is set
    at the end of a call is said by `Slice`, and by `HttpParsers.Marks` of the mark variables.
   */
  predicate AssertsHold(c: Core) {
    && (c.p.state == Head(HeaderField) ==> IsFieldState(c.p.hstate))
    && (c.p.state == Head(HeaderValue) ==> IsValueState(c.p.hstate))
    && (c.p.state == Chunk(ChunkSizeStart) ==> Counted(c) == 1)
    && (c.p.state.Chunk? ==> c.p.flags.chunked && !c.p.flags.contentLength)
    && (c.p.state == Content(BodyIdentity) || c.p.state == Chunk(ChunkData) ==> 0 < c.p.contentLength < NO_LENGTH)
    && (c.p.state == Chunk(ChunkDataAlmostDone) || c.p.state == Chunk(ChunkDataDone) ==> c.p.contentLength == 0)
    && c.p.state != Head(HeaderValueStart) && c.p.state != Head(HeadersDone) && c.p.state != Content(MessageDone)
    && c.p.state != Line(ReqUrl(UrlDead)) && c.p.state != Line(ReqUrl(BeforeUrl))
  }

  lemma AssertsFollow(c: Core)
    requires CoreInv(c)
    ensures AssertsHold(c)
  {
  }
}
