/**
  What `http_parser_execute` does with one byte, state by state.

  The slices that the data callbacks report are described by their marks. A byte may hand
  over what is marked, then make notifications, then set a mark; a mark that is still set
  when the byte is done takes the byte in. So nothing here depends on the bytes marked before.
 */
module Transitions {
  import opened Chars
  import opened ParserTypes

  /** Hand over the marked bytes: those before this one, or those up to and with this one. */
  datatype Flush = Keep | Before(kind: Kind) | Through(kind: Kind)

  datatype Mark = NoMark | At(kind: Kind)

  /**
    `p` is the parser after the byte. `reset` sets `nread` to 0, `skipping` says that the rest
    of the line may be jumped over, and `halt` that the call returns although input may be left.
   */
  datatype Outcome = Outcome(
    p: Parser, flush: Flush, notes: seq<Event>, mark: Mark, reset: bool, skipping: bool, halt: bool)

  function FailAfter(p: Parser, e: Errno, notes: seq<Event>): Outcome {
    Outcome(p.(errno := e), Keep, notes, NoMark, false, false, false)
  }

  function Fail(p: Parser, e: Errno): Outcome {
    FailAfter(p, e, [])
  }

  function Stay(p: Parser): Outcome {
    Outcome(p, Keep, [], NoMark, false, false, false)
  }

  function To(p: Parser, s: State): Outcome {
    Outcome(p.(state := s), Keep, [], NoMark, false, false, false)
  }

  function ToTelling(p: Parser, s: State, notes: seq<Event>): Outcome {
    Outcome(p.(state := s), Keep, notes, NoMark, false, false, false)
  }

  function ToMarking(p: Parser, s: State, kind: Kind): Outcome {
    Outcome(p.(state := s), Keep, [], At(kind), false, false, false)
  }

  function ToFlushing(p: Parser, s: State, kind: Kind): Outcome {
    Outcome(p.(state := s), Before(kind), [], NoMark, false, false, false)
  }

  function Resetting(o: Outcome): Outcome {
    o.(reset := true)
  }

  /** `STRICT_CHECK(ch != expected)`. */
  function Expect(p: Parser, ch: char, expected: char, s: State): Outcome {
    if ch == expected then To(p, s) else Fail(p, STRICT)
  }

  /** `parse_url_char`: the URL automaton, shared by the request line and the URL splitter. */
  function ParseUrlChar(s: UrlState, ch: char): (r: UrlState)
    ensures !r.BeforeUrl?
  {
    if ch == ' ' || ch == CR || ch == LF || ch == '\t' || ch == '\U{0C}' then UrlDead
    else
      match s
      case UrlDead => UrlDead
      case BeforeUrl =>
        if ch == '/' || ch == '*' then Path else if IsAlpha(ch) then Schema else UrlDead
      case Schema => if IsAlpha(ch) then Schema else if ch == ':' then SchemaSlash else UrlDead
      case SchemaSlash => if ch == '/' then SchemaSlashSlash else UrlDead
      case SchemaSlashSlash => if ch == '/' then ServerStart else UrlDead
      case ServerWithAt => if ch == '@' then UrlDead else ServerChar(ch)
      case ServerStart => ServerChar(ch)
      case Server => ServerChar(ch)
      case Path =>
        if IsUrlChar(ch) then Path
        else if ch == '?' then QueryStringStart
        else if ch == '#' then FragmentStart
        else UrlDead
      case QueryStringStart => QueryChar(ch)
      case QueryString => QueryChar(ch)
      case FragmentStart =>
        if IsUrlChar(ch) || ch == '?' then Fragment else if ch == '#' then FragmentStart else UrlDead
      case Fragment => if IsUrlChar(ch) || ch == '?' || ch == '#' then Fragment else UrlDead
  }

  function ServerChar(ch: char): UrlState {
    if ch == '/' then Path
    else if ch == '?' then QueryStringStart
    else if ch == '@' then ServerWithAt
    else if IsUserinfoChar(ch) || ch == '[' || ch == ']' then Server
    else UrlDead
  }

  function QueryChar(ch: char): UrlState {
    if IsUrlChar(ch) || ch == '?' then QueryString else if ch == '#' then FragmentStart else UrlDead
  }

  /** The states of the automaton in which the URL may not end. */
  predicate UrlMustGoOn(u: UrlState) {
    u.UrlDead? || u.BeforeUrl? || u.Schema? || u.SchemaSlash? || u.SchemaSlashSlash? || u.ServerStart?
  }

  /** The byte `ch` taken in `p`, once the header limit has been seen to. */
  function Transition(p: Parser, skipping: bool, ch: char): Outcome {
    match p.state
    case Idle(s) => OnIdle(p, s, ch)
    case Line(s) => OnLine(p, s, ch)
    case Head(s) => if s.HeaderValue? then OnValue(p, skipping, ch) else OnHead(p, s, ch)
    case Content(s) => OnContent(p, s, ch)
    case Chunk(s) => OnChunk(p, s, ch)
  }

  function OnIdle(p: Parser, s: IdleState, ch: char): Outcome {
    match s
    case Dead => if ch == CR || ch == LF then Stay(p) else Fail(p, CLOSED_CONNECTION)
    case StartReqOrRes =>
      if ch == CR || ch == LF then Stay(p)
      else
        var q := p.(flags := NO_FLAGS, contentLength := NO_LENGTH);
        if ch == 'H' then ToTelling(q, Line(ResOrRespH), [MessageBegin])
        else OnStartReq(q.(ptype := REQUEST, state := Idle(StartReq)), ch)
    case StartRes =>
      var q := p.(flags := NO_FLAGS, contentLength := NO_LENGTH);
      if ch == 'H' then ToTelling(q, Line(ResVersion(VersionH)), [MessageBegin])
      else if ch == CR || ch == LF then ToTelling(q, Idle(StartRes), [MessageBegin])
      else Fail(q, INVALID_CONSTANT)
    case StartReq => OnStartReq(p, ch)
  }

  function OnLine(p: Parser, s: LineState, ch: char): Outcome {
    match s
    case ResOrRespH =>
      if ch == 'T' then To(p.(ptype := RESPONSE), Line(ResVersion(VersionHT)))
      else if ch == 'E' then To(p.(ptype := REQUEST, verb := HEAD, index := 2), Line(ReqMethod))
      else Fail(p, INVALID_CONSTANT)
    case ResVersion(v) => OnResVersion(p, v, ch)
    case ResStatus(t) => OnStatus(p, t, ch)
    case ReqMethod => OnMethod(p, ch)
    case ReqSpacesBeforeUrl =>
      if ch == ' ' then Stay(p)
      else OnUrl(p, if p.verb == CONNECT then ServerStart else BeforeUrl, ch, At(Url))
    case ReqUrl(u) => if UrlMustGoOn(u) then OnUrl(p, u, ch, NoMark) else OnUrlOrEnd(p, u, ch)
    case ReqHttpStart =>
      if ch == 'H' then To(p, Line(ReqVersion(VersionH)))
      else if ch == ' ' then Stay(p)
      else Fail(p, INVALID_CONSTANT)
    case ReqVersion(v) => OnReqVersion(p, v, ch)
    case ReqLineAlmostDone => if ch == LF then To(p, Head(HeaderFieldStart)) else Fail(p, LF_EXPECTED)
  }

  function OnResVersion(p: Parser, v: VersionState, ch: char): Outcome {
    match v
    case VersionH => Expect(p, ch, 'T', Line(ResVersion(VersionHT)))
    case VersionHT => Expect(p, ch, 'T', Line(ResVersion(VersionHTT)))
    case VersionHTT => Expect(p, ch, 'P', Line(ResVersion(VersionHTTP)))
    case VersionHTTP => Expect(p, ch, '/', Line(ResVersion(FirstHttpMajor)))
    case FirstHttpMajor =>
      if IsNum(ch) then To(p.(major := DigitOf(ch)), Line(ResVersion(HttpMajor))) else Fail(p, INVALID_VERSION)
    case HttpMajor => OnMajor(p, ch, Line(ResVersion(FirstHttpMinor)))
    case FirstHttpMinor =>
      if IsNum(ch) then To(p.(minor := DigitOf(ch)), Line(ResVersion(HttpMinor))) else Fail(p, INVALID_VERSION)
    case HttpMinor => if ch == ' ' then To(p, Line(ResStatus(FirstStatusCode))) else OnMinorDigit(p, ch)
  }

  function OnReqVersion(p: Parser, v: VersionState, ch: char): Outcome {
    match v
    case VersionH => Expect(p, ch, 'T', Line(ReqVersion(VersionHT)))
    case VersionHT => Expect(p, ch, 'T', Line(ReqVersion(VersionHTT)))
    case VersionHTT => Expect(p, ch, 'P', Line(ReqVersion(VersionHTTP)))
    case VersionHTTP => Expect(p, ch, '/', Line(ReqVersion(FirstHttpMajor)))
    case FirstHttpMajor =>
      if IsNum(ch) && ch != '0' then To(p.(major := DigitOf(ch)), Line(ReqVersion(HttpMajor)))
      else Fail(p, INVALID_VERSION)
    case HttpMajor => OnMajor(p, ch, Line(ReqVersion(FirstHttpMinor)))
    case FirstHttpMinor =>
      if IsNum(ch) then To(p.(minor := DigitOf(ch)), Line(ReqVersion(HttpMinor))) else Fail(p, INVALID_VERSION)
    case HttpMinor =>
      if ch == CR then To(p, Line(ReqLineAlmostDone))
      else if ch == LF then To(p, Head(HeaderFieldStart))
      else OnMinorDigit(p, ch)
  }

  function OnStatus(p: Parser, t: StatusState, ch: char): Outcome {
    match t
    case FirstStatusCode =>
      if IsNum(ch) then To(p.(status := DigitOf(ch)), Line(ResStatus(StatusCode)))
      else if ch == ' ' then Stay(p)
      else Fail(p, INVALID_STATUS)
    case StatusCode => OnStatusCode(p, ch)
    case StatusStart =>
      if ch == CR then To(p, Line(ResStatus(StatusLineAlmostDone)))
      else if ch == LF then To(p, Head(HeaderFieldStart))
      else ToMarking(p.(index := 0), Line(ResStatus(StatusText)), Status(p.status))
    case StatusText =>
      if ch == CR then ToFlushing(p, Line(ResStatus(StatusLineAlmostDone)), Status(p.status))
      else if ch == LF then ToFlushing(p, Head(HeaderFieldStart), Status(p.status))
      else Stay(p)
    case StatusLineAlmostDone => Expect(p, ch, LF, Head(HeaderFieldStart))
  }

  /** The header fields outside a value. */
  function OnHead(p: Parser, s: HeadState, ch: char): Outcome {
    match s
    case HeaderFieldStart => OnFieldStart(p, ch, [])
    case HeaderField => OnField(p, ch)
    case HeaderValueDiscardWs =>
      if ch == ' ' || ch == '\t' then Stay(p)
      else if ch == CR then To(p, Head(HeaderValueDiscardWsAlmostDone))
      else if ch == LF then To(p, Head(HeaderValueDiscardLws))
      else OnValueStart(p, ch)
    case HeaderValueDiscardWsAlmostDone => Expect(p, ch, LF, Head(HeaderValueDiscardLws))
    case HeaderValueDiscardLws =>
      if ch == ' ' || ch == '\t' then To(p, Head(HeaderValueDiscardWs))
      else OnFieldStart(EndOfLine(p), ch, [Data(Value, "")])
    case HeaderValueStart => OnValueStart(p, ch)
    case HeaderValue => Fail(p, INVALID_INTERNAL_STATE)
    case HeaderAlmostDone => OnHeaderAlmostDone(p, ch, Keep)
    case HeaderValueLws =>
      if ch == ' ' || ch == '\t' then OnValueStart(p, ch) else OnFieldStart(EndOfLine(p), ch, [])
    case HeadersAlmostDone => OnHeadersAlmostDone(p, ch, [])
    case HeadersDone => OnHeadersDone(p, ch, [])
  }

  /** The body, but for a chunked one. */
  function OnContent(p: Parser, s: ContentState, ch: char): Outcome {
    match s
    case BodyIdentity =>
      if p.contentLength > 1 then
        ToMarking(p.(contentLength := p.contentLength - 1), Content(BodyIdentity), Body)
      else OnMessageDone(p.(contentLength := 0), Through(Body), [])
    case BodyIdentityEof => ToMarking(p, Content(BodyIdentityEof), Body)
    case MessageDone => OnMessageDone(p, Keep, [])
  }

  /** The chunked body. */
  function OnChunk(p: Parser, s: ChunkState, ch: char): Outcome {
    match s
    case ChunkSizeStart =>
      if Unhex(ch) == -1 then Fail(p, INVALID_CHUNK_SIZE)
      else To(p.(contentLength := Unhex(ch)), Chunk(ChunkSize))
    case ChunkSize => OnChunkSize(p, ch)
    case ChunkParameters => if ch == CR then To(p, Chunk(ChunkSizeAlmostDone)) else Stay(p)
    case ChunkSizeAlmostDone =>
      if ch != LF then Fail(p, STRICT)
      else if p.contentLength == 0 then
        Resetting(ToTelling(p.(flags := p.flags.(trailing := true)), Head(HeaderFieldStart), [ChunkHeader(0)]))
      else
        Resetting(ToTelling(p, Chunk(ChunkData), [ChunkHeader(p.contentLength)]))
    case ChunkData =>
      if p.contentLength > 1 then
        ToMarking(p.(contentLength := p.contentLength - 1), Chunk(ChunkData), Body)
      else ToMarking(p.(contentLength := 0), Chunk(ChunkDataAlmostDone), Body)
    case ChunkDataAlmostDone =>
      if ch != CR then Fail(p, STRICT) else ToFlushing(p, Chunk(ChunkDataDone), Body)
    case ChunkDataDone =>
      if ch != LF then Fail(p, STRICT)
      else Resetting(ToTelling(p, Chunk(ChunkSizeStart), [ChunkComplete]))
  }

  function OnMajor(p: Parser, ch: char, next: State): Outcome {
    if ch == '.' then To(p, next)
    else if !IsNum(ch) || p.major * 10 + DigitOf(ch) > 999 then Fail(p, INVALID_VERSION)
    else Stay(p.(major := p.major * 10 + DigitOf(ch)))
  }

  function OnMinorDigit(p: Parser, ch: char): Outcome {
    if !IsNum(ch) || p.minor * 10 + DigitOf(ch) > 999 then Fail(p, INVALID_VERSION)
    else Stay(p.(minor := p.minor * 10 + DigitOf(ch)))
  }

  function OnStatusCode(p: Parser, ch: char): Outcome {
    if ch == ' ' then To(p, Line(ResStatus(StatusStart)))
    else if ch == CR then To(p, Line(ResStatus(StatusLineAlmostDone)))
    else if ch == LF then To(p, Head(HeaderFieldStart))
    else if !IsNum(ch) || p.status * 10 + DigitOf(ch) > 999 then Fail(p, INVALID_STATUS)
    else Stay(p.(status := p.status * 10 + DigitOf(ch)))
  }

  datatype Guess = NoGuess | Guess(m: Method)

  /** The method guessed from its first letter. */
  function FirstGuess(ch: char): Guess {
    match ch
    case 'A' => Guess(ACL)
    case 'B' => Guess(BIND)
    case 'C' => Guess(CONNECT)
    case 'D' => Guess(DELETE)
    case 'G' => Guess(GET)
    case 'H' => Guess(HEAD)
    case 'L' => Guess(LOCK)
    case 'M' => Guess(MKCOL)
    case 'N' => Guess(NOTIFY)
    case 'O' => Guess(OPTIONS)
    case 'P' => Guess(POST)
    case 'R' => Guess(REPORT)
    case 'S' => Guess(SUBSCRIBE)
    case 'T' => Guess(TRACE)
    case 'U' => Guess(UNLOCK)
    case _ => NoGuess
  }

  function OnStartReq(p: Parser, ch: char): Outcome {
    if ch == CR || ch == LF then Stay(p)
    else
      var q := p.(flags := NO_FLAGS, contentLength := NO_LENGTH);
      match FirstGuess(ch)
      case Guess(m) => ToTelling(q.(verb := m, index := 1), Line(ReqMethod), [MessageBegin])
      case NoGuess => Fail(q, INVALID_METHOD)
  }

  /** The method the guess `m` turns into when its letter `index` is `ch` instead. */
  function NextGuess(m: Method, index: nat, ch: char): Guess {
    match m
    case POST =>
      if index == 1 && ch == 'U' then Guess(PUT)
      else if index == 1 && ch == 'A' then Guess(PATCH)
      else if index == 1 && ch == 'R' then Guess(PROPFIND)
      else NoGuess
    case CONNECT =>
      if index == 1 && ch == 'H' then Guess(CHECKOUT)
      else if index == 2 && ch == 'P' then Guess(COPY)
      else NoGuess
    case MKCOL =>
      if index == 1 && ch == 'O' then Guess(MOVE)
      else if index == 1 && ch == 'E' then Guess(MERGE)
      else if index == 1 && ch == '-' then Guess(MSEARCH)
      else if index == 2 && ch == 'A' then Guess(MKACTIVITY)
      else if index == 3 && ch == 'A' then Guess(MKCALENDAR)
      else NoGuess
    case SUBSCRIBE => if index == 1 && ch == 'E' then Guess(SEARCH) else NoGuess
    case REPORT => if index == 2 && ch == 'B' then Guess(REBIND) else NoGuess
    case PROPFIND => if index == 4 && ch == 'P' then Guess(PROPPATCH) else NoGuess
    case PUT => if index == 2 && ch == 'R' then Guess(PURGE) else NoGuess
    case LOCK => if index == 1 && ch == 'I' then Guess(LINK) else NoGuess
    case UNLOCK =>
      if index == 2 && ch == 'S' then Guess(UNSUBSCRIBE)
      else if index == 2 && ch == 'B' then Guess(UNBIND)
      else if index == 3 && ch == 'I' then Guess(UNLINK)
      else NoGuess
    case _ => NoGuess
  }

  /** Reading a C string at its length gives the terminator. */
  function CharAt(s: string, i: nat): char {
    if i < |s| then s[i] else '\0'
  }

  function OnMethod(p: Parser, ch: char): Outcome {
    var expected := CharAt(MethodName(p.verb), p.index);
    if ch == '\0' then Fail(p, INVALID_METHOD)
    else if ch == ' ' && expected == '\0' then To(p.(index := p.index + 1), Line(ReqSpacesBeforeUrl))
    else if ch == expected then Stay(p.(index := p.index + 1))
    else
      match NextGuess(p.verb, p.index, ch)
      case Guess(m) => Stay(p.(verb := m, index := p.index + 1))
      case NoGuess => Fail(p, INVALID_METHOD)
  }

  /** A URL byte where the URL may not end. */
  function OnUrl(p: Parser, u: UrlState, ch: char, mark: Mark): Outcome {
    var next := ParseUrlChar(u, ch);
    if next.UrlDead? then Fail(p, INVALID_URL)
    else Outcome(p.(state := Line(ReqUrl(next))), Keep, [], mark, false, false, false)
  }

  /** A URL byte, or the end of the URL. */
  function OnUrlOrEnd(p: Parser, u: UrlState, ch: char): Outcome {
    if ch == ' ' then ToFlushing(p, Line(ReqHttpStart), Url)
    else if ch == CR then ToFlushing(p.(major := 0, minor := 9), Line(ReqLineAlmostDone), Url)
    else if ch == LF then ToFlushing(p.(major := 0, minor := 9), Head(HeaderFieldStart), Url)
    else OnUrl(p, u, ch, NoMark)
  }

  function FieldStartState(c: char): HeaderState {
    if c == 'c' then C
    else if c == 'p' then MatchingProxyConnection
    else if c == 't' then MatchingTransferEncoding
    else if c == 'u' then MatchingUpgrade
    else General
  }

  function OnFieldStart(p: Parser, ch: char, before: seq<Event>): Outcome {
    if ch == CR then ToTelling(p, Head(HeadersAlmostDone), before)
    else if ch == LF then OnHeadersAlmostDone(p, ch, before)
    else if !IsToken(ch) then FailAfter(p, INVALID_HEADER_TOKEN, before)
    else
      Outcome(p.(state := Head(HeaderField), index := 0, hstate := FieldStartState(TokenOf(ch))),
              Keep, before, At(Field), false, false, false)
  }

  /** The name a matching state compares with, terminator included in its bounds. */
  function NameFor(h: HeaderState): string {
    match h
    case MatchingConnection => "connection"
    case MatchingProxyConnection => "proxy-connection"
    case MatchingContentLength => "content-length"
    case MatchingTransferEncoding => "transfer-encoding"
    case MatchingUpgrade => "upgrade"
    case MatchingChunked => "chunked"
    case MatchingKeepAlive => "keep-alive"
    case MatchingClose => "close"
    case MatchingConnUpgrade => "upgrade"
    case _ => ""
  }

  /** The state a matching state ends in when the whole name has been seen. */
  function Matched(h: HeaderState): HeaderState {
    match h
    case MatchingConnection => Connection
    case MatchingProxyConnection => Connection
    case MatchingContentLength => ContentLength
    case MatchingTransferEncoding => TransferEncoding
    case MatchingUpgrade => Upgrade
    case MatchingChunked => Chunked
    case MatchingKeepAlive => ConnKeepAlive
    case MatchingClose => ConnClose
    case MatchingConnUpgrade => ConnUpgrade
    case _ => General
  }

  /** One letter against the name of `h`, whose letters up to `index` are matched. */
  function MatchLetter(h: HeaderState, index: nat, c: char, otherwise: HeaderState): HeaderState {
    if index + 1 > |NameFor(h)| || c != CharAt(NameFor(h), index + 1) then otherwise
    else if index + 2 == |NameFor(h)| then Matched(h)
    else h
  }

  /** The header state after the letter `c` of a field name, whatever `F_CONTENTLENGTH` says. */
  function FieldLetter(h: HeaderState, index: nat, c: char): HeaderState {
    match h
    case C => if c == 'o' then CO else General
    case CO => if c == 'n' then CON else General
    case CON => if c == 'n' then MatchingConnection else if c == 't' then MatchingContentLength else General
    case MatchingConnection => MatchLetter(h, index, c, General)
    case MatchingProxyConnection => MatchLetter(h, index, c, General)
    case MatchingContentLength => MatchLetter(h, index, c, General)
    case MatchingTransferEncoding => MatchLetter(h, index, c, General)
    case MatchingUpgrade => MatchLetter(h, index, c, General)
    case _ => General
  }

  /** The header states that advance `index` on every letter of a field name. */
  predicate CountsFieldLetters(h: HeaderState) {
    || h.C? || h.CO? || h.CON? || h.MatchingConnection? || h.MatchingProxyConnection?
    || h.MatchingContentLength? || h.MatchingTransferEncoding? || h.MatchingUpgrade?
  }

  function OnField(p: Parser, ch: char): Outcome {
    if IsToken(ch) then
      var h := FieldLetter(p.hstate, p.index, TokenOf(ch));
      var q := if CountsFieldLetters(p.hstate) then p.(index := p.index + 1) else p;
      if p.hstate.MatchingContentLength? && h.ContentLength? then
        if p.flags.contentLength then Fail(q, UNEXPECTED_CONTENT_LENGTH)
        else Stay(q.(hstate := h, flags := q.flags.(contentLength := true)))
      else Stay(q.(hstate := h))
    else if ch == ':' then ToFlushing(p, Head(HeaderValueDiscardWs), Field)
    else Fail(p, INVALID_HEADER_TOKEN)
  }

  /** The token a first letter in a Connection list may begin. */
  function TokenStart(c: char, otherwise: HeaderState): (h: HeaderState)
    ensures h.MatchingKeepAlive? || h.MatchingClose? || h.MatchingConnUpgrade? || h == otherwise
  {
    if c == 'k' then MatchingKeepAlive
    else if c == 'c' then MatchingClose
    else if c == 'u' then MatchingConnUpgrade
    else otherwise
  }

  function OnValueStart(p: Parser, ch: char): Outcome {
    var q := p.(index := 0, state := Head(HeaderValue));
    var c := Lower(ch);
    match p.hstate
    case Upgrade =>
      ToMarking(q.(hstate := General, flags := q.flags.(upgrade := true)), Head(HeaderValue), Value)
    case TransferEncoding =>
      ToMarking(q.(hstate := if c == 'c' then MatchingChunked else General), Head(HeaderValue), Value)
    case ContentLength =>
      if IsNum(ch) then ToMarking(q.(contentLength := DigitOf(ch)), Head(HeaderValue), Value)
      else Fail(q, INVALID_CONTENT_LENGTH)
    case Connection =>
      ToMarking(q.(hstate := TokenStart(c, MatchingToken)), Head(HeaderValue), Value)
    case MatchingTokenStart => ToMarking(q, Head(HeaderValue), Value)
    case _ => ToMarking(q.(hstate := General), Head(HeaderValue), Value)
  }

  /** A token followed by a comma or the end of its line sets its flag. */
  function EndOfToken(f: Flags, h: HeaderState): (r: Flags)
    ensures r.chunked == f.chunked && r.trailing == f.trailing
    ensures r.upgrade == f.upgrade && r.contentLength == f.contentLength
  {
    match h
    case ConnKeepAlive => f.(connKeepAlive := true)
    case ConnClose => f.(connClose := true)
    case ConnUpgrade => f.(connUpgrade := true)
    case _ => f
  }

  function EndOfLine(p: Parser): (q: Parser)
    ensures q == p.(flags := q.flags) && q.flags.contentLength == p.flags.contentLength
  {
    if p.hstate.Chunked? then p.(flags := p.flags.(chunked := true))
    else p.(flags := EndOfToken(p.flags, p.hstate))
  }

  function OnValue(p: Parser, skipping: bool, ch: char): Outcome {
    if ch == CR then ToFlushing(p, Head(HeaderAlmostDone), Value)
    else if ch == LF then OnHeaderAlmostDone(p, ch, Before(Value))
    else if p.hstate.General? then
      if skipping || IsHeaderChar(ch) then Outcome(p, Keep, [], NoMark, false, true, false)
      else Fail(p, INVALID_HEADER_TOKEN)
    else if !IsHeaderChar(ch) then Fail(p, INVALID_HEADER_TOKEN)
    else OnSpecialValue(p, ch)
  }

  /** A value byte in one of the recognising header states. */
  function OnSpecialValue(p: Parser, ch: char): Outcome {
    var c := Lower(ch);
    match p.hstate
    case ContentLength =>
      if ch == ' ' then Stay(p)
      else if !IsNum(ch) || (NO_LENGTH - 10) / 10 < p.contentLength then Fail(p, INVALID_CONTENT_LENGTH)
      else Stay(p.(contentLength := (p.contentLength * 10 + DigitOf(ch)) % UINT64_LIMIT))
    case MatchingChunked =>
      Stay(p.(index := p.index + 1, hstate := MatchLetter(p.hstate, p.index, c, General)))
    case MatchingKeepAlive =>
      Stay(p.(index := p.index + 1, hstate := MatchLetter(p.hstate, p.index, c, MatchingToken)))
    case MatchingClose =>
      Stay(p.(index := p.index + 1, hstate := MatchLetter(p.hstate, p.index, c, MatchingToken)))
    case MatchingConnUpgrade =>
      Stay(p.(index := p.index + 1, hstate := MatchLetter(p.hstate, p.index, c, MatchingToken)))
    case MatchingTokenStart =>
      Stay(p.(hstate :=
        TokenStart(c, if IsToken(c) then MatchingToken
                      else if c == ' ' || c == '\t' then MatchingTokenStart
                      else General)))
    case MatchingToken =>
      if ch == ',' then Stay(p.(index := 0, hstate := MatchingTokenStart)) else Stay(p)
    case Chunked => Stay(p.(hstate := if ch == ' ' then Chunked else General))
    case ConnKeepAlive => OnAfterToken(p, ch)
    case ConnClose => OnAfterToken(p, ch)
    case ConnUpgrade => OnAfterToken(p, ch)
    case _ => Stay(p.(hstate := General))
  }

  function OnAfterToken(p: Parser, ch: char): Outcome {
    if ch == ',' then
      Stay(p.(index := 0, flags := EndOfToken(p.flags, p.hstate), hstate := MatchingTokenStart))
    else if ch == ' ' then Stay(p)
    else Stay(p.(hstate := MatchingToken))
  }

  function OnHeaderAlmostDone(p: Parser, ch: char, flush: Flush): Outcome {
    if ch == LF then Outcome(p.(state := Head(HeaderValueLws)), flush, [], NoMark, false, false, false)
    else Fail(p, LF_EXPECTED)
  }

  function OnHeadersAlmostDone(p: Parser, ch: char, before: seq<Event>): Outcome {
    if ch != LF then Fail(p, STRICT)
    else if p.flags.trailing then OnMessageDone(p, Keep, before + [ChunkComplete])
    else if p.flags.chunked && p.flags.contentLength then
      FailAfter(p, UNEXPECTED_CONTENT_LENGTH, before)
    else
      var q := p.(state := Head(HeadersDone),
                  upgrade := (p.flags.upgrade && p.flags.connUpgrade) || p.verb == CONNECT);
      OnHeadersDone(q, ch, before + [HeadersComplete(p.major, p.minor)])
  }

  predicate HasBody(p: Parser) {
    p.flags.chunked || (p.contentLength > 0 && p.contentLength != NO_LENGTH)
  }

  function OnHeadersDone(p: Parser, ch: char, before: seq<Event>): Outcome {
    if ch != LF then Fail(p, STRICT)
    else if p.upgrade && (p.verb == CONNECT || !HasBody(p)) then
      Outcome(p.(state := NewMessage(p)), Keep, before + [MessageComplete], NoMark, true, false, true)
    else if p.flags.chunked then Resetting(ToTelling(p, Chunk(ChunkSizeStart), before))
    else if p.contentLength == 0 then Resetting(ToTelling(p, NewMessage(p), before + [MessageComplete]))
    else if p.contentLength != NO_LENGTH then Resetting(ToTelling(p, Content(BodyIdentity), before))
    else if !NeedsEof(p) then Resetting(ToTelling(p, NewMessage(p), before + [MessageComplete]))
    else Resetting(ToTelling(p, Content(BodyIdentityEof), before))
  }

  function OnMessageDone(p: Parser, flush: Flush, before: seq<Event>): Outcome {
    Outcome(p.(state := NewMessage(p)), flush, before + [MessageComplete], NoMark, false, false, p.upgrade)
  }

  function OnChunkSize(p: Parser, ch: char): Outcome {
    if ch == CR then To(p, Chunk(ChunkSizeAlmostDone))
    else if Unhex(ch) == -1 then
      if ch == ';' || ch == ' ' then To(p, Chunk(ChunkParameters)) else Fail(p, INVALID_CHUNK_SIZE)
    else if (NO_LENGTH - 16) / 16 < p.contentLength then Fail(p, INVALID_CONTENT_LENGTH)
    else Stay(p.(contentLength := (p.contentLength * 16 + Unhex(ch)) % UINT64_LIMIT))
  }
}
