/** The parser's state, as `struct http_parser` holds it, and the callbacks it makes. */
module ParserTypes {

  const UINT32_LIMIT := 0x1_0000_0000
  const UINT64_LIMIT := 0x1_0000_0000_0000_0000

  /** `ULLONG_MAX`: the value of `content_length` that says "no length given". */
  const NO_LENGTH := UINT64_LIMIT - 1

  const MAX_HEADER_SIZE := 80 * 1024

  // The states of `enum state`, by the part of a message they read.

  /** Between two messages. */
  datatype IdleState = Dead | StartReqOrRes | StartRes | StartReq

  /** The letters and numbers of a version: those of a response, and those of a request. */
  datatype VersionState =
    | VersionH | VersionHT | VersionHTT | VersionHTTP
    | FirstHttpMajor | HttpMajor | FirstHttpMinor | HttpMinor

  datatype StatusState = FirstStatusCode | StatusCode | StatusStart | StatusText | StatusLineAlmostDone

  /** The URL automaton: `s_req_spaces_before_url` and `s_dead` are its start and its sink. */
  datatype UrlState =
    | UrlDead | BeforeUrl
    | Schema | SchemaSlash | SchemaSlashSlash
    | ServerStart | Server | ServerWithAt
    | Path | QueryStringStart | QueryString | FragmentStart | Fragment

  datatype LineState =
    | ResOrRespH
    | ResVersion(version: VersionState)
    | ResStatus(status: StatusState)
    | ReqMethod
    | ReqSpacesBeforeUrl
    | ReqUrl(url: UrlState)
    | ReqHttpStart
    | ReqVersion(version: VersionState)
    | ReqLineAlmostDone

  datatype HeadState =
    | HeaderFieldStart | HeaderField
    | HeaderValueDiscardWs | HeaderValueDiscardWsAlmostDone | HeaderValueDiscardLws
    | HeaderValueStart | HeaderValue | HeaderValueLws | HeaderAlmostDone
    | HeadersAlmostDone | HeadersDone

  datatype ContentState = BodyIdentity | BodyIdentityEof | MessageDone

  datatype ChunkState =
    | ChunkSizeStart | ChunkSize | ChunkParameters | ChunkSizeAlmostDone
    | ChunkData | ChunkDataAlmostDone | ChunkDataDone

  datatype State =
    | Idle(idle: IdleState)
    | Line(line: LineState)
    | Head(head: HeadState)
    | Content(content: ContentState)
    | Chunk(chunk: ChunkState)

  predicate InChunkBytes(k: ChunkState) {
    k.ChunkData? || k.ChunkDataAlmostDone? || k.ChunkDataDone?
  }

  /** The states up to `s_headers_done`: those whose bytes count against the header limit. */
  predicate ParsingHeader(s: State) {
    s.Idle? || s.Line? || s.Head? || (s.Chunk? && !InChunkBytes(s.chunk))
  }

  datatype HeaderState =
    | General | C | CO | CON
    | MatchingConnection | MatchingProxyConnection | MatchingContentLength
    | MatchingTransferEncoding | MatchingUpgrade
    | Connection | ContentLength | TransferEncoding | Upgrade
    | MatchingChunked
    | MatchingTokenStart | MatchingKeepAlive | MatchingClose | MatchingConnUpgrade | MatchingToken
    | Chunked | ConnKeepAlive | ConnClose | ConnUpgrade

  datatype Errno =
    | OK
    | INVALID_EOF_STATE | HEADER_OVERFLOW | CLOSED_CONNECTION
    | INVALID_VERSION | INVALID_STATUS | INVALID_METHOD | INVALID_URL
    | LF_EXPECTED | INVALID_HEADER_TOKEN | INVALID_CONTENT_LENGTH | UNEXPECTED_CONTENT_LENGTH
    | INVALID_CHUNK_SIZE | INVALID_CONSTANT | INVALID_INTERNAL_STATE | STRICT

  datatype ParserType = REQUEST | RESPONSE | BOTH

  datatype Method =
    | DELETE | GET | HEAD | POST | PUT
    | CONNECT | OPTIONS | TRACE
    | COPY | LOCK | MKCOL | MOVE | PROPFIND | PROPPATCH | SEARCH | UNLOCK | BIND | REBIND | UNBIND | ACL
    | REPORT | MKACTIVITY | CHECKOUT | MERGE
    | MSEARCH | NOTIFY | SUBSCRIBE | UNSUBSCRIBE
    | PATCH | PURGE
    | MKCALENDAR
    | LINK | UNLINK

  function MethodName(m: Method): string {
    match m
    case DELETE => "DELETE"
    case GET => "GET"
    case HEAD => "HEAD"
    case POST => "POST"
    case PUT => "PUT"
    case CONNECT => "CONNECT"
    case OPTIONS => "OPTIONS"
    case TRACE => "TRACE"
    case COPY => "COPY"
    case LOCK => "LOCK"
    case MKCOL => "MKCOL"
    case MOVE => "MOVE"
    case PROPFIND => "PROPFIND"
    case PROPPATCH => "PROPPATCH"
    case SEARCH => "SEARCH"
    case UNLOCK => "UNLOCK"
    case BIND => "BIND"
    case REBIND => "REBIND"
    case UNBIND => "UNBIND"
    case ACL => "ACL"
    case REPORT => "REPORT"
    case MKACTIVITY => "MKACTIVITY"
    case CHECKOUT => "CHECKOUT"
    case MERGE => "MERGE"
    case MSEARCH => "M-SEARCH"
    case NOTIFY => "NOTIFY"
    case SUBSCRIBE => "SUBSCRIBE"
    case UNSUBSCRIBE => "UNSUBSCRIBE"
    case PATCH => "PATCH"
    case PURGE => "PURGE"
    case MKCALENDAR => "MKCALENDAR"
    case LINK => "LINK"
    case UNLINK => "UNLINK"
  }

  /** The `F_*` bits. `F_SKIPBODY` is only set by a callback that returns non-zero. */
  datatype Flags = Flags(
    chunked: bool,
    connKeepAlive: bool,
    connClose: bool,
    connUpgrade: bool,
    trailing: bool,
    upgrade: bool,
    contentLength: bool)

  const NO_FLAGS := Flags(false, false, false, false, false, false, false)

  /** `struct http_parser` but for `nread`, on which no transition depends. */
  datatype Parser = Parser(
    ptype: ParserType,
    flags: Flags,
    state: State,
    hstate: HeaderState,
    index: nat,
    contentLength: nat,
    major: nat,
    minor: nat,
    status: nat,
    verb: Method,
    errno: Errno,
    upgrade: bool)

  /** What `http_parser_init` leaves in the struct. */
  function Init(t: ParserType): Parser {
    Parser(t, NO_FLAGS,
           Idle(match t case REQUEST => StartReq case RESPONSE => StartRes case BOTH => StartReqOrRes),
           General, 0, 0, 0, 0, 0, DELETE, OK, false)
  }

  /** The data callbacks. `on_status` reads `status_code`, so the kind carries it. */
  datatype Kind = Url | Status(code: nat) | Field | Value | Body

  /** One callback: a slice of the input, or a notification with the fields it may read. */
  datatype Event =
    | Data(kind: Kind, bytes: string)
    | MessageBegin
    | HeadersComplete(major: nat, minor: nat)
    | MessageComplete
    | ChunkHeader(size: nat)
    | ChunkComplete

  /** `start_state`. */
  function ByType(p: Parser): IdleState {
    if p.ptype.REQUEST? then StartReq else StartRes
  }

  /** `http_message_needs_eof`: only the end of input can end this message. */
  predicate NeedsEof(p: Parser) {
    && !p.ptype.REQUEST?
    && p.status / 100 != 1 && p.status != 204 && p.status != 304
    && !p.flags.chunked && p.contentLength == NO_LENGTH
  }

  /** `http_should_keep_alive`. */
  predicate ShouldKeepAlive(p: Parser) {
    && (if p.major > 0 && p.minor > 0 then !p.flags.connClose else p.flags.connKeepAlive)
    && !NeedsEof(p)
  }

  /** `NEW_MESSAGE()`: where the parser goes once a message is complete. */
  function NewMessage(p: Parser): State {
    Idle(if ShouldKeepAlive(p) then ByType(p) else Dead)
  }
}
