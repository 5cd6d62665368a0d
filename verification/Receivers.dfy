/** What the two wrappers make of whole messages, with any header lines and any body. */
module Receivers {
  import opened Chars
  import opened ParserTypes
  import opened Machine
  import opened Invariant
  import opened Headers
  import opened Chunks
  import opened Sizes
  import opened Heads
  import opened Exchanges
  import opened Messages
  import opened Pipelining
  import opened Segmentation
  import opened Callbacks
  import opened Packets
  import Q = RequestParsers
  import R = ReplyParsers

  /** The headers as a list of names and values. */
  function HeadersOf(lines: seq<HeadLine>): (headers: seq<Header>)
    ensures |headers| == |lines|
    ensures forall i | 0 <= i < |lines| :: headers[i] == Header(lines[i].name, ValueOf(lines[i]))
  {
    seq(|lines|, i requires 0 <= i < |lines| => Header(lines[i].name, ValueOf(lines[i])))
  }

  function BytesOfLoad(load: Load): string {
    match load
    case Nothing => ""
    case Whole(bytes) => bytes
    case InChunks(chunks) => Concat(chunks)
  }

  lemma {:induction false} LinesAreHeaders(lines: seq<HeadLine>)
    ensures LineReports(lines) == Reports(HeadersOf(lines))
    decreases |lines|
  {
    if lines != [] {
      LinesAreHeaders(lines[1..]);
      assert HeadersOf(lines)[1..] == HeadersOf(lines[1..]);
    }
  }

  // ---- Requests ----

  lemma {:induction false} ChunksAreHeard(r: Request, chunks: seq<string>)
    ensures Q.HeardAll(r, ChunksTold(chunks)) == r.(body := r.body + Concat(chunks))
    decreases |chunks|
  {
    if chunks == [] {
      var a, b, c := ChunkHeader(0), ChunkComplete, MessageComplete;
      assert [a, b, c][1..] == [b, c] && [b, c][1..] == [c];
      Q.HeardOne(r, c);
      assert r.body + "" == r.body;
    } else {
      var x, rest := chunks[0], chunks[1..];
      var a, b, c := ChunkHeader(|x|), Data(Body, x), ChunkComplete;
      Q.HeardAppend(r, [a, b, c], ChunksTold(rest));
      assert [a, b, c][1..] == [b, c] && [b, c][1..] == [c];
      var q := r.(body := r.body + x);
      Q.HeardOne(q, c);
      assert Q.HeardAll(r, [a, b, c]) == q;
      ChunksAreHeard(q, rest);
      assert r.body + x + Concat(rest) == r.body + (x + Concat(rest));
    }
  }

  lemma LoadIsHeard(r: Request, load: Load)
    ensures Q.HeardAll(r, LoadTold(load)) == r.(body := r.body + BytesOfLoad(load))
  {
    match load
    case Nothing => Q.HeardOne(r, MessageComplete); assert r.body + "" == r.body;
    case Whole(bytes) =>
      assert [Data(Body, bytes), MessageComplete][1..] == [MessageComplete];
      Q.HeardOne(r.(body := r.body + bytes), MessageComplete);
    case InChunks(chunks) => ChunksAreHeard(r, chunks);
  }

  /** The request that is rebuilt: all that was sent but the method. */
  function RequestOf(s: Sending): Request
    requires s.RequestSent?
  {
    Request("", s.uri, s.major, s.minor, HeadersOf(s.lines), BytesOfLoad(s.load))
  }

  lemma RequestIsHeard(s: Sending)
    requires s.RequestSent?
    ensures Q.HeardAll(Q.NO_REQUEST, ToldOf(s)) == RequestOf(s)
  {
    hide LineReports, LoadTold, HeadersOf, BytesOfLoad;
    LinesAreHeaders(s.lines);
    var a, b := BeginTold(s), LineReports(s.lines);
    var c, d := [HeadersComplete(s.major, s.minor)], LoadTold(s.load);
    Q.HeardAppend(Q.NO_REQUEST, a, b + c + d);
    Q.HeardAppend(Q.NO_REQUEST, [MessageBegin], [Data(Url, s.uri)]);
    Q.HeardOne(Q.NO_REQUEST, MessageBegin);
    Q.HeardOne(Q.NO_REQUEST, Data(Url, s.uri));
    var q := Q.NO_REQUEST.(uri := s.uri);
    assert "" + s.uri == s.uri;
    Q.HeardAppend(q, b + c, d);
    Q.HeardAppend(q, b, c);
    Q.HeardReports(q, HeadersOf(s.lines));
    assert [] + HeadersOf(s.lines) == HeadersOf(s.lines);
    var h := q.(headers := HeadersOf(s.lines));
    Q.HeardOne(h, c[0]);
    var t := h.(major := s.major, minor := s.minor);
    LoadIsHeard(t, s.load);
    assert "" + BytesOfLoad(s.load) == BytesOfLoad(s.load);
  }

  lemma MessageIsTold(s: Sending)
    ensures MessageComplete in ToldOf(s) && TextOf(s) != ""
  {
    LoadEndsWithIt(s.load);
    hide LineReports, LoadTold;
    assert MessageComplete in LoadTold(s.load);
  }

  lemma LoadEndsWithIt(load: Load)
    ensures MessageComplete in LoadTold(load)
  {
    if load.InChunks? { ChunksEndWithIt(load.chunks); }
  }

  lemma {:induction false} ChunksEndWithIt(chunks: seq<string>)
    ensures MessageComplete in ChunksTold(chunks)
    decreases |chunks|
  {
    if chunks != [] {
      ChunksEndWithIt(chunks[1..]);
    }
  }

  /**
    A request from any sender, received in one piece: it is good exactly if it does not ask for another
    protocol, and then it is rebuilt with all its headers and the bytes of its body.
   */
  method ReceiveRequest(ghost s: Sending, text: string) returns (result: Verdict, got: Request, verb: Method)
    requires s.RequestSent? && text == TextOf(s) && IsSending(REQUEST, s) && HeadSize(s) <= 81920
    requires |text| < UINT32_LIMIT - MAX_HEADER_SIZE
    ensures result == if s.verb == CONNECT || AskBoth(s.lines) then Bad else Good
    ensures got == RequestOf(s) && verb == s.verb
  {
    hide Run, Inv, Call, Succeeds, TextOf, ToldOf, IsSending, HeadSize, AskBoth, Q.HeardAll, RequestOf;
    var receiver := new Q.HttpRequestParser();
    ghost var n, calls;
    result, n, calls := receiver.Parse(text);
    got, verb := receiver.req, receiver.parser.verb;
    OneIsTold(REQUEST, s);
    MessageIsTold(s);
    RequestIsHeard(s);
  }

  // ---- Replies ----

  lemma {:induction false} ChunksAreContent(r: Reply, chunks: seq<string>)
    ensures R.HeardAll(r, ChunksTold(chunks)) == r.(content := r.content + Concat(chunks))
    decreases |chunks|
  {
    if chunks == [] {
      var a, b, c := ChunkHeader(0), ChunkComplete, MessageComplete;
      assert [a, b, c][1..] == [b, c] && [b, c][1..] == [c];
      R.HeardOne(r, c);
      assert r.content + "" == r.content;
    } else {
      var x, rest := chunks[0], chunks[1..];
      var a, b, c := ChunkHeader(|x|), Data(Body, x), ChunkComplete;
      R.HeardAppend(r, [a, b, c], ChunksTold(rest));
      assert [a, b, c][1..] == [b, c] && [b, c][1..] == [c];
      var q := r.(content := r.content + x);
      R.HeardOne(q, c);
      assert R.HeardAll(r, [a, b, c]) == q;
      ChunksAreContent(q, rest);
      assert r.content + x + Concat(rest) == r.content + (x + Concat(rest));
    }
  }

  lemma LoadIsContent(r: Reply, load: Load)
    ensures R.HeardAll(r, LoadTold(load)) == r.(content := r.content + BytesOfLoad(load))
  {
    match load
    case Nothing => R.HeardOne(r, MessageComplete); assert r.content + "" == r.content;
    case Whole(bytes) =>
      assert [Data(Body, bytes), MessageComplete][1..] == [MessageComplete];
      R.HeardOne(r.(content := r.content + bytes), MessageComplete);
    case InChunks(chunks) => ChunksAreContent(r, chunks);
  }

  function ReplyOf(s: Sending): Reply
    requires s.ReplySent?
  {
    Reply(s.status, HeadersOf(s.lines), BytesOfLoad(s.load))
  }

  lemma ReplyIsHeard(s: Sending)
    requires s.ReplySent?
    ensures R.HeardAll(R.NO_REPLY, ToldOf(s)) == ReplyOf(s)
  {
    hide LineReports, LoadTold, HeadersOf, BytesOfLoad;
    LinesAreHeaders(s.lines);
    var first := Data(Status(s.status), s.reason);
    var a, b := BeginTold(s), LineReports(s.lines);
    var c, d := [HeadersComplete(s.major, s.minor)], LoadTold(s.load);
    R.HeardAppend(R.NO_REPLY, a, b + c + d);
    R.HeardAppend(R.NO_REPLY, [MessageBegin], [first]);
    R.HeardOne(R.NO_REPLY, MessageBegin);
    R.HeardOne(R.NO_REPLY, first);
    var q := R.NO_REPLY.(status := s.status);
    R.HeardAppend(q, b + c, d);
    R.HeardAppend(q, b, c);
    R.HeardReports(q, HeadersOf(s.lines));
    assert [] + HeadersOf(s.lines) == HeadersOf(s.lines);
    var h := q.(headers := HeadersOf(s.lines));
    R.HeardOne(h, c[0]);
    LoadIsContent(h, s.load);
    assert "" + BytesOfLoad(s.load) == BytesOfLoad(s.load);
  }

  /** The same of a reply. */
  method ReceiveReply(ghost s: Sending, text: string) returns (result: Verdict, got: Reply)
    requires s.ReplySent? && text == TextOf(s) && IsSending(RESPONSE, s) && HeadSize(s) <= 81920
    requires |text| < UINT32_LIMIT - MAX_HEADER_SIZE
    ensures result == if AskBoth(s.lines) then Bad else Good
    ensures got == ReplyOf(s)
  {
    hide Run, Inv, Call, Succeeds, TextOf, ToldOf, IsSending, HeadSize, AskBoth, R.HeardAll, ReplyOf;
    var receiver := new R.HttpReplyParser();
    ghost var n, calls;
    result, n, calls := receiver.Parse(text);
    got := receiver.reply;
    OneIsTold(RESPONSE, s);
    MessageIsTold(s);
    ReplyIsHeard(s);
  }
}
