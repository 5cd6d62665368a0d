/** The chunked coding (section 4.1 of RFC 7230): chunk sizes, and the round trip of a whole body. */
module Chunks {
  import opened Chars
  import opened ParserTypes
  import opened Transitions
  import opened Machine
  import opened Invariant
  import opened Runs
  import opened FieldNames
  import opened Lengths
  import opened Headers
  import opened HttpParsers
  import opened Traces
  import opened Segmentation

  // ---- Sizes ----

  predicate IsHexText(v: string) {
    forall ch <- v :: Unhex(ch) != -1
  }

  /** The number that the digits of `v` make behind those of `n`. */
  function HexValue(n: nat, v: string): nat
    requires IsHexText(v)
    decreases |v|
  {
    if v == "" then n
    else
      assert v[0] in v && forall ch <- v[1..] :: ch in v;
      HexValue(n * 16 + Unhex(v[0]), v[1..])
  }

  lemma {:induction false} HexGrows(n: nat, v: string)
    requires IsHexText(v)
    ensures HexValue(n, v) >= n
    decreases |v|
  {
    if v != "" {
      assert v[0] in v && forall ch <- v[1..] :: ch in v;
      HexGrows(n * 16 + Unhex(v[0]), v[1..]);
    }
  }

  predicate GoodSize(n: nat, v: string) {
    IsHexText(v) && HexValue(n, v) <= MAX_CHUNK
  }

  lemma GoodSizeStep(n: nat, v: string)
    requires v != ""
    ensures GoodSize(n, v) <==>
      Unhex(v[0]) != -1 && n * 16 + Unhex(v[0]) <= MAX_CHUNK && GoodSize(n * 16 + Unhex(v[0]), v[1..])
    ensures GoodSize(n, v) ==> HexValue(n, v) == HexValue(n * 16 + Unhex(v[0]), v[1..])
  {
    if IsHexText(v) {
      assert v[0] in v && forall ch <- v[1..] :: ch in v;
      HexGrows(n * 16 + Unhex(v[0]), v[1..]);
    } else if Unhex(v[0]) != -1 {
      var i :| 0 <= i < |v| && Unhex(v[i]) == -1;
      assert v[1..][i - 1] in v[1..];
    }
  }

  lemma OnChunkIs(p: Parser, skipping: bool, ch: char)
    requires p.state.Chunk?
    ensures Transition(p, skipping, ch) == OnChunk(p, p.state.chunk, ch)
  {
    hide OnChunk;
  }

  /** The guard on the number before a digit is exact for the number after it. */
  lemma SizeByte(p: Parser, ch: char)
    requires p.errno == OK && p.state == Chunk(ChunkSize) && p.contentLength <= MAX_CHUNK
    requires ch != CR && ch != ';' && ch != ' '
    ensures
      var o := OnChunk(p, ChunkSize, ch);
      if Unhex(ch) != -1 && p.contentLength * 16 + Unhex(ch) <= MAX_CHUNK then
        o == Stay(p.(contentLength := p.contentLength * 16 + Unhex(ch)))
      else o.p.errno != OK
  {
  }

  predicate IsDigits(v: string) {
    CR !in v && ';' !in v && ' ' !in v
  }

  lemma {:induction false} RestOfSize(c: Core, v: string)
    requires Going(c) && c.p.state == Chunk(ChunkSize) && c.p.contentLength <= MAX_CHUNK && c.slice.Closed?
    requires IsDigits(v)
    ensures
      if GoodSize(c.p.contentLength, v) then
        ReadsHead(c, v, c.p.(contentLength := HexValue(c.p.contentLength, v)), Closed, [])
      else Run(c, v).c.p.errno != OK
    decreases |v|
  {
    hide Run, Clean, Transition, OnChunk, HexValue, IsHexText, Unhex;
    var n := c.p.contentLength;
    if v == "" {
      NoMoreHex(n);
      ReadsNothing(c);
    } else {
      var ch, rest := v[0], v[1..];
      assert ch in v && (forall x <- rest :: x in v) && v == [ch] + rest;
      SizeByte(c.p, ch);
      OnChunkIs(c.p, c.skipping, ch);
      GoodSizeStep(n, v);
      var o := OnChunk(c.p, ChunkSize, ch);
      RunFails(c, ch, rest);
      if o.p.errno == OK {
        ReadsByte(c, ch, o);
        var d := Run(c, [ch]).c;
        RestOfSize(d, rest);
        if GoodSize(n, v) {
          ReadsHeadBoth(c, [ch], o.p, Closed, [], rest, c.p.(contentLength := HexValue(n, v)), Closed, []);
        } else {
          RunAppend(c, [ch], rest);
        }
      }
    }
  }

  lemma NoMoreHex(n: nat)
    ensures GoodSize(n, "") <==> n <= MAX_CHUNK
    ensures HexValue(n, "") == n
  {
  }

  /** The digits of a chunk size are accepted exactly if their number is at most 2^64 - 17. */
  lemma SizeIsRead(c: Core, v: string)
    requires Going(c) && c.p.state == Chunk(ChunkSizeStart) && c.slice.Closed?
    requires v != "" && IsDigits(v)
    ensures
      if GoodSize(0, v) then
        ReadsHead(c, v, c.p.(state := Chunk(ChunkSize), contentLength := HexValue(0, v)), Closed, [])
      else Run(c, v).c.p.errno != OK
  {
    hide Run, Clean, Transition, HexValue, IsHexText, Unhex;
    var ch, rest := v[0], v[1..];
    assert ch in v && (forall x <- rest :: x in v) && v == [ch] + rest;
    OnChunkIs(c.p, c.skipping, ch);
    GoodSizeStep(0, v);
    RunFails(c, ch, rest);
    if Unhex(ch) != -1 {
      var q := c.p.(state := Chunk(ChunkSize), contentLength := Unhex(ch));
      ReadsByte(c, ch, Stay(q));
      var d := Run(c, [ch]).c;
      RestOfSize(d, rest);
      if GoodSize(0, v) {
        ReadsHeadBoth(c, [ch], q, Closed, [], rest, q.(contentLength := HexValue(0, v)), Closed, []);
      } else {
        RunAppend(c, [ch], rest);
      }
    }
  }

  /** Bytes from 128 up pass for the digit 0, because `unhex` says nothing about them. */
  lemma {:induction false} HighBytesAreZeros(n: nat, v: string, ch: char)
    requires IsHexText(v) && ch >= '\U{80}'
    ensures IsHexText(v + [ch]) && HexValue(n, v + [ch]) == HexValue(n, v) * 16
    decreases |v|
  {
    var w := v + [ch];
    assert forall x <- w :: x in v || x == ch;
    if v == "" {
      assert w[1..] == "";
    } else {
      assert v[0] in v && (forall x <- v[1..] :: x in v) && w[1..] == v[1..] + [ch];
      HighBytesAreZeros(n * 16 + Unhex(v[0]), v[1..], ch);
    }
  }

  // ---- One chunk ----

  /** A chunk as it is sent: the digits of its size, an extension, and its bytes. */
  datatype Piece = Piece(digits: string, extension: string, bytes: string)

  predicate IsExtension(x: string) {
    CR !in x && (x != "" ==> x[0] == ';' || x[0] == ' ')
  }

  predicate IsHead(digits: string, extension: string, size: nat) {
    digits != "" && IsDigits(digits) && GoodSize(0, digits) && HexValue(0, digits) == size && IsExtension(extension)
  }

  predicate IsPiece(k: Piece) {
    k.bytes != "" && IsHead(k.digits, k.extension, |k.bytes|)
  }

  function SizeLine(digits: string, extension: string): string {
    digits + extension + "\r\n"
  }

  function PrintPiece(k: Piece): string {
    SizeLine(k.digits, k.extension) + k.bytes + "\r\n"
  }

  /** `Reads`, where the limit starts anew at the end and `n` bytes have counted before. */
  predicate ReadsPart(c: Core, data: string, n: nat, p: Parser, slice: Slice, events: seq<Event>) {
    && Reads(c, data, p, slice, events)
    && Run(c, data).c.nread == 0
    && (!c.over && c.nread + n <= MAX_HEADER_SIZE ==> !Run(c, data).c.over)
  }

  lemma ParameterByte(p: Parser, ch: char)
    ensures OnChunk(p, ChunkParameters, ch) == if ch == CR then To(p, Chunk(ChunkSizeAlmostDone)) else Stay(p)
  {
  }

  lemma {:induction false} RestOfExtension(c: Core, x: string)
    requires Going(c) && c.p.state == Chunk(ChunkParameters) && c.slice.Closed? && CR !in x
    ensures ReadsHead(c, x, c.p, Closed, [])
    decreases |x|
  {
    hide Transition, OnChunk;
    if x == "" {
      ReadsNothing(c);
    } else {
      var ch, rest := x[0], x[1..];
      assert ch in x && (forall y <- rest :: y in x) && x == [ch] + rest;
      OnChunkIs(c.p, c.skipping, ch);
      ParameterByte(c.p, ch);
      ReadsByte(c, ch, Stay(c.p));
      RestOfExtension(Step(c, ch).c, rest);
      ReadsHeadBoth(c, [ch], c.p, Closed, [], rest, c.p, Closed, []);
    }
  }

  lemma ExtensionStarts(p: Parser, ch: char)
    requires ch == CR || ch == ';' || ch == ' '
    ensures OnChunk(p, ChunkSize, ch) == To(p, if ch == CR then Chunk(ChunkSizeAlmostDone) else Chunk(ChunkParameters))
  {
  }

  /** What follows the digits of a size, with the CR behind it. */
  lemma ExtensionIsRead(c: Core, x: string)
    requires Going(c) && c.p.state == Chunk(ChunkSize) && c.slice.Closed? && IsExtension(x)
    ensures ReadsHead(c, x + [CR], c.p.(state := Chunk(ChunkSizeAlmostDone)), Closed, [])
  {
    hide Transition, OnChunk, Run;
    var done := c.p.(state := Chunk(ChunkSizeAlmostDone));
    if x == "" {
      assert x + [CR] == [CR];
      OnChunkIs(c.p, c.skipping, CR);
      ExtensionStarts(c.p, CR);
      ReadsByte(c, CR, To(c.p, Chunk(ChunkSizeAlmostDone)));
    } else {
      var ch, rest := x[0], x[1..];
      assert (forall y <- rest :: y in x) && x == [ch] + rest;
      OnChunkIs(c.p, c.skipping, ch);
      ExtensionStarts(c.p, ch);
      var q := c.p.(state := Chunk(ChunkParameters));
      ReadsByte(c, ch, To(c.p, Chunk(ChunkParameters)));
      var d := Run(c, [ch]).c;
      RestOfExtension(d, rest);
      ReadsHeadBoth(c, [ch], q, Closed, [], rest, q, Closed, []);
      var e := Run(c, x).c;
      OnChunkIs(e.p, e.skipping, CR);
      ParameterByte(e.p, CR);
      ReadsByte(e, CR, To(e.p, Chunk(ChunkSizeAlmostDone)));
      ReadsHeadBoth(c, x, q, Closed, [], [CR], done, Closed, []);
    }
  }

  /** The parser behind the line of a chunk size. */
  function AfterSize(p: Parser, size: nat): Parser {
    if size == 0 then p.(state := Head(HeaderFieldStart), contentLength := 0, flags := p.flags.(trailing := true))
    else p.(state := Chunk(ChunkData), contentLength := size)
  }

  lemma SizeEnds(p: Parser)
    ensures
      OnChunk(p, ChunkSizeAlmostDone, LF)
        == Resetting(ToTelling(AfterSize(p, p.contentLength), AfterSize(p, p.contentLength).state,
                               [ChunkHeader(p.contentLength)]))
  {
  }

  lemma SizeLineIsRead(c: Core, digits: string, extension: string, size: nat)
    requires Going(c) && c.p.state == Chunk(ChunkSizeStart) && c.slice.Closed? && IsHead(digits, extension, size)
    ensures
      var line := SizeLine(digits, extension);
      ReadsPart(c, line, |line|, AfterSize(c.p, size), Closed, [ChunkHeader(size)])
  {
    hide Transition, OnChunk, Run, GoodSize, HexValue, IsDigits, IsExtension;
    SizeIsRead(c, digits);
    var d := Run(c, digits).c;
    ExtensionIsRead(d, extension);
    var q := c.p.(state := Chunk(ChunkSizeAlmostDone), contentLength := size);
    ReadsHeadBoth(c, digits, d.p, Closed, [], extension + [CR], q, Closed, []);
    var e := Run(c, digits + (extension + [CR])).c;
    OnChunkIs(e.p, e.skipping, LF);
    SizeEnds(q);
    var o := Resetting(ToTelling(AfterSize(q, size), AfterSize(q, size).state, [ChunkHeader(size)]));
    ReadsByte(e, LF, o);
    ReadsBoth(c, digits + (extension + [CR]), q, Closed, [], [LF], AfterSize(c.p, size), Closed, [ChunkHeader(size)]);
    assert digits + (extension + [CR]) + [LF] == SizeLine(digits, extension);
  }

  /** In a body no byte stands in a header value. */
  lemma {:induction false} CleanBody(c: Core, data: string)
    requires Bodily(c) && (c.p.state != Content(BodyIdentityEof) ==> |data| < c.p.contentLength)
    ensures Clean(c, data)
    decreases |data|
  {
    hide Step;
    if data != "" {
      StepBody(c, data[0]);
      CleanBody(Step(c, data[0]).c, data[1..]);
    }
  }

  /** All the bytes of a body but the last one. */
  lemma AllButLast(c: Core, bytes: string)
    requires CoreInv(c) && Bodily(c) && c.p.state != Content(BodyIdentityEof)
    requires c.slice.Closed? && bytes != "" && c.p.contentLength == |bytes|
    ensures
      var k := |bytes| - 1;
      var d := InBody(c, bytes[..k]);
      && Run(c, bytes[..k]) == RunOut(d, [], k) && Clean(c, bytes[..k])
      && CoreInv(d) && Bodily(d) && d == c.(p := d.p, slice := d.slice) && d.p == c.p.(contentLength := 1)
      && Extend(d.slice, At(Body), bytes[k]) == Open(Body, bytes)
  {
    hide Run, CoreInv;
    var k := |bytes| - 1;
    assert bytes[..k][k..] == "" && bytes[..k][..k] == bytes[..k] && bytes[..k] + [bytes[k]] == bytes;
    SkipBody(c, bytes[..k], k);
    BodyInv(c, bytes[..k]);
    RunNothing(InBody(c, bytes[..k]));
    CleanBody(c, bytes[..k]);
  }

  /** All the bytes of a body, given what the last one does. */
  lemma WithLast(c: Core, bytes: string, d: Core, e: StepOut)
    requires bytes != "" && Run(c, bytes[..|bytes| - 1]) == RunOut(d, [], |bytes| - 1)
    requires Clean(c, bytes[..|bytes| - 1]) && Bodily(d)
    requires Step(d, bytes[|bytes| - 1]) == e && e.c.p.errno == OK
    ensures Run(c, bytes) == RunOut(e.c, e.events, |bytes|)
    ensures !e.c.halted ==> Reads(c, bytes, e.c.p, e.c.slice, e.events)
  {
    hide Step, Run, Clean;
    var k := |bytes| - 1;
    assert bytes == bytes[..k] + [bytes[k]];
    RunAppend(c, bytes[..k], [bytes[k]]);
    CleanAppend(c, bytes[..k], [bytes[k]]);
    OneByte(d, bytes[k], e);
    assert [] + e.events == e.events;
  }

  /** A single byte outside a header value. */
  lemma OneByte(d: Core, ch: char, e: StepOut)
    requires Going(d) && d.p.state != Head(HeaderValue) && Step(d, ch) == e && e.c.p.errno == OK
    ensures Run(d, [ch]) == RunOut(e.c, e.events, 1) && Clean(d, [ch])
  {
    hide Step;
    assert [ch][1..] == "";
    RunNothing(e.c);
    assert e.events + [] == e.events;
    assert Clean(e.c, "");
  }

  /** The bytes of a chunk, all of them. */
  lemma BytesAreRead(c: Core, bytes: string)
    requires CoreInv(c) && Bodily(c) && c.p.state == Chunk(ChunkData)
    requires c.slice.Closed? && bytes != "" && c.p.contentLength == |bytes|
    ensures
      var p := c.p.(state := Chunk(ChunkDataAlmostDone), contentLength := 0);
      && Reads(c, bytes, p, Open(Body, bytes), [])
      && Run(c, bytes).c == c.(p := p, slice := Open(Body, bytes))
  {
    hide Run, CoreInv, InBody, Step;
    AllButLast(c, bytes);
    var d := InBody(c, bytes[..|bytes| - 1]);
    StepLastOfBody(d, bytes[|bytes| - 1]);
    WithLast(c, bytes, d, Step(d, bytes[|bytes| - 1]));
  }

  lemma ChunkEnds(p: Parser)
    ensures OnChunk(p, ChunkDataAlmostDone, CR) == ToFlushing(p, Chunk(ChunkDataDone), Body)
    ensures OnChunk(p, ChunkDataDone, LF) == Resetting(ToTelling(p, Chunk(ChunkSizeStart), [ChunkComplete]))
  {
  }

  /** The line end behind the bytes of a chunk. */
  lemma ChunkEndIsRead(c: Core, bytes: string)
    requires Going(c) && c.p.state == Chunk(ChunkDataAlmostDone) && c.slice == Open(Body, bytes)
    ensures ReadsPart(c, "\r\n", 0, c.p.(state := Chunk(ChunkSizeStart)), Closed, [Data(Body, bytes), ChunkComplete])
  {
    hide Run, Clean, Transition, OnChunk;
    ChunkEnds(c.p);
    OnChunkIs(c.p, c.skipping, CR);
    ReadsByte(c, CR, ToFlushing(c.p, Chunk(ChunkDataDone), Body));
    var d := Run(c, [CR]).c;
    ChunkEnds(d.p);
    OnChunkIs(d.p, d.skipping, LF);
    ReadsByte(d, LF, Resetting(ToTelling(d.p, Chunk(ChunkSizeStart), [ChunkComplete])));
    assert "\r\n" == [CR] + [LF];
    ReadsBoth(c, [CR], d.p, Closed, [Data(Body, bytes)],
              [LF], c.p.(state := Chunk(ChunkSizeStart)), Closed, [ChunkComplete]);
  }

  function PieceReports(k: Piece): seq<Event> {
    [ChunkHeader(|k.bytes|), Data(Body, k.bytes), ChunkComplete]
  }

  /** The parser behind a chunk. */
  function AfterPiece(p: Parser): Parser {
    p.(contentLength := 0)
  }

  lemma PieceIsRead(c: Core, k: Piece)
    requires CoreInv(c) && Going(c) && c.p.state == Chunk(ChunkSizeStart) && IsPiece(k)
    ensures
      ReadsPart(c, PrintPiece(k), |SizeLine(k.digits, k.extension)|, AfterPiece(c.p), Closed, PieceReports(k))
  {
    hide Clean, Run, Inv, IsHead;
    var line := SizeLine(k.digits, k.extension);
    SizeLineIsRead(c, k.digits, k.extension, |k.bytes|);
    RunInv(c, line);
    var d := Run(c, line).c;
    BytesAreRead(d, k.bytes);
    var e := Run(d, k.bytes).c;
    ChunkEndIsRead(e, k.bytes);
    var p := AfterPiece(c.p);
    ReadsBoth(d, k.bytes, e.p, e.slice, [], "\r\n", p, Closed, [Data(Body, k.bytes), ChunkComplete]);
    ReadsBoth(c, line, d.p, Closed, [ChunkHeader(|k.bytes|)],
              k.bytes + "\r\n", p, Closed, [Data(Body, k.bytes), ChunkComplete]);
    assert line + (k.bytes + "\r\n") == PrintPiece(k);
    assert [ChunkHeader(|k.bytes|)] + [Data(Body, k.bytes), ChunkComplete] == PieceReports(k);
  }

  // ---- The whole body ----

  /** A chunked body as it is sent: the chunks, the last one of size 0, and the trailer. */
  datatype Message = Message(pieces: seq<Piece>, digits: string, extension: string, trailer: seq<Header>)

  predicate IsMessage(b: Message) {
    && (forall k <- b.pieces :: IsPiece(k))
    && IsHead(b.digits, b.extension, 0)
    && AllPlain(b.trailer)
  }

  /** No line of a size, and no trailer, exceeds the header limit. */
  predicate IsWithinLimit(b: Message) {
    && (forall k <- b.pieces :: |SizeLine(k.digits, k.extension)| <= MAX_HEADER_SIZE)
    && |SizeLine(b.digits, b.extension)| <= MAX_HEADER_SIZE
    && |PrintAll(b.trailer)| + 2 <= MAX_HEADER_SIZE
  }

  function PrintPieces(pieces: seq<Piece>): string {
    if pieces == [] then "" else PrintPiece(pieces[0]) + PrintPieces(pieces[1..])
  }

  function PrintMessage(b: Message): string {
    PrintPieces(b.pieces) + (SizeLine(b.digits, b.extension) + (PrintAll(b.trailer) + "\r\n"))
  }

  function BytesOfPieces(pieces: seq<Piece>): string {
    if pieces == [] then "" else pieces[0].bytes + BytesOfPieces(pieces[1..])
  }

  function ReportsOfPieces(pieces: seq<Piece>): seq<Event> {
    if pieces == [] then [] else PieceReports(pieces[0]) + ReportsOfPieces(pieces[1..])
  }

  /** All callbacks for a chunked body; the message is complete with the very last of them. */
  function MessageReports(b: Message): seq<Event> {
    ReportsOfPieces(b.pieces) + [ChunkHeader(0)] + Reports(b.trailer) + [ChunkComplete] + [MessageComplete]
  }

  lemma {:induction false} PiecesAreRead(c: Core, pieces: seq<Piece>)
    requires CoreInv(c) && Going(c) && c.p.state == Chunk(ChunkSizeStart)
    requires forall k <- pieces :: IsPiece(k)
    ensures
      var p := if pieces == [] then c.p else AfterPiece(c.p);
      var d := Run(c, PrintPieces(pieces)).c;
      && Reads(c, PrintPieces(pieces), p, Closed, ReportsOfPieces(pieces))
      && CoreInv(d) && d.nread == 0
      && (!c.over && (forall k <- pieces :: |SizeLine(k.digits, k.extension)| <= MAX_HEADER_SIZE) ==> !d.over)
    decreases |pieces|
  {
    hide Run, Inv, IsPiece;
    if pieces == [] {
      ReadsNothing(c);
      assert Run(c, "").c == c by { RunNothing(c); }
    } else {
      var k, rest := pieces[0], pieces[1..];
      assert k in pieces && forall x <- rest :: x in pieces;
      PieceIsRead(c, k);
      RunInv(c, PrintPiece(k));
      var d := Run(c, PrintPiece(k)).c;
      PiecesAreRead(d, rest);
      var p := AfterPiece(c.p);
      ReadsBoth(c, PrintPiece(k), p, Closed, PieceReports(k), PrintPieces(rest), p, Closed, ReportsOfPieces(rest));
    }
  }

  lemma HeadEnds(p: Parser, skipping: bool)
    requires AtField(p)
    ensures Transition(p, skipping, CR) == ToTelling(AsField(p), Head(HeadersAlmostDone), Owed(p))
  {
    OnFieldStartIs(p, skipping, CR);
    hide Transition;
  }

  lemma TrailerEnds(p: Parser, skipping: bool)
    requires p.state == Head(HeadersAlmostDone) && p.flags.trailing
    ensures Transition(p, skipping, LF)
      == Outcome(p.(state := NewMessage(p)), Keep, [ChunkComplete] + [MessageComplete], NoMark, false, false, p.upgrade)
  {
    assert [] + [ChunkComplete] == [ChunkComplete];
    hide OnFieldStart, OnHeadersDone, OnValueStart, OnValue;
  }

  /** The empty line behind a trailer: the message is complete with its last byte. */
  lemma TrailerEndIsRead(c: Core)
    requires Going(c) && AtField(c.p) && c.p.flags.trailing && c.slice.Closed?
    ensures
      var q := AsField(c.p).(state := Head(HeadersAlmostDone));
      var r := Run(c, "\r\n");
      && r.c.p == q.(state := NewMessage(q)) && r.c.slice == Closed && r.c.halted == q.upgrade
      && r.c.nread == c.nread + 2 && !r.c.inside && (!c.over && c.nread + 2 <= MAX_HEADER_SIZE ==> !r.c.over)
      && r.events == Owed(c.p) + ([ChunkComplete] + [MessageComplete]) && r.used == 2
      && Clean(c, "\r\n")
  {
    hide Run, Clean, Step, Transition, AsField, Owed;
    var q := AsField(c.p).(state := Head(HeadersAlmostDone));
    AsFieldKeeps(c.p);
    HeadEnds(c.p, c.skipping);
    ReadsByte(c, CR, ToTelling(AsField(c.p), Head(HeadersAlmostDone), Owed(c.p)));
    var d := Run(c, [CR]).c;
    LastOfTrailer(d, q);
    assert "\r\n" == [CR] + [LF];
    RunAppend(c, [CR], [LF]);
    CleanAppend(c, [CR], [LF]);
  }

  lemma LastOfTrailer(d: Core, q: Parser)
    requires Going(d) && d.p == q && d.slice.Closed? && q.state == Head(HeadersAlmostDone) && q.flags.trailing
    ensures
      var r := Run(d, [LF]);
      && r.c.p == q.(state := NewMessage(q)) && r.c.slice == Closed && r.c.halted == q.upgrade
      && r.c.nread == d.nread + 1 && !r.c.inside && (!d.over && d.nread + 1 <= MAX_HEADER_SIZE ==> !r.c.over)
      && r.events == [ChunkComplete] + [MessageComplete] && r.used == 1
      && Clean(d, [LF])
  {
    hide Run, Clean, Transition;
    TrailerEnds(q, d.skipping);
    OneByte(d, LF, Step(d, LF));
    assert [] + ([ChunkComplete] + [MessageComplete]) == [ChunkComplete] + [MessageComplete];
  }

  lemma AsFieldKeeps(p: Parser)
    ensures AsField(p).errno == p.errno && AsField(p).flags.trailing == p.flags.trailing
    ensures AsField(p).upgrade == p.upgrade
  {
  }

  lemma LastChunkIsRead(c: Core, b: Message)
    requires CoreInv(c) && Going(c) && c.p.state == Chunk(ChunkSizeStart) && IsMessage(b)
    ensures
      var line := SizeLine(b.digits, b.extension);
      var p := AfterSize(c.p, 0);
      var d := Run(c, line + PrintAll(b.trailer)).c;
      && Reads(c, line + PrintAll(b.trailer), AfterAll(p, b.trailer), Closed, [ChunkHeader(0)] + ToldAll(p, b.trailer))
      && AtField(AfterAll(p, b.trailer)) && d.nread == |PrintAll(b.trailer)|
      && (!c.over && |line| <= MAX_HEADER_SIZE && |PrintAll(b.trailer)| <= MAX_HEADER_SIZE ==> !d.over)
  {
    hide Run, Inv, IsHead, AllPlain;
    var line := SizeLine(b.digits, b.extension);
    SizeLineIsRead(c, b.digits, b.extension, 0);
    var d := Run(c, line).c;
    AllAreRead(d, b.trailer);
    ReadsBoth(c, line, d.p, Closed, [ChunkHeader(0)],
              PrintAll(b.trailer), AfterAll(d.p, b.trailer), Closed, ToldAll(d.p, b.trailer));
  }

  function Tail(b: Message): string {
    SizeLine(b.digits, b.extension) + (PrintAll(b.trailer) + "\r\n")
  }

  function TailReports(b: Message): seq<Event> {
    [ChunkHeader(0)] + Reports(b.trailer) + [ChunkComplete] + [MessageComplete]
  }

  /** What a run to the end of a message leaves. */
  predicate Completes(c: Core, data: string, events: seq<Event>) {
    var r := Run(c, data);
    && r.events == events && r.used == |data|
    && r.c.p.errno == OK && r.c.p.state.Idle? && r.c.slice.Closed? && !r.c.inside
    && r.c.halted == c.p.upgrade
    && Clean(c, data)
  }

  lemma TailIsRead(c: Core, b: Message)
    requires CoreInv(c) && Going(c) && c.p.state == Chunk(ChunkSizeStart) && IsMessage(b)
    ensures Completes(c, Tail(b), TailReports(b))
    ensures
      var r := Run(c, Tail(b));
      !c.over && IsWithinLimit(b) ==> !r.c.over && r.c.nread <= MAX_HEADER_SIZE
  {
    hide Clean, Run, CoreInv, IsHead, AllPlain, AfterAll, ToldAll, Owed, AtField;
    var line := SizeLine(b.digits, b.extension) + PrintAll(b.trailer);
    LastChunkIsRead(c, b);
    var p := AfterSize(c.p, 0);
    var e := Run(c, line).c;
    TrailingStays(p, b.trailer);
    TrailerEndIsRead(e);
    RunAppend(c, line, "\r\n");
    CleanAppend(c, line, "\r\n");
    assert line + "\r\n" == Tail(b);
    ToldAndOwed(p, b.trailer);
    NothingOwed(p);
    TailReportsAdd(b, ToldAll(p, b.trailer), Owed(e.p));
  }

  lemma TailReportsAdd(b: Message, told: seq<Event>, owed: seq<Event>)
    requires told + owed == [] + Reports(b.trailer)
    ensures [ChunkHeader(0)] + told + (owed + ([ChunkComplete] + [MessageComplete])) == TailReports(b)
  {
    assert [ChunkHeader(0)] + told + (owed + ([ChunkComplete] + [MessageComplete]))
        == [ChunkHeader(0)] + (told + owed) + [ChunkComplete] + [MessageComplete];
    assert [] + Reports(b.trailer) == Reports(b.trailer);
  }

  /** A chunked body, byte by byte: what is delivered is what was chunked. */
  lemma MessageIsRead(c: Core, b: Message)
    requires CoreInv(c) && Going(c) && c.p.state == Chunk(ChunkSizeStart) && IsMessage(b)
    ensures Completes(c, PrintMessage(b), MessageReports(b))
    ensures
      var r := Run(c, PrintMessage(b));
      !c.over && IsWithinLimit(b) ==> !r.c.over && r.c.nread <= MAX_HEADER_SIZE
  {
    hide Run, Clean, CoreInv, IsPiece, IsHead, AllPlain, PrintPieces, SizeLine, PrintAll, ReportsOfPieces, Reports;
    var body := PrintPieces(b.pieces);
    PiecesAreRead(c, b.pieces);
    var d := Run(c, body).c;
    TailIsRead(d, b);
    RunAppend(c, body, Tail(b));
    CleanAppend(c, body, Tail(b));
    assert ReportsOfPieces(b.pieces) + TailReports(b) == MessageReports(b);
  }

  lemma NothingOwed(p: Parser)
    requires p.state == Head(HeaderFieldStart)
    ensures Owed(p) == []
  {
  }

  lemma TrailingStays(p: Parser, trailer: seq<Header>)
    requires p.state == Head(HeaderFieldStart) && AllPlain(trailer)
    ensures AfterAll(p, trailer).flags.trailing == p.flags.trailing
    ensures AfterAll(p, trailer).upgrade == p.upgrade
  {
    AllKeep(p, trailer);
    hide AllPlain;
  }

  // ---- Under any segmentation ----

  lemma {:induction false} PiecesAreJoined(pieces: seq<Piece>)
    ensures
      var t := ReportsOfPieces(pieces);
      IsJoined(t) && (t != [] ==> t[0].ChunkHeader? && t[|t| - 1] == ChunkComplete)
  {
    if pieces != [] {
      PiecesAreJoined(pieces[1..]);
      JoinedConcat(PieceReports(pieces[0]), ReportsOfPieces(pieces[1..]));
    }
  }

  lemma {:induction false} ReportsAreJoined(headers: seq<Header>)
    ensures
      var t := Reports(headers);
      IsJoined(t) && (t != [] ==> t[0].Data? && t[0].kind == Field && t[|t| - 1].Data? && t[|t| - 1].kind == Value)
  {
    if headers != [] {
      ReportsAreJoined(headers[1..]);
      JoinedConcat([Data(Field, headers[0].name), Data(Value, headers[0].value)], Reports(headers[1..]));
    }
  }

  lemma MessageIsJoined(b: Message)
    ensures IsJoined(MessageReports(b))
  {
    PiecesAreJoined(b.pieces);
    ReportsAreJoined(b.trailer);
    var x, y := ReportsOfPieces(b.pieces), Reports(b.trailer);
    JoinedConcat(x, [ChunkHeader(0)]);
    JoinedConcat(x + [ChunkHeader(0)], y);
    JoinedConcat(x + [ChunkHeader(0)] + y, [ChunkComplete]);
    JoinedConcat(x + [ChunkHeader(0)] + y + [ChunkComplete], [MessageComplete]);
  }

  /**
    The chunked coding is undone: however the coded body is cut into calls, the callbacks are,
    with their slices joined, those of its chunks, its trailer and one end of message, the last.
   */
  lemma ChunkedRoundTrip(p: Parser, b: Message, cuts: seq<string>)
    requires Ready(p, 0) && p.state == Chunk(ChunkSizeStart) && IsMessage(b) && IsWithinLimit(b)
    requires NonEmpty(cuts) && Concat(cuts) == PrintMessage(b) && NoneIsOver(p, 0, cuts)
    ensures
      var f := Feed(p, 0, cuts);
      f.ok && Normal(f.events) == MessageReports(b) && f.p.state.Idle? && f.halted == p.upgrade
  {
    hide Run, Inv, IsMessage, IsWithinLimit, Clean, NoneIsOver, PrintMessage, MessageReports;
    var c := Begin(p, 0);
    BeginInv(p, 0);
    MessageIsRead(c, b);
    PrintIsLong(b);
    var r := Run(c, PrintMessage(b));
    assert r.events + [] == r.events;
    CutsDoNotMatter(p, 0, cuts);
    OneCallDoesAll(p, 0, cuts);
    MessageIsJoined(b);
    JoinedIsNormal([], MessageReports(b));
    assert MessageReports(b) + [] == MessageReports(b) && [] + MessageReports(b) == MessageReports(b);
  }

  lemma PrintIsLong(b: Message)
    ensures PrintMessage(b) != ""
  {
  }
}
