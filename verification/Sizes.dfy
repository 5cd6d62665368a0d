/** Chunk sizes as base 16 is written: every digit by its letter, in either case. */
module Sizes {
  import opened Chars
  import opened Alphabets
  import opened ParserTypes
  import opened Transitions
  import opened Machine
  import opened Invariant
  import opened Runs
  import opened FieldNames
  import opened Lengths
  import opened Headers
  import opened Chunks
  import opened Traces
  import opened Segmentation

  /** `v` is `n` in base 16. Each digit is in either case, and zeros may stand in front. */
  predicate IsBase16(v: string, n: nat)
    decreases |v|
  {
    if v == "" then n == 0
    else IsHexDigit(v[|v| - 1], n % 16) && IsBase16(v[..|v| - 1], n / 16)
  }

  /** A digit in lower or upper case. */
  predicate IsSixteen(ch: char) {
    ch in HEX_SMALL || ch in HEX_CAPITAL
  }

  lemma {:induction false} HexAppend(n: nat, v: string, ch: char)
    requires IsHexText(v) && Unhex(ch) != -1
    ensures IsHexText(v + [ch]) && HexValue(n, v + [ch]) == HexValue(n, v) * 16 + Unhex(ch)
    decreases |v|
  {
    hide Unhex;
    var w := v + [ch];
    assert forall x <- w :: x in v || x == ch;
    if v == "" {
      assert w[1..] == "";
    } else {
      assert v[0] in v && (forall x <- v[1..] :: x in v) && w[1..] == v[1..] + [ch];
      HexAppend(n * 16 + Unhex(v[0]), v[1..], ch);
    }
  }

  lemma DigitsEndNoSize()
    ensures !IsSixteen(CR) && !IsSixteen(';') && !IsSixteen(' ')
    ensures forall d: nat | d < 16 :: IsSixteen(HEX_SMALL[d]) && IsSixteen(HEX_CAPITAL[d])
  {
  }

  /** What is written in base 16 is a number to the parser, and the same. */
  lemma {:induction false} Base16IsHex(v: string, n: nat)
    requires IsBase16(v, n)
    ensures IsHexText(v) && HexValue(0, v) == n && forall ch <- v :: IsSixteen(ch)
    decreases |v|
  {
    hide IsSixteen, Unhex;
    if v != "" {
      var u, ch := v[..|v| - 1], v[|v| - 1];
      Base16IsHex(u, n / 16);
      HexDigitIs(ch, n % 16);
      HexAppend(0, u, ch);
      DigitsEndNoSize();
      assert u + [ch] == v;
    }
  }

  lemma SixteenIsDigit(ch: char)
    requires IsSixteen(ch)
    ensures exists d: nat | d < 16 :: IsHexDigit(ch, d)
  {
    var d: nat :| d < 16 && (HEX_SMALL[d] == ch || HEX_CAPITAL[d] == ch);
    assert IsHexDigit(ch, d);
  }

  /** All digits make a number. */
  lemma {:induction false} SixteensAreBase16(v: string) returns (n: nat)
    requires forall ch <- v :: IsSixteen(ch)
    ensures IsBase16(v, n)
    decreases |v|
  {
    if v == "" {
      n := 0;
    } else {
      var u, ch := v[..|v| - 1], v[|v| - 1];
      assert ch in v && forall x <- u :: x in v;
      var m := SixteensAreBase16(u);
      var d: nat :| d < 16 && IsHexDigit(ch, d) by { SixteenIsDigit(ch); }
      n := m * 16 + d;
      assert n % 16 == d && n / 16 == m;
    }
  }

  /** A size in base 16 is read as the number it is, up to 2^64 - 17; a larger one is refused. */
  lemma SizeIsBase16(c: Core, v: string, n: nat)
    requires Going(c) && c.p.state == Chunk(ChunkSizeStart) && c.slice.Closed?
    requires v != "" && IsBase16(v, n)
    ensures
      if n <= 0xFFFF_FFFF_FFFF_FFEF then
        ReadsHead(c, v, c.p.(state := Chunk(ChunkSize), contentLength := n), Closed, [])
      else Run(c, v).c.p.errno != OK
  {
    hide Run, HexValue, IsHexText, Unhex, IsBase16, IsSixteen;
    Base16IsHex(v, n);
    DigitsEndNoSize();
    SizeIsRead(c, v);
  }

  /** Below 128, a byte that is no such digit, and does not end the digits, is refused. */
  lemma OtherByteIsRefused(c: Core, v: string, i: nat)
    requires Going(c) && c.p.state == Chunk(ChunkSizeStart) && c.slice.Closed?
    requires i < |v| && IsDigits(v) && v[i] as int < 128 && !IsSixteen(v[i])
    ensures Run(c, v).c.p.errno != OK
  {
    HexDigitsAre(v[i]);
    assert v[i] in v;
    hide Run, Unhex, HexValue, IsSixteen;
    SizeIsRead(c, v);
  }

  /** A size must begin with a digit. */
  lemma NoDigitIsRefused(c: Core, ch: char, rest: string)
    requires Going(c) && c.p.state == Chunk(ChunkSizeStart) && ch as int < 128 && !IsSixteen(ch)
    ensures Run(c, [ch] + rest).c.p.errno == INVALID_CHUNK_SIZE
  {
    hide Transition;
    HexDigitsAre(ch);
    hide Unhex, IsSixteen;
    OnChunkIs(c.p, c.skipping, ch);
    assert ([ch] + rest)[1..] == rest;
    RunStopped(Step(c, ch).c, rest);
  }

  // ---- A body ----

  /** `n` in base 16, in lower case, as senders print it. */
  function HexText(n: nat): string {
    if n < 16 then [HEX_SMALL[n]] else HexText(n / 16) + [HEX_SMALL[n % 16]]
  }

  lemma {:induction false} HexTextIsBase16(n: nat)
    ensures HexText(n) != "" && IsBase16(HexText(n), n)
  {
    var v := HexText(n);
    if n < 16 {
      assert v[..|v| - 1] == "";
    } else {
      HexTextIsBase16(n / 16);
      assert v[..|v| - 1] == HexText(n / 16);
    }
  }

  /** A chunk whose size is written in base 16. */
  predicate IsWritten(k: Piece) {
    && k.bytes != "" && |k.bytes| <= 0xFFFF_FFFF_FFFF_FFEF
    && k.digits != "" && IsBase16(k.digits, |k.bytes|) && IsExtension(k.extension)
  }

  lemma HeadIsWritten(digits: string, extension: string, n: nat)
    requires digits != "" && IsBase16(digits, n) && n <= 0xFFFF_FFFF_FFFF_FFEF && IsExtension(extension)
    ensures IsHead(digits, extension, n)
  {
    hide HexValue, IsHexText, Unhex, IsBase16, IsSixteen, IsExtension;
    Base16IsHex(digits, n);
    DigitsEndNoSize();
  }

  /** A body whose sizes are all written so, with a last chunk of any number of zeros. */
  predicate IsWrittenBody(b: Message) {
    && (forall k <- b.pieces :: IsWritten(k))
    && b.digits != "" && (forall ch <- b.digits :: ch == '0') && IsExtension(b.extension)
    && AllPlain(b.trailer)
  }

  lemma {:induction false} ZerosAreBase16(v: string)
    requires forall ch <- v :: ch == '0'
    ensures IsBase16(v, 0)
    decreases |v|
  {
    if v != "" {
      var u := v[..|v| - 1];
      assert v[|v| - 1] in v && forall x <- u :: x in v;
      ZerosAreBase16(u);
    }
  }

  lemma WrittenIsMessage(b: Message)
    requires IsWrittenBody(b)
    ensures IsMessage(b)
  {
    hide IsHead, IsBase16, IsExtension, AllPlain;
    ZerosAreBase16(b.digits);
    HeadIsWritten(b.digits, b.extension, 0);
    forall k <- b.pieces
      ensures IsPiece(k)
    {
      HeadIsWritten(k.digits, k.extension, |k.bytes|);
    }
  }

  /**
    The round trip of the chunked coding with its sizes in base 16, in any mixture of cases and with
    any cuts: the bytes of the chunks are told, chunk by chunk.
   */
  lemma WrittenRoundTrip(p: Parser, b: Message, cuts: seq<string>)
    requires Ready(p, 0) && p.state == Chunk(ChunkSizeStart) && IsWrittenBody(b) && IsWithinLimit(b)
    requires NonEmpty(cuts) && Concat(cuts) == PrintMessage(b) && NoneIsOver(p, 0, cuts)
    ensures
      var f := Feed(p, 0, cuts);
      f.ok && Normal(f.events) == MessageReports(b) && f.p.state.Idle? && f.halted == p.upgrade
  {
    hide Inv, IsMessage, IsWrittenBody, IsWithinLimit, NoneIsOver, PrintMessage, MessageReports;
    WrittenIsMessage(b);
    ChunkedRoundTrip(p, b, cuts);
  }

  // ---- A body as a sender prints it ----

  /** Chunks with their sizes in lower case, and nothing else. */
  function PrintChunks(chunks: seq<string>): string {
    if chunks == [] then "0\r\n\r\n"
    else HexText(|chunks[0]|) + "\r\n" + chunks[0] + "\r\n" + PrintChunks(chunks[1..])
  }

  /** What is told of them. */
  function ChunksTold(chunks: seq<string>): seq<Event> {
    if chunks == [] then [ChunkHeader(0), ChunkComplete, MessageComplete]
    else [ChunkHeader(|chunks[0]|), Data(Body, chunks[0]), ChunkComplete] + ChunksTold(chunks[1..])
  }

  function AsPieces(chunks: seq<string>): (pieces: seq<Piece>)
    ensures |pieces| == |chunks|
    ensures forall i | 0 <= i < |pieces| :: pieces[i] == Piece(HexText(|chunks[i]|), "", chunks[i])
  {
    seq(|chunks|, i requires 0 <= i < |chunks| => Piece(HexText(|chunks[i]|), "", chunks[i]))
  }

  predicate AreChunks(chunks: seq<string>) {
    forall x <- chunks :: 0 < |x| <= 0xFFFF_FFFF_FFFF_FFEF
  }

  lemma PiecesOfMore(chunks: seq<string>)
    requires chunks != []
    ensures
      var k := Piece(HexText(|chunks[0]|), "", chunks[0]);
      && AsPieces(chunks) == [k] + AsPieces(chunks[1..])
      && PrintPiece(k) == HexText(|chunks[0]|) + "\r\n" + chunks[0] + "\r\n"
  {
    hide HexText;
    var digits := HexText(|chunks[0]|);
    assert digits + "" == digits;
  }

  lemma {:induction false} PiecesArePrinted(chunks: seq<string>)
    ensures PrintPieces(AsPieces(chunks)) + "0\r\n\r\n" == PrintChunks(chunks)
    ensures ReportsOfPieces(AsPieces(chunks)) + [ChunkHeader(0), ChunkComplete, MessageComplete] == ChunksTold(chunks)
  {
    hide HexText;
    if chunks == [] {
      assert AsPieces(chunks) == [];
    } else {
      var rest := chunks[1..];
      PiecesOfMore(chunks);
      PiecesArePrinted(rest);
      assert AsPieces(chunks)[1..] == AsPieces(rest);
      var k := AsPieces(chunks)[0];
      assert PrintPiece(k) + PrintPieces(AsPieces(rest)) + "0\r\n\r\n"
          == PrintPiece(k) + (PrintPieces(AsPieces(rest)) + "0\r\n\r\n");
      hide PrintPiece, PieceReports;
    }
  }

  lemma PiecesAreWritten(chunks: seq<string>)
    requires AreChunks(chunks)
    ensures forall k <- AsPieces(chunks) :: IsPiece(k) && |SizeLine(k.digits, k.extension)| <= 18
  {
    forall k <- AsPieces(chunks)
      ensures IsPiece(k) && |SizeLine(k.digits, k.extension)| <= 18
    {
      var i :| 0 <= i < |chunks| && AsPieces(chunks)[i] == k;
      assert chunks[i] in chunks;
      HexTextIsBase16(|chunks[i]|);
      PowersOf16();
      HexTextIsShort(|chunks[i]|, 16);
      hide HexText, IsBase16, Power16;
      HeadIsWritten(k.digits, k.extension, |k.bytes|);
    }
  }

  function Power16(k: nat): nat {
    if k == 0 then 1 else 16 * Power16(k - 1)
  }

  lemma PowersOf16()
    ensures Power16(16) == 0x1_0000_0000_0000_0000
  {
    assert Power16(2) == 0x100;
    assert Power16(4) == 0x1_0000;
    assert Power16(6) == 0x100_0000;
    assert Power16(8) == 0x1_0000_0000;
    assert Power16(10) == 0x100_0000_0000;
    assert Power16(12) == 0x1_0000_0000_0000;
    assert Power16(14) == 0x100_0000_0000_0000;
  }

  lemma {:induction false} HexTextIsShort(n: nat, k: nat)
    requires n < Power16(k) && k > 0
    ensures |HexText(n)| <= k
  {
    if n >= 16 {
      assert Power16(1) == 16 * Power16(0) && Power16(k) == 16 * Power16(k - 1);
      HexTextIsShort(n / 16, k - 1);
    }
  }

  lemma ZeroIsWritten()
    ensures IsHead("0", "", 0)
  {
    assert "0"[..0] == "" && HEX_SMALL[0] == '0';
    assert IsHexDigit('0', 0) && IsBase16("", 0);
    assert IsBase16("0", 0);
    HeadIsWritten("0", "", 0);
  }

  /** The parser behind the last size line of a chunked body. */
  function AfterChunks(p: Parser): Parser {
    p.(state := Head(HeadersAlmostDone), contentLength := 0, flags := p.flags.(trailing := true))
  }

  /** The last chunk, and the empty line behind it. */
  lemma LastSizeIsRead(c: Core)
    requires Going(c) && c.p.state == Chunk(ChunkSizeStart) && c.slice.Closed?
    ensures
      var q := AfterChunks(c.p);
      var r := Run(c, "0\r\n\r\n");
      && r.c == Core(q.(state := NewMessage(q)), 2, Closed, r.c.skipping, false, r.c.over, q.upgrade)
      && (!c.over && c.nread + 3 <= MAX_HEADER_SIZE ==> !r.c.over)
      && r.events == [ChunkHeader(0), ChunkComplete, MessageComplete] && r.used == 5 && Clean(c, "0\r\n\r\n")
  {
    hide Run, Clean, IsHead, NewMessage, AtField, AsField, Owed;
    ZeroIsWritten();
    SizeLineIsRead(c, "0", "", 0);
    assert SizeLine("0", "") == "0\r\n";
    var d := Run(c, "0\r\n").c;
    TrailerBegins(d.p);
    TrailerEndIsRead(d);
    assert "0\r\n" + "\r\n" == "0\r\n\r\n";
    RunAppend(c, "0\r\n", "\r\n");
    CleanAppend(c, "0\r\n", "\r\n");
  }

  lemma TrailerBegins(p: Parser)
    requires p.state == Head(HeaderFieldStart)
    ensures AtField(p) && AsField(p) == p && Owed(p) == []
  {
  }

  /** Printed so, and read byte by byte: each chunk is told by its size and its bytes. */
  lemma ChunksAreRead(c: Core, chunks: seq<string>)
    requires CoreInv(c) && Going(c) && c.p.state == Chunk(ChunkSizeStart) && AreChunks(chunks)
    ensures
      var q := AfterChunks(c.p);
      var r := Run(c, PrintChunks(chunks));
      && r.c == Core(q.(state := NewMessage(q)), 2, Closed, r.c.skipping, false, r.c.over, q.upgrade)
      && (!c.over ==> !r.c.over)
      && r.events == ChunksTold(chunks) && r.used == |PrintChunks(chunks)| && Clean(c, PrintChunks(chunks))
  {
    hide Run, CoreInv, Clean, IsPiece, PrintChunks, ChunksTold, PrintPieces, ReportsOfPieces, SizeLine, NewMessage;
    var pieces := AsPieces(chunks);
    PiecesAreWritten(chunks);
    PiecesAreRead(c, pieces);
    var d := Run(c, PrintPieces(pieces)).c;
    LastSizeIsRead(d);
    PiecesArePrinted(chunks);
    RunAppend(c, PrintPieces(pieces), "0\r\n\r\n");
    CleanAppend(c, PrintPieces(pieces), "0\r\n\r\n");
  }
}
