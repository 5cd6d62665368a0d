/** What the printers print is what the parser reports. */
module RoundTrips {
  import opened Chars
  import opened Alphabets
  import opened ParserTypes
  import opened Transitions
  import opened Machine
  import opened Invariant
  import opened Runs
  import opened FieldNames
  import opened Lengths
  import opened Lines
  import opened Headers
  import opened Chunks
  import opened Ends
  import opened Methods
  import opened Connections
  import opened Packets
  import opened HttpParsers

  // ---- The lines that the printers add ----

  const LENGTH_NAME := "Content-Length"
  const CONNECTION_NAME := "Connection"

  lemma NamesAreKnown()
    ensures IsName(LENGTH_NAME) && LowerName(LENGTH_NAME) == "content-length" && NamesLength("content-length")
    ensures IsName(CONNECTION_NAME) && LowerName(CONNECTION_NAME) == "connection" && !NamesLength("connection")
    ensures NameState("content-length").ContentLength? && NameState("connection").Connection?
  {
    KnownNames("content-length");
    KnownNames("connection");
    hide NameState;
  }

  /** The parser behind a Content-Length line, at the start of which it was `p`. */
  function AfterLength(p: Parser, n: nat): Parser {
    p.(state := Head(HeaderValueLws), hstate := ContentLength, index := 0, contentLength := n,
       flags := p.flags.(contentLength := true))
  }

  lemma TextIsLength(n: nat)
    ensures IsLength(Text(n)) <==> n <= MAX_LENGTH
    ensures Text(n) != "" && Decimal(0, Text(n)) == n && Text(n)[0] != ' ' && Text(n)[0] != '\t'
    ensures CR !in Text(n) && LF !in Text(n)
  {
    TextIsDecimal(n);
    hide Text, Decimal;
    assert Text(n)[0] in Text(n);
  }

  /** A Content-Length line: only the first one in a message is read. */
  lemma LengthLineIsRead(c: Core, n: nat)
    requires Going(c) && AtField(c.p) && c.slice.Closed? && n <= MAX_LENGTH
    ensures
      var p := AsField(c.p);
      var line := Print(Header(LENGTH_NAME, Text(n)));
      if p.flags.contentLength then Run(c, line).c.p.errno == UNEXPECTED_CONTENT_LENGTH
      else ReadsHead(c, line, AfterLength(p, n), Closed,
                     Owed(c.p) + [Data(Field, LENGTH_NAME)] + [Data(Value, Text(n))])
  {
    hide Clean, Run, Text, Decimal, LowerName, NameState, NameIndex, NamesLength, Owed, IsName, IsLength, AsField, EndOfLine;
    var p, v := AsField(c.p), Text(n);
    NamesAreKnown();
    TextIsLength(n);
    NameIsRead(c, LENGTH_NAME);
    var line := Print(Header(LENGTH_NAME, v));
    assert line == LENGTH_NAME + ":" + (" " + (v + "\r\n")) by { LinePrints(LENGTH_NAME, v); }
    if p.flags.contentLength {
      RunAppend(c, LENGTH_NAME + ":", " " + (v + "\r\n"));
      RunStopped(Run(c, LENGTH_NAME + ":").c, " " + (v + "\r\n"));
    } else {
      var d := Run(c, LENGTH_NAME + ":").c;
      var told := [Data(Value, v)];
      SpaceIsDiscarded(d);
      var e := Run(d, " ").c;
      LengthIsRead(e, v);
      ReadsHeadBoth(d, " ", d.p, Closed, [], v + "\r\n", AfterLength(p, n), Closed, told);
      ReadsHeadBoth(c, LENGTH_NAME + ":", d.p, Closed, Owed(c.p) + [Data(Field, LENGTH_NAME)],
                    " " + (v + "\r\n"), AfterLength(p, n), Closed, [] + told);
      assert [] + told == told;
    }
  }

  lemma LinePrints(name: string, v: string)
    ensures Print(Header(name, v)) == name + ":" + (" " + (v + "\r\n"))
  {
    assert name + ":" + (" " + (v + "\r\n")) == name + ": " + v + "\r\n";
  }

  /** "Connection: close": the flag is set as the next line begins. */
  lemma CloseIsRead(c: Core)
    requires Going(c) && AtField(c.p) && c.slice.Closed?
    ensures
      var line := Print(Header(CONNECTION_NAME, "close"));
      var q := Run(c, line).c.p;
      && ReadsHead(c, line, q, Closed, Owed(c.p) + [Data(Field, CONNECTION_NAME)] + [Data(Value, "close")])
      && q == c.p.(state := Head(HeaderValueLws), hstate := q.hstate, index := q.index, flags := q.flags)
      && AsField(q).flags == AsField(c.p).flags.(connClose := true)
  {
    hide Clean, Run, LowerName, NameState, NameIndex, NamesLength, Owed, IsName, AsField, EndOfLine, Seen, PrintList, IsItem;
    NamesAreKnown();
    var items := [Item(0, "close", 0)];
    CloseIsAList(AsField(c.p).flags);
    NameIsRead(c, CONNECTION_NAME);
    AsFieldKeeps(c.p);
    AsFieldIs(c.p);
    var d := Run(c, CONNECTION_NAME + ":").c;
    ConnectionIsRead(d, items);
    var rest := " " + "close" + "\r\n";
    ReadsHeadBoth(c, CONNECTION_NAME + ":", d.p, Closed, Owed(c.p) + [Data(Field, CONNECTION_NAME)],
                  rest, Run(d, rest).c.p, Closed, [Data(Value, "close")]);
    LinePrints(CONNECTION_NAME, "close");
    assert " " + ("close" + "\r\n") == rest;
  }

  lemma AsFieldIs(p: Parser)
    ensures AsField(p) == p.(flags := AsField(p).flags)
  {
  }

  lemma CloseIsAList(f: Flags)
    ensures
      var items := [Item(0, "close", 0)];
      && PrintList(items) == "close" && Seen(f, false, items) == f.(connClose := true)
      && forall x <- items :: IsItem(x)
  {
    var x := Item(0, "close", 0);
    assert PrintItem(x) == "close";
    assert forall i | 0 <= i < 5 :: Spells("close"[i], "close"[i]);
    assert !IsSpelling("close", "keep-alive") && !IsSpelling("close", "upgrade");
    EndStateNames(x);
    assert [x][1..] == [];
    hide TokenState, LowerText, IsSpelling;
  }

  // ---- The end of a printed message ----

  /** The callbacks for a body. */
  function BodyReports(body: string): seq<Event> {
    if body == "" then [] else [Data(Body, body)]
  }

  /** The callbacks for the last line of a header, and for all that is behind it. */
  function TailTold(p: Parser, body: string): seq<Event> {
    [Data(Field, LENGTH_NAME), Data(Value, Text(|body|)), HeadersComplete(p.major, p.minor)]
    + BodyReports(body) + [MessageComplete]
  }

  /** The parser behind a message with a length that was `p` before its Content-Length line. */
  function AfterMessage(p: Parser): Parser {
    var q := AfterLength(p, 0).(upgrade := false);
    q.(state := NewMessage(q))
  }

  /** The header so far announces nothing but what the Content-Length line will. */
  predicate AwaitsLength(p: Parser) {
    && !p.flags.contentLength && !p.flags.trailing && !p.flags.chunked
    && !(p.flags.upgrade && p.flags.connUpgrade) && p.verb != CONNECT
  }

  lemma LengthIsPlain(p: Parser, n: nat)
    requires AwaitsLength(p) && n <= MAX_LENGTH
    ensures
      var q := AfterLength(p, n);
      && AtField(q) && AsField(q) == q && Owed(q) == [] && HasLength(q) && !AsksUpgrade(q)
      && HeadReports(q) == [HeadersComplete(p.major, p.minor)] + (if n == 0 then [MessageComplete] else [])
      && AfterHead(q) == if n == 0 then AfterMessage(p) else q.(upgrade := false, state := Content(BodyIdentity))
  {
  }

  lemma MessageStateKeeps(p: Parser, n: nat)
    ensures
      var q := AfterLength(p, n).(upgrade := false, state := Content(BodyIdentity), contentLength := 0);
      q.(state := NewMessage(q)) == AfterMessage(p)
  {
  }

  /** The Content-Length line and the empty line. */
  lemma HeadTailIsRead(c: Core, n: nat)
    requires Going(c) && AtField(c.p) && c.slice.Closed? && n <= MAX_LENGTH && AwaitsLength(AsField(c.p))
    ensures
      var p := AsField(c.p);
      var q := AfterLength(p, n);
      var data := Print(Header(LENGTH_NAME, Text(n))) + "\r\n";
      ReadsPart(c, data, |data|, AfterHead(q), Closed,
                Owed(c.p) + [Data(Field, LENGTH_NAME)] + [Data(Value, Text(n))] + HeadReports(q))
  {
    hide Run, Text, Print, AsField, Owed, HeadReports, AfterHead, HasLength, AsksUpgrade, AtField;
    var p, v := AsField(c.p), Text(n);
    var q := AfterLength(p, n);
    var line := Print(Header(LENGTH_NAME, v));
    LengthIsPlain(p, n);
    LengthLineIsRead(c, n);
    var d := Run(c, line).c;
    HeadEndIsRead(d);
    var told := Owed(c.p) + [Data(Field, LENGTH_NAME)] + [Data(Value, v)];
    ReadsBoth(c, line, q, Closed, told, "\r\n", AfterHead(q), Closed, [] + HeadReports(q));
    assert [] + HeadReports(q) == HeadReports(q);
  }

  lemma TailToldIs(p: Parser, body: string, n: nat, head: seq<Event>, rest: seq<Event>)
    requires n == |body|
    requires head == [HeadersComplete(p.major, p.minor)] + (if n == 0 then [MessageComplete] else [])
    requires rest == if n == 0 then [] else [Data(Body, body)] + [MessageComplete]
    ensures [Data(Field, LENGTH_NAME)] + [Data(Value, Text(n))] + head + rest == TailTold(p, body)
  {
    hide Text;
  }

  lemma BodyIsBodily(c: Core)
    requires CoreInv(c) && Going(c) && c.p.state == Content(BodyIdentity)
    ensures Bodily(c)
  {
  }

  /** The last line of a header, the empty line and the body: all of the message is told. */
  lemma LengthTailIsRead(c: Core, body: string)
    requires CoreInv(c) && Going(c) && AtField(c.p) && c.slice.Closed? && |body| <= MAX_LENGTH
    requires AwaitsLength(AsField(c.p))
    ensures
      var p := AsField(c.p);
      var data := LengthAndBody(body);
      ReadsPart(c, data, |data| - |body|, AfterMessage(p), Closed, Owed(c.p) + TailTold(p, body))
  {
    hide Clean, Run, CoreInv, Text, Print, AsField, Owed, HeadReports, AfterHead, HasLength, AsksUpgrade, AtField, AwaitsLength, TailTold;
    var p, n := AsField(c.p), |body|;
    var q := AfterLength(p, n);
    var told := Owed(c.p) + [Data(Field, LENGTH_NAME)] + [Data(Value, Text(n))];
    var head := Print(Header(LENGTH_NAME, Text(n))) + "\r\n";
    LengthIsPlain(p, n);
    HeadTailIsRead(c, n);
    assert LengthAndBody(body) == head + body;
    if n == 0 {
      assert head + body == head;
      TailToldIs(p, body, n, HeadReports(q), []);
      assert told + HeadReports(q) == Owed(c.p) + ([Data(Field, LENGTH_NAME)] + [Data(Value, Text(n))] + HeadReports(q) + []);
    } else {
      RunInv(c, head);
      var d := Run(c, head).c;
      BodyIsBodily(d);
      BodyIsRead(d, body);
      MessageStateKeeps(p, n);
      var rest := [Data(Body, body)] + [MessageComplete];
      ReadsBoth(c, head, d.p, Closed, told + HeadReports(q), body, AfterMessage(p), Closed, rest);
      TailToldIs(p, body, n, HeadReports(q), rest);
      assert told + HeadReports(q) + rest
          == Owed(c.p) + ([Data(Field, LENGTH_NAME)] + [Data(Value, Text(n))] + HeadReports(q) + rest);
    }
  }
}
