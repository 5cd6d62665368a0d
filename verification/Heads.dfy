/** Header lines of every kind: what each sets, and how a header ends. */
module Heads {
  import opened Chars
  import opened Alphabets
  import opened ParserTypes
  import opened Transitions
  import opened Machine
  import opened Invariant
  import opened Runs
  import opened FieldNames
  import opened Lengths
  import opened Headers
  import opened Connections
  import opened Codings
  import opened Chunks
  import opened Ends
  import opened RoundTrips

  // ---- The value of an Upgrade line ----

  lemma UpgradeStarts(p: Parser, skipping: bool, ch: char)
    requires p.state == Head(HeaderValueDiscardWs) && p.hstate.Upgrade?
    requires ch != ' ' && ch != '\t' && ch != CR && ch != LF
    ensures Transition(p, skipping, ch)
      == ToMarking(p.(hstate := General, index := 0, flags := p.flags.(upgrade := true)), Head(HeaderValue), Value)
  {
    hide OnFieldStart, OnHeadersDone, OnHeadersAlmostDone, OnField, OnValue, Lower, IsToken;
  }

  /** Behind the name "upgrade" any value but the empty one sets the flag, and no other. */
  lemma UpgradeIsRead(c: Core, v: string)
    requires Going(c) && c.slice.Closed? && c.p.state == Head(HeaderValueDiscardWs) && c.p.hstate.Upgrade?
    requires IsValue(v)
    ensures
      var text := " " + v + "\r\n";
      var q := Run(c, text).c.p;
      && ReadsHead(c, text, q, Closed, Told(v))
      && q == c.p.(state := if v == "" then Head(HeaderValueDiscardLws) else Head(HeaderValueLws),
                   hstate := q.hstate, index := q.index, flags := q.flags)
      && AsField(q).flags == c.p.flags.(upgrade := c.p.flags.upgrade || v != "")
  {
    hide Clean, Transition, Step, IsHeaderChar, Run;
    SpaceIsDiscarded(c);
    var d := Run(c, " ").c;
    if v == "" {
      EmptyIsRead(d);
      assert " " + v + "\r\n" == " " + "\r\n";
      ReadsHeadBoth(c, " ", c.p, Closed, [], "\r\n", c.p.(state := Head(HeaderValueDiscardLws)), Closed, []);
    } else {
      var ch, rest := v[0], v[1..];
      assert ch in v && (forall x <- rest :: x in v) && v == [ch] + rest;
      UpgradeStarts(d.p, d.skipping, ch);
      var q := c.p.(state := Head(HeaderValue), hstate := General, index := 0, flags := c.p.flags.(upgrade := true));
      ReadsByte(d, ch, ToMarking(q, Head(HeaderValue), Value));
      var e := Run(d, [ch]).c;
      RestOfValue(e, rest);
      ReadsHeadBoth(d, [ch], q, Open(Value, [ch]), [], rest, q, Open(Value, v), []);
      var f := Run(d, v).c;
      ValueEnds(f, v);
      var r := q.(state := Head(HeaderValueLws));
      ReadsHeadBoth(d, v, q, Open(Value, v), [], "\r\n", r, Closed, [Data(Value, v)]);
      ReadsHeadBoth(c, " ", c.p, Closed, [], v + "\r\n", r, Closed, [Data(Value, v)]);
      assert " " + (v + "\r\n") == " " + v + "\r\n";
    }
  }

  // ---- A line ----

  /** A header line: of an unknown name, of a Connection list, of an upgrade, of a coding, of a length. */
  datatype HeadLine =
    | Other(name: string, value: string)
    | Listed(name: string, items: seq<Item>)
    | Asking(name: string, value: string)
    | Coded(name: string, value: string)
    | Sized(name: string, value: string)

  function ValueOf(l: HeadLine): string {
    if l.Listed? then PrintList(l.items) else l.value
  }

  function PrintLine(l: HeadLine): string {
    l.name + ": " + ValueOf(l) + "\r\n"
  }

  /** The names stand in any letter case. */
  predicate IsHeadLine(l: HeadLine) {
    match l
    case Other(name, value) => IsPlainName(name) && IsValue(value)
    case Listed(name, items) =>
      && (IsSpelling(name, "connection") || IsSpelling(name, "proxy-connection"))
      && items != [] && (forall x <- items :: IsItem(x)) && items[0].before == 0
    case Asking(name, value) => IsSpelling(name, "upgrade") && IsValue(value)
    case Coded(name, value) => IsSpelling(name, "transfer-encoding") && IsValue(value)
    case Sized(name, value) => IsSpelling(name, "content-length") && IsLength(value)
  }

  /** A Connection line whose list names `w`, where it is seen. */
  predicate SaysHere(l: HeadLine, w: string) {
    l.Listed? && Names(Visible(l.items), w)
  }

  /** The flags behind a line. */
  function Marked(f: Flags, l: HeadLine): Flags {
    Flags(
      f.chunked || (l.Coded? && IsChunked(l.value)),
      f.connKeepAlive || SaysHere(l, "keep-alive"),
      f.connClose || SaysHere(l, "close"),
      f.connUpgrade || SaysHere(l, "upgrade"),
      f.trailing,
      f.upgrade || (l.Asking? && l.value != ""),
      f.contentLength || l.Sized?)
  }

  function LengthAfter(n: nat, l: HeadLine): nat
    requires IsHeadLine(l)
  {
    if l.Sized? then Decimal(0, l.value) else n
  }

  /** What is read of a line, and what it leaves. */
  ghost predicate ReadsLine(c: Core, l: HeadLine)
    requires IsHeadLine(l)
  {
    var v, q := ValueOf(l), Run(c, PrintLine(l)).c.p;
    && ReadsHead(c, PrintLine(l), q, Closed, Owed(c.p) + [Data(Field, l.name)] + Told(v))
    && AtField(q) && Owed(q) == (if v == "" then [Data(Value, "")] else [])
    && q == c.p.(state := q.state, hstate := q.hstate, index := q.index, flags := q.flags,
                 contentLength := LengthAfter(c.p.contentLength, l))
    && AsField(q).flags == Marked(AsField(c.p).flags, l)
  }

  /** A known name: behind its colon the value is read by `q`. */
  lemma KnownLine(c: Core, l: HeadLine)
    requires Going(c) && AtField(c.p) && c.slice.Closed? && IsHeadLine(l) && !l.Other?
    requires l.Sized? ==> !AsField(c.p).flags.contentLength
    ensures
      var p, d := AsField(c.p), Run(c, l.name + ":").c;
      && ReadsHead(c, l.name + ":", d.p, Closed, Owed(c.p) + [Data(Field, l.name)])
      && d.p == p.(state := Head(HeaderValueDiscardWs), hstate := d.p.hstate, index := d.p.index,
                   flags := p.flags.(contentLength := p.flags.contentLength || l.Sized?))
      && (l.Listed? ==> d.p.hstate.Connection?) && (l.Asking? ==> d.p.hstate.Upgrade?)
      && (l.Coded? ==> d.p.hstate.TransferEncoding?) && (l.Sized? ==> d.p.hstate.ContentLength?)
  {
    hide Run, IsSpelling, IsLowerName, LowerName, NameState, NameIndex, NamesLength, IsValue, IsItem, IsLength,
         IsName, AsField, Owed, Clean;
    var name := match l
      case Listed(n, _) => if IsSpelling(n, "connection") then CONNECTION_SPELLED else PROXY_SPELLED
      case Asking(_, _) => UPGRADE_SPELLED
      case Coded(_, _) => CODING_SPELLED
      case _ => LENGTH_SPELLED;
    NamesAreLower();
    SpellingIsName(l.name, name);
    LowerNameSpells(l.name, name);
    NameIsRead(c, l.name);
    OnlyLengthBegins(name);
    SpellingIsRecognised(c, l.name, name);
  }

  lemma LineIsPrinted(l: HeadLine)
    ensures PrintLine(l) == l.name + ":" + (" " + ValueOf(l) + "\r\n")
  {
    var v := ValueOf(l);
    hide ValueOf;
    assert l.name + ": " + v + "\r\n" == l.name + ":" + (" " + v + "\r\n");
  }

  /** A name and a value, read one behind the other. */
  lemma NameThenValue(c: Core, l: HeadLine, p: Parser, q: Parser, told: seq<Event>)
    requires ReadsHead(c, l.name + ":", p, Closed, told)
    requires ReadsHead(Run(c, l.name + ":").c, " " + ValueOf(l) + "\r\n", q, Closed, Told(ValueOf(l)))
    ensures ReadsHead(c, PrintLine(l), q, Closed, told + Told(ValueOf(l)))
    ensures Run(c, PrintLine(l)).c.p == q
  {
    hide Run, Told, PrintLine, ValueOf;
    LineIsPrinted(l);
    ReadsHeadBoth(c, l.name + ":", p, Closed, told, " " + ValueOf(l) + "\r\n", q, Closed, Told(ValueOf(l)));
  }

  lemma FieldOf(q: Parser, v: string)
    requires q.state == if v == "" then Head(HeaderValueDiscardLws) else Head(HeaderValueLws)
    ensures AtField(q) && Owed(q) == if v == "" then [Data(Value, "")] else []
  {
  }

  /** Then it is the line that is read. */
  lemma LineFrom(c: Core, l: HeadLine, p: Parser, q: Parser)
    requires IsHeadLine(l)
    requires ReadsHead(c, l.name + ":", p, Closed, Owed(c.p) + [Data(Field, l.name)])
    requires ReadsHead(Run(c, l.name + ":").c, " " + ValueOf(l) + "\r\n", q, Closed, Told(ValueOf(l)))
    requires q.state == if ValueOf(l) == "" then Head(HeaderValueDiscardLws) else Head(HeaderValueLws)
    requires q == c.p.(state := q.state, hstate := q.hstate, index := q.index, flags := q.flags,
                       contentLength := LengthAfter(c.p.contentLength, l))
    requires AsField(q).flags == Marked(AsField(c.p).flags, l)
    ensures ReadsLine(c, l)
  {
    hide Run, AsField, Owed, AtField, Clean, Told, ValueOf, PrintLine, IsHeadLine, LengthAfter, Marked;
    NameThenValue(c, l, p, q, Owed(c.p) + [Data(Field, l.name)]);
    FieldOf(q, ValueOf(l));
  }

  lemma OtherIsRead(c: Core, l: HeadLine)
    requires Going(c) && AtField(c.p) && c.slice.Closed? && IsHeadLine(l) && l.Other?
    ensures ReadsLine(c, l)
  {
    hide Run, IsPlainName, IsValue, AsField, Owed, AtField, Clean, NameState, NameIndex, NamesLength, LowerName;
    var h := Header(l.name, l.value);
    HeaderIsRead(c, h);
    HeaderKeeps(c.p, h);
    var q := AfterHeader(c.p, h);
    FieldOf(q, l.value);
    assert PrintLine(l) == Print(h);
  }

  lemma ListedIsRead(c: Core, l: HeadLine)
    requires Going(c) && AtField(c.p) && c.slice.Closed? && IsHeadLine(l) && l.Listed?
    ensures ReadsLine(c, l)
  {
    hide ReadsLine, Run, IsSpelling, IsItem, AsField, Owed, AtField, Clean, Seen, Visible, Names, PrintList;
    KnownLine(c, l);
    AsFieldIs(c.p);
    var d := Run(c, l.name + ":").c;
    ConnectionIsRead(d, l.items);
    VisibleAreSeen(d.p.flags, l.items);
    ListIsNotEmpty(l.items);
    var q := Run(d, " " + PrintList(l.items) + "\r\n").c.p;
    LineFrom(c, l, d.p, q);
  }

  lemma ListIsNotEmpty(items: seq<Item>)
    requires items != [] && forall x <- items :: IsItem(x)
    ensures PrintList(items) != ""
  {
    assert items[0] in items;
    hide IsTokenChar;
    assert PrintItem(items[0]) != "";
  }

  lemma AskingIsRead(c: Core, l: HeadLine)
    requires Going(c) && AtField(c.p) && c.slice.Closed? && IsHeadLine(l) && l.Asking?
    ensures ReadsLine(c, l)
  {
    hide ReadsLine, Run, IsSpelling, IsValue, AsField, Owed, AtField, Clean, PrintList, Told, Visible, Names, IsItem,
         IsChunked;
    KnownLine(c, l);
    AsFieldIs(c.p);
    var d := Run(c, l.name + ":").c;
    UpgradeIsRead(d, l.value);
    var q := Run(d, " " + l.value + "\r\n").c.p;
    LineFrom(c, l, d.p, q);
  }

  /** A Transfer-Encoding without a value says nothing. */
  lemma NoCodingIsRead(c: Core)
    requires Going(c) && c.slice.Closed? && c.p.state == Head(HeaderValueDiscardWs) && c.p.hstate.TransferEncoding?
    ensures
      var q := c.p.(state := Head(HeaderValueDiscardLws));
      ReadsHead(c, " " + "" + "\r\n", q, Closed, []) && AsField(q).flags == c.p.flags
  {
    hide Clean, Transition, Run;
    SpaceIsDiscarded(c);
    EmptyIsRead(Run(c, " ").c);
    assert " " + "" + "\r\n" == " " + "\r\n";
    ReadsHeadBoth(c, " ", c.p, Closed, [], "\r\n", c.p.(state := Head(HeaderValueDiscardLws)), Closed, []);
  }

  lemma CodedValueIsRead(c: Core, v: string)
    requires Going(c) && c.slice.Closed? && c.p.state == Head(HeaderValueDiscardWs) && c.p.hstate.TransferEncoding?
    requires IsValue(v)
    ensures
      var text := " " + v + "\r\n";
      var q := Run(c, text).c.p;
      && ReadsHead(c, text, q, Closed, Told(v))
      && q == c.p.(state := if v == "" then Head(HeaderValueDiscardLws) else Head(HeaderValueLws),
                   hstate := q.hstate, index := q.index)
      && AsField(q).flags == c.p.flags.(chunked := c.p.flags.chunked || IsChunked(v))
  {
    hide ReadsLine, Run, AsField, Clean, IsHeaderChar;
    if v == "" {
      NoCodingIsRead(c);
      NotChunked();
    } else {
      CodingIsRead(c, v);
    }
  }

  lemma NotChunked()
    ensures !IsChunked("")
  {
  }

  lemma CodedIsRead(c: Core, l: HeadLine)
    requires Going(c) && AtField(c.p) && c.slice.Closed? && IsHeadLine(l) && l.Coded?
    ensures ReadsLine(c, l)
  {
    hide ReadsLine, Run, IsSpelling, IsValue, AsField, Owed, AtField, Clean, IsChunked, PrintList, Told, Visible,
         Names, IsItem;
    KnownLine(c, l);
    AsFieldIs(c.p);
    var d := Run(c, l.name + ":").c;
    CodedValueIsRead(d, l.value);
    var q := Run(d, " " + l.value + "\r\n").c.p;
    LineFrom(c, l, d.p, q);
  }

  lemma LengthIsOneLine(v: string)
    requires IsLength(v)
    ensures v != "" && v[0] != ' ' && v[0] != '\t' && CR !in v && LF !in v && IsLengthText(v)
  {
  }

  lemma SizedIsRead(c: Core, l: HeadLine)
    requires Going(c) && AtField(c.p) && c.slice.Closed? && IsHeadLine(l) && l.Sized?
    requires !AsField(c.p).flags.contentLength
    ensures ReadsLine(c, l)
  {
    hide ReadsLine, Run, IsSpelling, IsLength, AsField, Owed, AtField, Clean, Decimal;
    var v := l.value;
    KnownLine(c, l);
    AsFieldIs(c.p);
    LengthIsOneLine(v);
    var d := Run(c, l.name + ":").c;
    SpaceIsDiscarded(d);
    LengthIsRead(Run(d, " ").c, v);
    var q := d.p.(state := Head(HeaderValueLws), index := 0, contentLength := Decimal(0, v));
    ReadsHeadBoth(d, " ", d.p, Closed, [], v + "\r\n", q, Closed, [Data(Value, v)]);
    assert " " + (v + "\r\n") == " " + v + "\r\n";
    assert [] + [Data(Value, v)] == [Data(Value, v)];
    LengthEndsNothing(q);
    LineFrom(c, l, d.p, q);
  }

  lemma LengthEndsNothing(q: Parser)
    requires q.state == Head(HeaderValueLws) && q.hstate.ContentLength?
    ensures AsField(q).flags == q.flags
  {
  }

  /** A line of any kind: it is told, and sets the flags that it names and no other. */
  lemma LineIsRead(c: Core, l: HeadLine)
    requires Going(c) && AtField(c.p) && c.slice.Closed? && IsHeadLine(l)
    requires l.Sized? ==> !AsField(c.p).flags.contentLength
    ensures ReadsLine(c, l)
  {
    hide ReadsLine, IsHeadLine, AsField, AtField;
    match l
    case Other(_, _) => OtherIsRead(c, l);
    case Listed(_, _) => ListedIsRead(c, l);
    case Asking(_, _) => AskingIsRead(c, l);
    case Coded(_, _) => CodedIsRead(c, l);
    case Sized(_, _) => SizedIsRead(c, l);
  }

  // ---- All lines of a header ----

  function PrintLines(lines: seq<HeadLine>): string {
    if lines == [] then "" else PrintLine(lines[0]) + PrintLines(lines[1..])
  }

  /** A name and a value are told for each line. */
  function LineReports(lines: seq<HeadLine>): seq<Event> {
    if lines == [] then []
    else [Data(Field, lines[0].name), Data(Value, ValueOf(lines[0]))] + LineReports(lines[1..])
  }

  /** Lines with at most one length; `named` says that there has been one before. */
  predicate AreLines(named: bool, lines: seq<HeadLine>)
    decreases |lines|
  {
    lines == []
    || (IsHeadLine(lines[0]) && !(lines[0].Sized? && named) && AreLines(named || lines[0].Sized?, lines[1..]))
  }

  /** Some Connection line names `w`, where it is seen. */
  predicate Says(lines: seq<HeadLine>, w: string) {
    exists l <- lines :: SaysHere(l, w)
  }

  /** Some line asks for another protocol. */
  predicate Asks(lines: seq<HeadLine>) {
    exists l <- lines :: l.Asking? && l.value != ""
  }

  /** Some line announces a chunked body. */
  predicate IsCoded(lines: seq<HeadLine>) {
    exists l <- lines :: l.Coded? && IsChunked(l.value)
  }

  predicate HasSize(lines: seq<HeadLine>) {
    exists l <- lines :: l.Sized?
  }

  /** The flags behind all lines. */
  function MarkedAll(f: Flags, lines: seq<HeadLine>): Flags {
    Flags(
      f.chunked || IsCoded(lines),
      f.connKeepAlive || Says(lines, "keep-alive"),
      f.connClose || Says(lines, "close"),
      f.connUpgrade || Says(lines, "upgrade"),
      f.trailing,
      f.upgrade || Asks(lines),
      f.contentLength || HasSize(lines))
  }

  lemma MarkedNone(f: Flags)
    ensures MarkedAll(f, []) == f
  {
  }

  lemma MarkedMore(f: Flags, l: HeadLine, rest: seq<HeadLine>)
    ensures MarkedAll(Marked(f, l), rest) == MarkedAll(f, [l] + rest)
  {
    hide SaysHere, IsChunked;
    assert l in [l] + rest && (forall x <- rest :: x in [l] + rest) && forall x <- [l] + rest :: x == l || x in rest;
  }

  /** The length behind all lines. */
  function SizeAfter(n: nat, named: bool, lines: seq<HeadLine>): nat
    requires AreLines(named, lines)
    decreases |lines|
  {
    if lines == [] then n
    else SizeAfter(LengthAfter(n, lines[0]), named || lines[0].Sized?, lines[1..])
  }

  /** It is that of the one Content-Length line, if there is one. */
  lemma {:induction false} SizeIsTold(n: nat, named: bool, lines: seq<HeadLine>)
    requires AreLines(named, lines)
    ensures forall l <- lines | l.Sized? :: IsLength(l.value) && SizeAfter(n, named, lines) == Decimal(0, l.value)
    ensures !HasSize(lines) ==> SizeAfter(n, named, lines) == n
    ensures named ==> !HasSize(lines)
    decreases |lines|
  {
    hide IsLength, Decimal, IsSpelling, IsPlainName;
    if lines != [] {
      var l, rest := lines[0], lines[1..];
      SizeIsTold(LengthAfter(n, l), named || l.Sized?, rest);
      assert lines == [l] + rest && forall x <- lines :: x == l || x in rest;
      assert l in lines && forall x <- rest :: x in lines;
    }
  }

  lemma {:induction false} LinesAreRead(c: Core, lines: seq<HeadLine>) returns (told: seq<Event>)
    requires Going(c) && AtField(c.p) && c.slice.Closed? && AreLines(AsField(c.p).flags.contentLength, lines)
    ensures
      var p, q := AsField(c.p), Run(c, PrintLines(lines)).c.p;
      && ReadsHead(c, PrintLines(lines), q, Closed, told)
      && told + Owed(q) == Owed(c.p) + LineReports(lines)
      && AtField(q)
      && q == c.p.(state := q.state, hstate := q.hstate, index := q.index, flags := q.flags,
                   contentLength := SizeAfter(c.p.contentLength, p.flags.contentLength, lines))
      && AsField(q).flags == MarkedAll(p.flags, lines)
    decreases |lines|
  {
    hide Run, AsField, Owed, AtField, MarkedAll, IsHeadLine, PrintLine, Clean, ValueOf;
    if lines == [] {
      told := [];
      ReadsNothing(c);
      RunNothing(c);
      MarkedNone(AsField(c.p).flags);
      assert Owed(c.p) + LineReports(lines) == Owed(c.p) && told + Owed(c.p) == Owed(c.p);
    } else {
      var l, rest := lines[0], lines[1..];
      LineIsRead(c, l);
      var d := Run(c, PrintLine(l)).c;
      var first := Owed(c.p) + [Data(Field, l.name)] + Told(ValueOf(l));
      var more := LinesAreRead(d, rest);
      told := first + more;
      var q := Run(d, PrintLines(rest)).c.p;
      ReadsHeadBoth(c, PrintLine(l), d.p, Closed, first, PrintLines(rest), q, Closed, more);
      MarkedMore(AsField(c.p).flags, l, rest);
      assert [l] + rest == lines;
      TellsOne(Owed(c.p), l, Owed(d.p), more, Owed(q), LineReports(rest));
    }
  }

  lemma TellsOne(owed: seq<Event>, l: HeadLine, next: seq<Event>, more: seq<Event>, last: seq<Event>, rest: seq<Event>)
    requires next == (if ValueOf(l) == "" then [Data(Value, "")] else []) && more + last == next + rest
    ensures
      owed + [Data(Field, l.name)] + Told(ValueOf(l)) + more + last
        == owed + ([Data(Field, l.name), Data(Value, ValueOf(l))] + rest)
  {
    hide ValueOf;
    var told := Told(ValueOf(l));
    assert told + next == [Data(Value, ValueOf(l))];
    var begin := owed + [Data(Field, l.name)];
    assert begin + told + more + last == begin + told + (more + last);
    assert begin + told + (next + rest) == begin + (told + next) + rest;
    assert begin + [Data(Value, ValueOf(l))] + rest == owed + ([Data(Field, l.name), Data(Value, ValueOf(l))] + rest);
  }
}
