/** Header lines whose names the parser does not know: what is printed is what is reported. */
module Headers {
  import opened Chars
  import opened Alphabets
  import opened ParserTypes
  import opened Transitions
  import opened Machine
  import opened Runs
  import opened FieldNames
  import opened Lengths

  datatype Header = Header(name: string, value: string)

  /** A value that can stand behind its colon and a space, and is found there again. */
  predicate IsValue(v: string) {
    && (forall ch <- v :: IsHeaderChar(ch) && ch != CR && ch != LF)
    && (v != "" ==> v[0] != ' ' && v[0] != '\t')
  }

  /** A name that is not one of the five in any letter case, and does not begin with "content-length". */
  predicate IsPlainName(w: string) {
    && IsName(w)
    && !IsSpelling(w, CONNECTION_SPELLED) && !IsSpelling(w, PROXY_SPELLED)
    && !IsSpelling(w, CODING_SPELLED) && !IsSpelling(w, UPGRADE_SPELLED)
    && !(|w| >= 14 && IsSpelling(w[..14], LENGTH_SPELLED))
  }

  lemma PlainNameIsLower(w: string)
    requires IsName(w)
    ensures
      var v := LowerName(w);
      IsPlainName(w) <==>
        && v != "connection" && v != "proxy-connection" && v != "transfer-encoding" && v != "upgrade"
        && !("content-length" <= v)
  {
    hide LowerName, IsSpelling, IsLowerName, IsName;
    NamesAreLower();
    LowerNameSpells(w, CONNECTION_SPELLED);
    LowerNameSpells(w, PROXY_SPELLED);
    LowerNameSpells(w, CODING_SPELLED);
    LowerNameSpells(w, UPGRADE_SPELLED);
    LowerNameBegins(w, LENGTH_SPELLED);
  }

  predicate IsPlain(h: Header) {
    IsPlainName(h.name) && IsValue(h.value)
  }

  /** The header states of which a value takes no notice. */
  predicate Unknown(h: HeaderState) {
    !h.Upgrade? && !h.TransferEncoding? && !h.ContentLength? && !h.Connection? && !h.MatchingTokenStart?
  }

  function AfterValue(p: Parser, v: string): Parser {
    if v == "" then p.(state := Head(HeaderValueDiscardLws))
    else p.(state := Head(HeaderValueLws), hstate := General, index := 0)
  }

  /** A value is reported at the end of its line, unless it is empty. */
  function Told(v: string): seq<Event> {
    if v == "" then [] else [Data(Value, v)]
  }

  lemma {:induction false} RestOfValue(c: Core, v: string)
    requires Going(c) && c.p.state == Head(HeaderValue) && c.p.hstate.General? && c.slice.Open?
    requires forall ch <- v :: IsHeaderChar(ch) && ch != CR && ch != LF
    ensures ReadsHead(c, v, c.p, Open(c.slice.kind, c.slice.bytes + v), [])
    decreases |v|
  {
    hide Transition, OnValue, IsHeaderChar;
    if v == "" {
      assert c.slice.bytes + v == c.slice.bytes;
      ReadsNothing(c);
    } else {
      var ch, rest := v[0], v[1..];
      assert ch in v && (forall x <- rest :: x in v) && v == [ch] + rest;
      assert c.slice.bytes + v == c.slice.bytes + [ch] + rest;
      OnValueIs(c.p, c.skipping, ch);
      GeneralByte(c.p, c.skipping, ch);
      ReadsByte(c, ch, OnValue(c.p, c.skipping, ch));
      RestOfValue(Step(c, ch).c, rest);
      ReadsHeadBoth(c, [ch], c.p, Open(c.slice.kind, c.slice.bytes + [ch]), [],
                    rest, c.p, Open(c.slice.kind, c.slice.bytes + v), []);
    }
  }

  lemma GeneralByte(p: Parser, skipping: bool, ch: char)
    requires p.hstate.General? && IsHeaderChar(ch) && ch != CR && ch != LF
    ensures OnValue(p, skipping, ch) == Stay(p).(skipping := true)
  {
  }

  lemma SpaceIsDiscarded(c: Core)
    requires Going(c) && c.p.state == Head(HeaderValueDiscardWs) && c.slice.Closed?
    ensures ReadsHead(c, " ", c.p, Closed, [])
  {
    hide OnFieldStart, OnHeadersDone, OnHeadersAlmostDone, OnField, OnValueStart, OnValue;
    assert " " == [' '];
    ReadsByte(c, ' ', Stay(c.p));
  }

  lemma EmptyIsRead(c: Core)
    requires Going(c) && c.p.state == Head(HeaderValueDiscardWs) && c.slice.Closed?
    ensures ReadsHead(c, "\r\n", c.p.(state := Head(HeaderValueDiscardLws)), Closed, [])
  {
    hide OnFieldStart, OnHeadersDone, OnHeadersAlmostDone, OnField, OnValueStart, OnValue;
    assert "\r\n" == [CR] + [LF];
    var q := c.p.(state := Head(HeaderValueDiscardWsAlmostDone));
    ReadsByte(c, CR, To(c.p, Head(HeaderValueDiscardWsAlmostDone)));
    ReadsByte(Step(c, CR).c, LF, To(q, Head(HeaderValueDiscardLws)));
    ReadsHeadBoth(c, [CR], q, Closed, [], [LF], c.p.(state := Head(HeaderValueDiscardLws)), Closed, []);
  }

  lemma UnknownStarts(p: Parser, skipping: bool, ch: char)
    requires p.state == Head(HeaderValueDiscardWs) && Unknown(p.hstate)
    requires ch != ' ' && ch != '\t' && ch != CR && ch != LF
    ensures Transition(p, skipping, ch) == ToMarking(p.(hstate := General, index := 0), Head(HeaderValue), Value)
  {
    hide OnFieldStart, OnHeadersDone, OnHeadersAlmostDone, OnField, OnValue;
  }

  /** The value of an unknown name, from behind the colon to the end of the line. */
  lemma ValueIsRead(c: Core, v: string)
    requires Going(c) && c.p.state == Head(HeaderValueDiscardWs) && Unknown(c.p.hstate) && c.slice.Closed?
    requires IsValue(v)
    ensures ReadsHead(c, " " + v + "\r\n", AfterValue(c.p, v), Closed, Told(v))
  {
    hide Clean, Transition, Step, IsHeaderChar, Run;
    SpaceIsDiscarded(c);
    var d := Run(c, " ").c;
    if v == "" {
      EmptyIsRead(d);
      assert " " + v + "\r\n" == " " + "\r\n";
      ReadsHeadBoth(c, " ", c.p, Closed, [], "\r\n", AfterValue(c.p, v), Closed, []);
    } else {
      var ch, rest := v[0], v[1..];
      assert ch in v && (forall x <- rest :: x in v) && v == [ch] + rest;
      UnknownStarts(d.p, d.skipping, ch);
      var q := c.p.(state := Head(HeaderValue), hstate := General, index := 0);
      ReadsByte(d, ch, ToMarking(q, Head(HeaderValue), Value));
      var e := Run(d, [ch]).c;
      RestOfValue(e, rest);
      ReadsHeadBoth(d, [ch], q, Open(Value, [ch]), [], rest, q, Open(Value, v), []);
      var f := Run(d, v).c;
      ValueEnds(f, v);
      ReadsHeadBoth(d, v, q, Open(Value, v), [], "\r\n", AfterValue(c.p, v), Closed, [Data(Value, v)]);
      ReadsHeadBoth(c, " ", c.p, Closed, [], v + "\r\n", AfterValue(c.p, v), Closed, [Data(Value, v)]);
      assert " " + (v + "\r\n") == " " + v + "\r\n";
    }
  }

  // ---- Lines ----

  function Print(h: Header): string {
    h.name + ": " + h.value + "\r\n"
  }

  function AfterHeader(p: Parser, h: Header): Parser {
    AfterValue(AfterName(AsField(p), h.name), h.value)
  }

  lemma PlainNameIsUnknown(p: Parser, w: string)
    requires IsPlainName(w)
    ensures !NamesLength(LowerName(w)) && Unknown(AfterName(p, w).hstate)
  {
    hide LowerName;
    PlainNameIsLower(w);
    KnownNames(LowerName(w));
    NamesStates(LowerName(w));
    hide NameState, NameIndex, IsPlainName;
  }

  lemma NamesStates(v: string)
    ensures !NameState(v).MatchingTokenStart?
  {
  }

  lemma HeaderIsRead(c: Core, h: Header)
    requires Going(c) && AtField(c.p) && c.slice.Closed? && IsPlain(h)
    ensures ReadsHead(c, Print(h), AfterHeader(c.p, h), Closed, Owed(c.p) + [Data(Field, h.name)] + Told(h.value))
  {
    hide Clean, Run, NameState, NameIndex, LowerName, NamesLength, Unknown, Owed, Told, IsValue;
    PlainNameIsUnknown(AsField(c.p), h.name);
    NameIsRead(c, h.name);
    var d := Run(c, h.name + ":").c;
    ValueIsRead(d, h.value);
    ReadsHeadBoth(c, h.name + ":", d.p, Closed, Owed(c.p) + [Data(Field, h.name)],
                  " " + h.value + "\r\n", AfterHeader(c.p, h), Closed, Told(h.value));
    assert h.name + ":" + (" " + h.value + "\r\n") == Print(h);
  }

  function PrintAll(headers: seq<Header>): string {
    if headers == [] then "" else Print(headers[0]) + PrintAll(headers[1..])
  }

  function AfterAll(p: Parser, headers: seq<Header>): Parser
    decreases |headers|
  {
    if headers == [] then p else AfterAll(AfterHeader(p, headers[0]), headers[1..])
  }

  /** The callbacks for a list of headers: a name and a value for each. */
  function Reports(headers: seq<Header>): seq<Event> {
    if headers == [] then []
    else [Data(Field, headers[0].name), Data(Value, headers[0].value)] + Reports(headers[1..])
  }

  predicate AllPlain(headers: seq<Header>) {
    forall h <- headers :: IsPlain(h)
  }

  lemma OwedAfter(p: Parser, h: Header)
    ensures Told(h.value) + Owed(AfterHeader(p, h)) == [Data(Value, h.value)]
    ensures AtField(AfterHeader(p, h))
    ensures AfterHeader(p, h) == p.(state := AfterHeader(p, h).state, hstate := AfterHeader(p, h).hstate,
                                    index := AfterHeader(p, h).index, flags := AfterHeader(p, h).flags)
  {
    hide NameState, NameIndex, NamesLength;
  }

  /** The callbacks made while a list of headers is read. */
  function ToldAll(p: Parser, headers: seq<Header>): seq<Event>
    decreases |headers|
  {
    if headers == [] then []
    else
      var h := headers[0];
      Owed(p) + [Data(Field, h.name)] + Told(h.value) + ToldAll(AfterHeader(p, h), headers[1..])
  }

  /** Together with what is owed for an empty value, they report every name and every value. */
  lemma {:induction false} ToldAndOwed(p: Parser, headers: seq<Header>)
    ensures ToldAll(p, headers) + Owed(AfterAll(p, headers)) == Owed(p) + Reports(headers)
    decreases |headers|
  {
    hide Owed, Told, AfterHeader;
    if headers != [] {
      var h, rest := headers[0], headers[1..];
      var q := AfterHeader(p, h);
      OwedAfter(p, h);
      ToldAndOwed(q, rest);
      var first := Owed(p) + [Data(Field, h.name)];
      assert ToldAll(p, headers) + Owed(AfterAll(q, rest))
          == first + Told(h.value) + (ToldAll(q, rest) + Owed(AfterAll(q, rest)));
      assert first + Told(h.value) + (Owed(q) + Reports(rest)) == first + (Told(h.value) + Owed(q)) + Reports(rest);
      assert first + [Data(Value, h.value)] + Reports(rest) == Owed(p) + Reports(headers);
    }
  }

  /** The lines of a list of headers. */
  lemma {:induction false} AllAreRead(c: Core, headers: seq<Header>)
    requires Going(c) && AtField(c.p) && c.slice.Closed? && AllPlain(headers)
    ensures AtField(AfterAll(c.p, headers))
    ensures ReadsHead(c, PrintAll(headers), AfterAll(c.p, headers), Closed, ToldAll(c.p, headers))
    decreases |headers|
  {
    hide Run, IsPlain, Owed, Told, AfterHeader;
    if headers == [] {
      ReadsNothing(c);
    } else {
      var h, rest := headers[0], headers[1..];
      assert h in headers && forall x <- rest :: x in headers;
      HeaderIsRead(c, h);
      OwedAfter(c.p, h);
      var d := Run(c, Print(h)).c;
      AllAreRead(d, rest);
      ReadsHeadBoth(c, Print(h), d.p, Closed, Owed(c.p) + [Data(Field, h.name)] + Told(h.value),
                    PrintAll(rest), AfterAll(d.p, rest), Closed, ToldAll(d.p, rest));
    }
  }

  /** Nothing but the place in the header changes over a list of unknown headers. */
  lemma {:induction false} AllKeep(p: Parser, headers: seq<Header>)
    requires AtField(p) && AllPlain(headers)
    ensures
      var q := AfterAll(p, headers);
      && AtField(q)
      && q == p.(state := q.state, hstate := q.hstate, index := q.index, flags := q.flags)
      && AsField(q).flags == AsField(p).flags
    decreases |headers|
  {
    if headers != [] {
      var h := headers[0];
      assert h in headers && forall x <- headers[1..] :: x in headers;
      HeaderKeeps(p, h);
      AllKeep(AfterHeader(p, h), headers[1..]);
    }
  }

  lemma HeaderKeeps(p: Parser, h: Header)
    requires AtField(p) && IsPlain(h)
    ensures
      var q := AfterHeader(p, h);
      && AtField(q)
      && q == p.(state := q.state, hstate := q.hstate, index := q.index, flags := q.flags)
      && AsField(q).flags == AsField(p).flags
  {
    PlainNameIsUnknown(AsField(p), h.name);
    PlainNamesEndNothing(LowerName(h.name));
    hide NameState, NameIndex, NamesLength, LowerName, IsValue, IsPlainName;
  }

  lemma PlainNamesEndNothing(v: string)
    ensures !NameState(v).Chunked? && !NameState(v).ConnKeepAlive? && !NameState(v).ConnClose? && !NameState(v).ConnUpgrade?
  {
  }
}
