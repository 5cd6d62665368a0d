/** Lengths: the decimal of a Content-Length header and the hexadecimal size of a chunk. */
module Lengths {
  import opened Chars
  import opened ParserTypes
  import opened Transitions
  import opened Machine
  import opened Runs

  const MAX_LENGTH := UINT64_LIMIT - 7
  const MAX_CHUNK := UINT64_LIMIT - 17

  // ---- Content-Length ----

  /** Digits and spaces. */
  predicate IsLengthText(v: string) {
    forall ch <- v :: IsNum(ch) || ch == ' '
  }

  /** The number that the digits of `v` make behind the digits of `n`; spaces do not count. */
  function Decimal(n: nat, v: string): nat
    requires IsLengthText(v)
    decreases |v|
  {
    if v == "" then n
    else
      assert v[0] in v && forall ch <- v[1..] :: ch in v;
      Decimal(if v[0] == ' ' then n else n * 10 + DigitOf(v[0]), v[1..])
  }

  lemma {:induction false} DecimalGrows(n: nat, v: string)
    requires IsLengthText(v)
    ensures Decimal(n, v) >= n
    decreases |v|
  {
    if v != "" {
      assert v[0] in v && forall ch <- v[1..] :: ch in v;
      DecimalGrows(if v[0] == ' ' then n else n * 10 + DigitOf(v[0]), v[1..]);
    }
  }

  /** The two bytes that end the line of a value. */
  lemma ValueEnds(c: Core, bytes: string)
    requires Going(c) && c.p.state == Head(HeaderValue) && c.slice == Open(Value, bytes)
    ensures ReadsHead(c, "\r\n", c.p.(state := Head(HeaderValueLws)), Closed, [Data(Value, bytes)])
  {
    hide OnValue;
    var q := c.p.(state := Head(HeaderAlmostDone));
    OnValueIs(c.p, c.skipping, CR);
    assert OnValue(c.p, c.skipping, CR) == ToFlushing(c.p, Head(HeaderAlmostDone), Value) by { ValueCR(c.p, c.skipping); }
    ReadsByte(c, CR, ToFlushing(c.p, Head(HeaderAlmostDone), Value));
    var d := Step(c, CR).c;
    AlmostDoneIs(q, d.skipping);
    ReadsByte(d, LF, To(q, Head(HeaderValueLws)));
    assert "\r\n" == [CR] + [LF];
    ReadsHeadBoth(c, [CR], q, Closed, [Data(Value, bytes)], [LF], c.p.(state := Head(HeaderValueLws)), Closed, []);
  }

  lemma ValueCR(p: Parser, skipping: bool)
    ensures OnValue(p, skipping, CR) == ToFlushing(p, Head(HeaderAlmostDone), Value)
  {
  }

  lemma AlmostDoneIs(p: Parser, skipping: bool)
    requires p.state == Head(HeaderAlmostDone)
    ensures Transition(p, skipping, LF) == To(p, Head(HeaderValueLws))
  {
    hide OnValue, OnFieldStart, OnHeadersDone, OnHeadersAlmostDone;
  }

  /** The parser in the value of a Content-Length header. */
  predicate InLength(p: Parser) {
    && p.errno == OK && p.state == Head(HeaderValue) && p.hstate.ContentLength?
    && p.contentLength <= MAX_LENGTH
  }

  lemma OnValueIs(p: Parser, skipping: bool, ch: char)
    requires p.state == Head(HeaderValue)
    ensures Transition(p, skipping, ch) == OnValue(p, skipping, ch)
  {
    hide OnValue;
  }

  /** The guard on the number before a digit is exact for the number after it. */
  lemma LengthByte(p: Parser, skipping: bool, ch: char)
    requires InLength(p) && ch != CR && ch != LF
    ensures
      var o := OnValue(p, skipping, ch);
      if ch == ' ' then o == Stay(p)
      else if IsNum(ch) && p.contentLength * 10 + DigitOf(ch) <= MAX_LENGTH then
        o == Stay(p.(contentLength := p.contentLength * 10 + DigitOf(ch)))
      else o.p.errno != OK
  {
  }

  predicate GoodRest(n: nat, v: string) {
    IsLengthText(v) && Decimal(n, v) <= MAX_LENGTH
  }

  lemma GoodRestStep(n: nat, v: string)
    requires v != ""
    ensures GoodRest(n, v) <==>
      && (v[0] == ' ' || (IsNum(v[0]) && n * 10 + DigitOf(v[0]) <= MAX_LENGTH))
      && GoodRest(if v[0] == ' ' then n else n * 10 + DigitOf(v[0]), v[1..])
    ensures GoodRest(n, v) ==>
      Decimal(n, v) == Decimal(if v[0] == ' ' then n else n * 10 + DigitOf(v[0]), v[1..])
  {
    var ch := v[0];
    if IsLengthText(v) {
      assert ch in v && forall x <- v[1..] :: x in v;
      DecimalGrows(if ch == ' ' then n else n * 10 + DigitOf(ch), v[1..]);
    } else if IsNum(ch) || ch == ' ' {
      var i :| 0 <= i < |v| && !(IsNum(v[i]) || v[i] == ' ');
      assert v[1..][i - 1] in v[1..];
    }
  }

  lemma {:induction false} RestOfLength(c: Core, v: string)
    requires Going(c) && InLength(c.p) && c.slice.Open? && CR !in v && LF !in v
    ensures
      if GoodRest(c.p.contentLength, v) then
        ReadsHead(c, v, c.p.(contentLength := Decimal(c.p.contentLength, v)), Open(c.slice.kind, c.slice.bytes + v), [])
      else Run(c, v).c.p.errno != OK
    decreases |v|
  {
    hide Run, Step, Transition, OnValue, Decimal, IsLengthText, IsNum;
    var n := c.p.contentLength;
    if v == "" {
      assert c.slice.bytes + v == c.slice.bytes;
      NoMoreDigits(n);
      ReadsNothing(c);
    } else {
      var ch, rest := v[0], v[1..];
      assert ch in v && (forall x <- rest :: x in v) && v == [ch] + rest;
      var slice := Open(c.slice.kind, c.slice.bytes + [ch]);
      assert c.slice.bytes + v == slice.bytes + rest;
      LengthByte(c.p, c.skipping, ch);
      OnValueIs(c.p, c.skipping, ch);
      GoodRestStep(n, v);
      RunFails(c, ch, rest);
      var o := OnValue(c.p, c.skipping, ch);
      if o.p.errno == OK {
        DigitsAreHeaderChars(ch);
        ReadsByte(c, ch, o);
        var d := Run(c, [ch]).c;
        RestOfLength(d, rest);
        if GoodRest(n, v) {
          ReadsHeadBoth(c, [ch], o.p, slice, [], rest, c.p.(contentLength := Decimal(n, v)),
                        Open(c.slice.kind, c.slice.bytes + v), []);
        } else {
          RunAppend(c, [ch], rest);
        }
      }
    }
  }

  lemma DigitsAreHeaderChars(ch: char)
    requires IsNum(ch) || ch == ' '
    ensures IsHeaderChar(ch)
  {
  }

  lemma NoMoreDigits(n: nat)
    ensures GoodRest(n, "") <==> n <= MAX_LENGTH
    ensures Decimal(n, "") == n
  {
  }

  /** The values that are accepted: a digit, then digits and spaces, up to 2^64 - 7. */
  predicate IsLength(v: string) {
    v != "" && IsNum(v[0]) && GoodRest(0, v)
  }

  lemma LengthStarts(p: Parser, skipping: bool, ch: char)
    requires p.state == Head(HeaderValueDiscardWs) && p.hstate.ContentLength?
    requires ch != ' ' && ch != '\t' && ch != CR && ch != LF
    ensures
      var o := Transition(p, skipping, ch);
      if IsNum(ch) then
        o == ToMarking(p.(index := 0, contentLength := DigitOf(ch)), Head(HeaderValue), Value)
      else o.p.errno == INVALID_CONTENT_LENGTH
  {
    hide OnFieldStart, OnHeadersDone, OnHeadersAlmostDone, OnField;
  }

  /** A Content-Length line is accepted exactly if its value is such a length, which is then stored. */
  lemma LengthIsRead(c: Core, v: string)
    requires Going(c) && c.p.state == Head(HeaderValueDiscardWs) && c.p.hstate.ContentLength? && c.slice.Closed?
    requires v != "" && v[0] != ' ' && v[0] != '\t' && CR !in v && LF !in v
    ensures
      if IsLength(v) then
        ReadsHead(c, v + "\r\n", c.p.(state := Head(HeaderValueLws), index := 0, contentLength := Decimal(0, v)),
                  Closed, [Data(Value, v)])
      else Run(c, v + "\r\n").c.p.errno != OK
  {
    hide Clean, Transition, Decimal, GoodRest, Run;
    var ch, rest := v[0], v[1..];
    assert ch in v && (forall x <- rest :: x in v) && v == [ch] + rest;
    LengthStarts(c.p, c.skipping, ch);
    RunFails(c, ch, rest + "\r\n");
    assert v + "\r\n" == [ch] + (rest + "\r\n");
    if IsNum(ch) {
      var q := c.p.(state := Head(HeaderValue), index := 0, contentLength := DigitOf(ch));
      ReadsByte(c, ch, ToMarking(q, Head(HeaderValue), Value));
      GoodRestStep(0, v);
      var d := Step(c, ch).c;
      RestOfLength(d, rest);
      RunAppend(d, rest, "\r\n");
      RunAppend(c, [ch], rest + "\r\n");
      var e := Run(d, rest).c;
      RunStopped(e, "\r\n");
      if GoodRest(DigitOf(ch), rest) {
        ValueEnds(e, v);
        ReadsHeadBoth(d, rest, e.p, e.slice, [], "\r\n", e.p.(state := Head(HeaderValueLws)), Closed, [Data(Value, v)]);
        ReadsHeadBoth(c, [ch], q, Open(Value, [ch]), [], rest + "\r\n",
                      e.p.(state := Head(HeaderValueLws)), Closed, [Data(Value, v)]);
      }
    }
  }

  lemma RunFails(c: Core, ch: char, rest: string)
    requires Going(c)
    ensures Transition(c.p, c.skipping, ch).p.errno != OK ==> Run(c, [ch] + rest).c.p.errno != OK
  {
    hide Transition;
    assert ([ch] + rest)[1..] == rest;
    RunStopped(Step(c, ch).c, rest);
  }
}
