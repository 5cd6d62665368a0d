/** White space around header values: blanks behind the colon, and values that go on in the next line. */
module Folds {
  import opened Chars
  import opened ParserTypes
  import opened Transitions
  import opened Machine
  import opened Runs
  import opened FieldNames
  import opened Lengths
  import opened Headers
  import opened Connections

  predicate AreBlanks(s: string) {
    forall ch <- s :: ch == ' ' || ch == '\t'
  }

  lemma BlankStays(p: Parser, skipping: bool, ch: char)
    requires p.state == Head(HeaderValueDiscardWs) && (ch == ' ' || ch == '\t')
    ensures Transition(p, skipping, ch) == Stay(p)
  {
    hide OnFieldStart, OnHeadersDone, OnHeadersAlmostDone, OnField, OnValueStart, OnValue;
  }

  /** Behind a colon any number of spaces and tabs is left out of the value. */
  lemma {:induction false} BlanksAreDiscarded(c: Core, s: string)
    requires Going(c) && c.p.state == Head(HeaderValueDiscardWs) && c.slice.Closed? && AreBlanks(s)
    ensures ReadsHead(c, s, c.p, Closed, [])
    decreases |s|
  {
    hide Transition, Run, Step;
    if s == "" {
      ReadsNothing(c);
    } else {
      var ch, rest := s[0], s[1..];
      assert ch in s && (forall x <- rest :: x in s) && s == [ch] + rest;
      BlankStays(c.p, c.skipping, ch);
      ReadsByte(c, ch, Stay(c.p));
      BlanksAreDiscarded(Run(c, [ch]).c, rest);
      ReadsHeadBoth(c, [ch], c.p, Closed, [], rest, c.p, Closed, []);
    }
  }

  lemma FoldGoesOn(p: Parser, skipping: bool, ch: char)
    requires p.state == Head(HeaderValueDiscardLws) && (ch == ' ' || ch == '\t')
    ensures Transition(p, skipping, ch) == To(p, Head(HeaderValueDiscardWs))
  {
    hide OnFieldStart, OnHeadersDone, OnHeadersAlmostDone, OnField, OnValueStart, OnValue;
  }

  /** A value that has not begun yet may begin in the next line, behind a blank: nothing has been told. */
  lemma EmptyLineIsFolded(c: Core, ch: char)
    requires Going(c) && c.p.state == Head(HeaderValueDiscardLws) && c.slice.Closed? && (ch == ' ' || ch == '\t')
    ensures ReadsHead(c, [ch], c.p.(state := Head(HeaderValueDiscardWs)), Closed, [])
  {
    hide Transition, Step;
    FoldGoesOn(c.p, c.skipping, ch);
    ReadsByte(c, ch, To(c.p, Head(HeaderValueDiscardWs)));
  }

  lemma FoldStarts(p: Parser, skipping: bool, ch: char)
    requires p.state == Head(HeaderValueLws) && (ch == ' ' || ch == '\t')
    ensures Unknown(p.hstate) ==>
      Transition(p, skipping, ch) == ToMarking(p.(hstate := General, index := 0), Head(HeaderValue), Value)
    ensures p.hstate.MatchingTokenStart? ==>
      Transition(p, skipping, ch) == ToMarking(p.(index := 0), Head(HeaderValue), Value)
    ensures p.hstate.ContentLength? ==> Transition(p, skipping, ch).p.errno == INVALID_CONTENT_LENGTH
  {
    hide OnFieldStart, OnHeadersDone, OnHeadersAlmostDone, OnField, OnValue;
  }

  /**
    A value that has begun goes on in the next line: that line is told as a value of its own, with its
    blank. Whatever the line before has ended with is not looked at again, so a known token or a coding
    at the end of it sets no flag.
   */
  lemma FoldIsRead(c: Core, v: string)
    requires Going(c) && c.p.state == Head(HeaderValueLws) && c.slice.Closed? && Unknown(c.p.hstate)
    requires v != "" && (v[0] == ' ' || v[0] == '\t') && forall ch <- v :: IsHeaderChar(ch) && ch != CR && ch != LF
    ensures
      var q := c.p.(hstate := General, index := 0);
      && ReadsHead(c, v + "\r\n", q, Closed, [Data(Value, v)])
      && AsField(q).flags == c.p.flags
  {
    hide Transition, Run, Step, IsHeaderChar, Clean;
    var ch, rest := v[0], v[1..];
    assert ch in v && (forall x <- rest :: x in v) && v == [ch] + rest;
    FoldStarts(c.p, c.skipping, ch);
    var q := c.p.(hstate := General, index := 0, state := Head(HeaderValue));
    ReadsByte(c, ch, ToMarking(q, Head(HeaderValue), Value));
    var d := Run(c, [ch]).c;
    RestOfValue(d, rest);
    ReadsHeadBoth(c, [ch], q, Open(Value, [ch]), [], rest, q, Open(Value, v), []);
    var e := Run(c, v).c;
    ValueEnds(e, v);
    ReadsHeadBoth(c, v, q, Open(Value, v), [], "\r\n", q.(state := Head(HeaderValueLws)), Closed, [Data(Value, v)]);
  }

  /** A Connection list that ends with a comma goes on in the next line. */
  lemma ListIsFolded(c: Core, ch: char, items: seq<Item>)
    requires Going(c) && c.p.state == Head(HeaderValueLws) && c.slice.Closed? && c.p.hstate.MatchingTokenStart?
    requires (ch == ' ' || ch == '\t') && items != [] && forall x <- items :: IsItem(x)
    ensures
      var v := [ch] + PrintList(items);
      var q := Run(c, v + "\r\n").c.p;
      && ReadsHead(c, v + "\r\n", q, Closed, [Data(Value, v)]) && q.state == Head(HeaderValueLws)
      && AsField(q).flags == Seen(c.p.flags, false, items)
  {
    hide Transition, Run, Step, Seen, PrintList, IsItem;
    FoldStarts(c.p, c.skipping, ch);
    var q := c.p.(index := 0, state := Head(HeaderValue));
    ReadsByte(c, ch, ToMarking(q, Head(HeaderValue), Value));
    var d := Run(c, [ch]).c;
    ListIsRead(d, false, items);
    var w, v := PrintList(items), [ch] + PrintList(items);
    var e := Run(d, w).c;
    ReadsHeadTo(d, w, e.p, Open(Value, v), []);
    ReadsHeadBoth(c, [ch], q, Open(Value, [ch]), [], w, e.p, Open(Value, v), []);
    ValueEnds(e, v);
    ReadsHeadBoth(c, v, e.p, Open(Value, v), [], "\r\n", e.p.(state := Head(HeaderValueLws)), Closed, [Data(Value, v)]);
  }

  /** The value of a Content-Length does not go on in the next line. */
  lemma LengthIsNotFolded(c: Core, ch: char, rest: string)
    requires Going(c) && c.p.state == Head(HeaderValueLws) && c.p.hstate.ContentLength? && (ch == ' ' || ch == '\t')
    ensures Run(c, [ch] + rest).c.p.errno == INVALID_CONTENT_LENGTH
  {
    hide Transition;
    FoldStarts(c.p, c.skipping, ch);
    assert ([ch] + rest)[1..] == rest;
    RunStopped(Step(c, ch).c, rest);
  }

  lemma TabIsNoSpace(p: Parser, skipping: bool)
    requires p.state == Head(HeaderValue) && p.hstate.MatchingTokenStart?
    ensures Transition(p, skipping, '\t') == Stay(p.(hstate := General)) && IsHeaderChar('\t')
  {
    OnValueIs(p, skipping, '\t');
    hide Transition, NameFor;
  }

  /**
    Where a token of a Connection list may begin, a tab is no space: `LOWER` has made another byte of it
    before it is compared. It hides all the rest of the line.
   */
  lemma TabHidesRest(c: Core, w: string)
    requires Going(c) && c.p.state == Head(HeaderValue) && c.p.hstate.MatchingTokenStart? && c.slice.Open?
    requires forall ch <- w :: IsHeaderChar(ch) && ch != CR && ch != LF
    ensures
      var q := c.p.(hstate := General);
      ReadsHead(c, "\t" + w, q, Open(c.slice.kind, c.slice.bytes + ("\t" + w)), []) && EndOfLine(q).flags == c.p.flags
  {
    hide Transition, Run, Step, IsHeaderChar, Clean;
    var q := c.p.(hstate := General);
    TabIsNoSpace(c.p, c.skipping);
    assert "\t" == ['\t'];
    ReadsByte(c, '\t', Stay(q));
    var d := Run(c, "\t").c;
    RestOfValue(d, w);
    assert c.slice.bytes + "\t" + w == c.slice.bytes + ("\t" + w);
    ReadsHeadBoth(c, "\t", q, d.slice, [], w, q, Open(c.slice.kind, c.slice.bytes + ("\t" + w)), []);
  }
}
