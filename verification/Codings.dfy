/** Transfer-Encoding: which values announce a chunked body. */
module Codings {
  import opened Chars
  import opened Alphabets
  import opened ParserTypes
  import opened Transitions
  import opened Machine
  import opened Runs
  import opened FieldNames
  import opened Lengths
  import opened Headers
  import opened Connections

  const CHUNKED := "chunked"

  /** The coding "chunked" in any letter case, and nothing but spaces behind it. */
  predicate IsChunked(v: string) {
    |v| >= |CHUNKED| && IsSpelling(v[..|CHUNKED|], CHUNKED) && forall ch <- v[|CHUNKED|..] :: ch == ' '
  }

  /** The same of a text in lower case. */
  predicate NamesChunked(u: string) {
    CHUNKED <= u && forall ch <- u[|CHUNKED|..] :: ch == ' '
  }

  /** What the letters `u` of a coding have been recognised as. */
  function CodingState(u: string): HeaderState {
    if u <= CHUNKED then Progress(u, MatchingChunked) else if NamesChunked(u) then Chunked else General
  }

  lemma NameIsChunked()
    ensures NameFor(MatchingChunked) == CHUNKED && |CHUNKED| == 7 && Matched(MatchingChunked) == Chunked
  {
  }

  lemma NamesChunkedStep(u: string, c: char)
    requires !(u < CHUNKED)
    ensures NamesChunked(u + [c]) <==> NamesChunked(u) && c == ' '
    ensures u + [c] <= CHUNKED ==> false
  {
    if CHUNKED <= u {
      var t := u[|CHUNKED|..];
      assert (u + [c])[|CHUNKED|..] == t + [c];
      assert c in t + [c] && (forall x <- t :: x in t + [c]) && (forall x <- t + [c] :: x in t || x == c);
    } else {
      PrefixStep(u, c, CHUNKED);
      PrefixOfMore(u, c);
    }
  }

  lemma PrefixOfMore(u: string, c: char)
    ensures CHUNKED <= u + [c] ==> CHUNKED <= u || u < CHUNKED
  {
    if CHUNKED <= u + [c] {
      assert CHUNKED == (u + [c])[..|CHUNKED|];
    }
  }

  lemma CodingEnds(u: string)
    ensures u == CHUNKED ==> NamesChunked(u)
    ensures u < CHUNKED ==> !NamesChunked(u)
    ensures CodingState(u).Chunked? <==> NamesChunked(u)
    ensures CodingState(u).MatchingChunked? <==> u < CHUNKED
    ensures CodingState(u).Chunked? || CodingState(u).MatchingChunked? || CodingState(u).General?
  {
    NameIsChunked();
  }

  lemma LowerKeepsSpaces(ch: char)
    requires IsHeaderChar(ch)
    ensures Lower(ch) == ' ' <==> ch == ' '
    ensures Lower(ch) != '\0'
  {
  }

  predicate InCoding(p: Parser, u: string) {
    && p.state == Head(HeaderValue) && u != "" && p.hstate == CodingState(u)
    && (u < CHUNKED ==> p.index == |u| - 1)
  }

  /** One more letter of a coding that may still turn out to be chunked. */
  lemma CodingByte(p: Parser, skipping: bool, u: string, ch: char)
    requires InCoding(p, u) && !p.hstate.General? && IsHeaderChar(ch) && ch != CR && ch != LF
    ensures
      var o := Transition(p, skipping, ch);
      && o == Stay(o.p) && o.p == p.(hstate := o.p.hstate, index := o.p.index) && InCoding(o.p, u + [Lower(ch)])
  {
    hide Lower, IsHeaderChar, NameFor;
    OnValueIs(p, skipping, ch);
    LowerKeepsSpaces(ch);
    NameIsChunked();
    CodingEnds(u);
    CodingEnds(u + [Lower(ch)]);
    PrefixStep(u, Lower(ch), CHUNKED);
    if !(u < CHUNKED) {
      NamesChunkedStep(u, Lower(ch));
    } else if u + [Lower(ch)] <= CHUNKED {
    } else {
      NotChunkedYet(u, Lower(ch));
    }
    hide Transition, CodingState, NamesChunked;
  }

  lemma NotChunkedYet(u: string, c: char)
    requires u < CHUNKED && !(u + [c] <= CHUNKED)
    ensures !NamesChunked(u + [c])
  {
  }

  lemma {:induction false} GeneralStays(u: string, w: string)
    requires u != "" && CodingState(u).General?
    ensures CodingState(u + w).General?
    decreases |w|
  {
    if w == "" {
      assert u + w == u;
    } else {
      CodingEnds(u);
      if u <= CHUNKED { CodingEnds(u); }
      NamesChunkedStep(u, w[0]);
      CodingEnds(u + [w[0]]);
      GeneralStays(u + [w[0]], w[1..]);
      assert u + [w[0]] + w[1..] == u + w;
    }
  }

  predicate IsText(v: string) {
    forall ch <- v :: IsHeaderChar(ch) && ch != CR && ch != LF
  }

  lemma {:induction false} RestOfCoding(c: Core, u: string, w: string)
    requires Going(c) && c.slice.Open? && InCoding(c.p, u) && IsText(w)
    ensures ReadsItem(c, w, CodingState(u + LowerText(w)), c.p.flags)
    decreases |w|
  {
    hide Transition, Run, Step, CodingState, Lower, IsHeaderChar;
    if w == "" {
      assert u + LowerText(w) == u;
      ReadsNoItem(c);
    } else if c.p.hstate.General? {
      GeneralStays(u, LowerText(w));
      RestOfValue(c, w);
    } else {
      var ch, rest := w[0], w[1..];
      assert ch in w && (forall x <- rest :: x in w) && w == [ch] + rest;
      var t := u + [Lower(ch)];
      assert u + LowerText(w) == t + LowerText(rest);
      CodingByte(c.p, c.skipping, u, ch);
      ReadsItemByte(c, ch, Transition(c.p, c.skipping, ch));
      RestOfCoding(Run(c, [ch]).c, t, rest);
      ReadsItemBoth(c, [ch], CodingState(t), c.p.flags, rest, CodingState(t + LowerText(rest)), c.p.flags);
    }
  }

  lemma CodingStarts(p: Parser, skipping: bool, ch: char)
    requires p.state == Head(HeaderValueDiscardWs) && p.hstate.TransferEncoding?
    requires ch != ' ' && ch != '\t' && ch != CR && ch != LF
    ensures Transition(p, skipping, ch)
      == ToMarking(p.(hstate := CodingState([Lower(ch)]), index := 0), Head(HeaderValue), Value)
  {
    hide OnFieldStart, OnHeadersDone, OnHeadersAlmostDone, OnField, OnValue, Lower, IsToken;
    NameIsChunked();
    CodingEnds([Lower(ch)]);
    assert [] + [Lower(ch)] == [Lower(ch)];
    PrefixStep([], Lower(ch), CHUNKED);
    if Lower(ch) != 'c' { NotChunkedYet([], Lower(ch)); }
  }

  lemma ChunkedIsLower()
    ensures IsLowerName(CHUNKED)
  {
    SmallKs();
  }

  lemma SmallKs()
    ensures forall c | c in "chunked" :: c in SMALL
  {
  }

  /** A text is chunked exactly if its lower case is. */
  lemma LowerIsChunked(v: string)
    requires IsText(v)
    ensures IsChunked(v) <==> NamesChunked(LowerText(v))
  {
    hide Lower, IsHeaderChar, IsSpelling;
    var u := LowerText(v);
    if |v| >= |CHUNKED| {
      var w := v[..|CHUNKED|];
      assert LowerText(w) == u[..|CHUNKED|];
      assert forall ch <- w :: ch in v;
      ChunkedIsLower();
      TextSpells(w, CHUNKED);
      var s, t := v[|CHUNKED|..], u[|CHUNKED|..];
      forall i | 0 <= i < |s|
        ensures t[i] == ' ' <==> s[i] == ' '
      {
        assert v[|CHUNKED| + i] in v;
        LowerKeepsSpaces(v[|CHUNKED| + i]);
      }
      SpacesAgree(s, t);
    }
  }

  lemma SpacesAgree(s: string, t: string)
    requires |s| == |t| && forall i | 0 <= i < |s| :: t[i] == ' ' <==> s[i] == ' '
    ensures (forall ch <- s :: ch == ' ') <==> (forall ch <- t :: ch == ' ')
  {
    if forall ch <- s :: ch == ' ' {
      assert forall i | 0 <= i < |t| :: s[i] in s;
    }
    if forall ch <- t :: ch == ' ' {
      assert forall i | 0 <= i < |s| :: t[i] in t;
    }
  }

  /** A Transfer-Encoding line sets the flag, as the next line begins, exactly if its value is chunked. */
  lemma CodingIsRead(c: Core, v: string)
    requires Going(c) && c.slice.Closed? && c.p.state == Head(HeaderValueDiscardWs) && c.p.hstate.TransferEncoding?
    requires v != "" && v[0] != ' ' && v[0] != '\t' && IsText(v)
    ensures
      var text := " " + v + "\r\n";
      var q := Run(c, text).c.p;
      && ReadsHead(c, text, q, Closed, [Data(Value, v)])
      && q == c.p.(state := Head(HeaderValueLws), hstate := q.hstate, index := q.index)
      && AsField(q).flags == c.p.flags.(chunked := c.p.flags.chunked || IsChunked(v))
  {
    hide Clean, Transition, Run, Step, CodingState, Lower, IsHeaderChar, IsChunked, NamesChunked;
    var ch, rest := v[0], v[1..];
    assert ch in v && (forall x <- rest :: x in v) && v == [ch] + rest;
    assert LowerText(v) == [Lower(ch)] + LowerText(rest);
    SpaceIsDiscarded(c);
    var d := Run(c, " ").c;
    CodingStarts(d.p, d.skipping, ch);
    var h := CodingState([Lower(ch)]);
    var q0 := c.p.(state := Head(HeaderValue), hstate := h, index := 0);
    ReadsByte(d, ch, ToMarking(d.p.(hstate := h, index := 0), Head(HeaderValue), Value));
    var e := Run(d, [ch]).c;
    RestOfCoding(e, [Lower(ch)], rest);
    var q1 := Run(e, rest).c.p;
    ReadsHeadTo(e, rest, q1, Open(Value, [ch] + rest), []);
    ReadsHeadBoth(d, [ch], q0, Open(Value, [ch]), [], rest, q1, Open(Value, v), []);
    var f := Run(d, v).c;
    ValueEnds(f, v);
    var q := q1.(state := Head(HeaderValueLws));
    ReadsHeadBoth(d, v, q1, Open(Value, v), [], "\r\n", q, Closed, [Data(Value, v)]);
    ReadsHeadBoth(c, " ", c.p, Closed, [], v + "\r\n", q, Closed, [Data(Value, v)]);
    assert " " + (v + "\r\n") == " " + v + "\r\n";
    LowerIsChunked(v);
    CodingEnds(LowerText(v));
  }
}
