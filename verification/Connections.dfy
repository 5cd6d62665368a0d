/**
  The value of a Connection header: a comma-separated list of tokens, three of which are known.

  The recogniser swallows the comma behind a token that is a proper beginning of a known one,
  and with it the token that follows. What it sees is stated exactly.
 */
module Connections {
  import opened Chars
  import opened Alphabets
  import opened ParserTypes
  import opened Transitions
  import opened Machine
  import opened Invariant
  import opened Runs
  import opened FieldNames
  import opened Lengths
  import opened Headers

  predicate IsTokenChar(ch: char) {
    IsAlphaNum(ch) || ch == '-'
  }

  function LowerText(w: string): (v: string)
    ensures |v| == |w|
  {
    seq(|w|, i requires 0 <= i < |w| => Lower(w[i]))
  }

  /** The matching states of a Connection value. */
  predicate IsConnMatching(h: HeaderState) {
    h.MatchingKeepAlive? || h.MatchingClose? || h.MatchingConnUpgrade?
  }

  /** What the letters `v` of a token have been recognised as. */
  function TokenState(v: string): HeaderState {
    if v <= NameFor(MatchingKeepAlive) then Progress(v, MatchingKeepAlive)
    else if v <= NameFor(MatchingClose) then Progress(v, MatchingClose)
    else if v <= NameFor(MatchingConnUpgrade) then Progress(v, MatchingConnUpgrade)
    else MatchingToken
  }

  lemma TokensPart(h: HeaderState, g: HeaderState)
    requires IsConnMatching(h) && IsConnMatching(g) && h != g
    ensures 5 <= |NameFor(h)| && 5 <= |NameFor(g)| && NameFor(h)[0] != NameFor(g)[0]
  {
  }

  lemma OnlyToken(v: string, c: char, h: HeaderState)
    requires IsConnMatching(h) && v != "" && v <= NameFor(h)
    ensures TokenState(v) == Progress(v, h)
    ensures TokenState(v + [c]) == if v + [c] <= NameFor(h) then Progress(v + [c], h) else MatchingToken
  {
    hide NameFor;
    assert (v + [c])[0] == v[0];
    if h != MatchingKeepAlive { TokensPart(h, MatchingKeepAlive); }
    if h != MatchingClose { TokensPart(h, MatchingClose); }
    if h != MatchingConnUpgrade { TokensPart(h, MatchingConnUpgrade); }
  }

  /** The header state after the letter `c`, in lower case, of a token. */
  function TokenLetter(h: HeaderState, index: nat, c: char): HeaderState {
    if IsConnMatching(h) then MatchLetter(h, index, c, MatchingToken) else MatchingToken
  }

  lemma NextLetterOfToken(v: string, index: nat, c: char)
    requires v != "" && c != '\0'
    requires IsConnMatching(TokenState(v)) ==> index == |v| - 1
    ensures TokenLetter(TokenState(v), index, c) == TokenState(v + [c])
    ensures IsConnMatching(TokenState(v + [c])) ==> IsConnMatching(TokenState(v))
  {
    hide NameFor;
    PrefixStep(v, c, NameFor(MatchingKeepAlive));
    PrefixStep(v, c, NameFor(MatchingClose));
    PrefixStep(v, c, NameFor(MatchingConnUpgrade));
    if v <= NameFor(MatchingKeepAlive) { OnlyToken(v, c, MatchingKeepAlive); }
    else if v <= NameFor(MatchingClose) { OnlyToken(v, c, MatchingClose); }
    else if v <= NameFor(MatchingConnUpgrade) { OnlyToken(v, c, MatchingConnUpgrade); }
  }

  lemma FirstLetterOfToken(c: char)
    requires c != '\0'
    ensures TokenStart(c, MatchingToken) == TokenState([c])
  {
    assert [] + [c] == [c];
    PrefixStep([], c, NameFor(MatchingKeepAlive));
    PrefixStep([], c, NameFor(MatchingClose));
    PrefixStep([], c, NameFor(MatchingConnUpgrade));
  }

  lemma TokenChars(ch: char)
    requires IsTokenChar(ch)
    ensures IsHeaderChar(ch) && IsToken(Lower(ch)) && Lower(ch) != '\0'
    ensures ch != CR && ch != LF && ch != ' ' && ch != '\t' && ch != ','
  {
  }

  /** One letter inside a token. */
  lemma TokenByte(p: Parser, skipping: bool, v: string, ch: char)
    requires p.state == Head(HeaderValue) && p.hstate == TokenState(v) && v != "" && IsTokenChar(ch)
    requires IsConnMatching(p.hstate) ==> p.index == |v| - 1
    ensures
      var o := Transition(p, skipping, ch);
      && o == Stay(o.p) && o.p == p.(hstate := TokenState(v + [Lower(ch)]), index := o.p.index)
      && (IsConnMatching(o.p.hstate) ==> o.p.index == |v|)
  {
    hide Lower, IsHeaderChar, IsToken, IsTokenChar, NameFor, MatchLetter;
    TokenChars(ch);
    OnValueIs(p, skipping, ch);
    NextLetterOfToken(v, p.index, Lower(ch));
    hide Transition;
    TokenStates(v);
  }

  lemma TokenStates(v: string)
    ensures IsConnMatching(TokenState(v)) || TokenState(v).ConnKeepAlive? || TokenState(v).ConnClose?
      || TokenState(v).ConnUpgrade? || TokenState(v).MatchingToken?
  {
  }

  // ---- One item of a list ----

  /** A token with the spaces before and after it. */
  datatype Item = Item(before: nat, token: string, after: nat)

  predicate IsItem(x: Item) {
    x.token != "" && forall ch <- x.token :: IsTokenChar(ch)
  }

  function Spaces(n: nat): string {
    seq(n, i => ' ')
  }

  function PrintItem(x: Item): string {
    Spaces(x.before) + x.token + Spaces(x.after)
  }

  /** The header state behind a token and `n` spaces. */
  function AfterSpaces(h: HeaderState, n: nat): HeaderState {
    if n > 0 && IsConnMatching(h) then MatchingToken else h
  }

  /** The parser in a value, in the header state `h`; `index` counts only where something is matched. */
  predicate InItem(p: Parser, q: Parser, h: HeaderState, flags: Flags) {
    q == p.(state := Head(HeaderValue), hstate := h, index := q.index, flags := flags)
  }

  /** `data` is read in a value, and leads to `h`. */
  predicate ReadsItem(c: Core, data: string, h: HeaderState, flags: Flags) {
    var q := Run(c, data).c.p;
    && InItem(c.p, q, h, flags)
    && c.slice.Open? && ReadsHead(c, data, q, Open(c.slice.kind, c.slice.bytes + data), [])
  }

  lemma ReadsItemBoth(c: Core, a: string, h: HeaderState, f: Flags, b: string, k: HeaderState, g: Flags)
    requires ReadsItem(c, a, h, f) && ReadsItem(Run(c, a).c, b, k, g)
    ensures ReadsItem(c, a + b, k, g) && Run(c, a + b).c == Run(Run(c, a).c, b).c
  {
    hide Run, ReadsHead;
    var d := Run(c, a).c;
    ReadsHeadTo(c, a, d.p, Open(c.slice.kind, c.slice.bytes + a), []);
    ReadsHeadBoth(c, a, d.p, d.slice, [], b, Run(d, b).c.p,
                  Open(d.slice.kind, d.slice.bytes + b), []);
    assert c.slice.bytes + a + b == c.slice.bytes + (a + b);
    var none: seq<Event> := [];
    assert none + none == none;
  }

  lemma ReadsItemByte(c: Core, ch: char, o: Outcome)
    requires Takes(c, ch, o) && o == Stay(o.p) && c.slice.Open?
    requires c.p.state == Head(HeaderValue) && InItem(c.p, o.p, o.p.hstate, o.p.flags)
    ensures ReadsItem(c, [ch], o.p.hstate, o.p.flags) && Run(c, [ch]).c.p == o.p
  {
    hide Transition, Run;
    ReadsByte(c, ch, o);
  }

  lemma ReadsNoItem(c: Core)
    requires Going(c) && c.slice.Open? && c.p.state == Head(HeaderValue)
    ensures ReadsItem(c, "", c.p.hstate, c.p.flags) && Run(c, "").c == c
  {
    ReadsNothing(c);
    assert c.slice.bytes + "" == c.slice.bytes;
  }

  /** In the middle of a token. */
  lemma {:induction false} RestOfToken(c: Core, v: string, w: string)
    requires Going(c) && c.slice.Open? && c.p.state == Head(HeaderValue) && c.p.hstate == TokenState(v) && v != ""
    requires IsConnMatching(c.p.hstate) ==> c.p.index == |v| - 1
    requires forall ch <- w :: IsTokenChar(ch)
    ensures ReadsItem(c, w, TokenState(v + LowerText(w)), c.p.flags)
    decreases |w|
  {
    hide Transition, Run, Step, TokenState, Lower, IsTokenChar, IsHeaderChar;
    if w == "" {
      assert v + LowerText(w) == v;
      ReadsNoItem(c);
    } else {
      var ch, rest := w[0], w[1..];
      assert ch in w && (forall x <- rest :: x in w) && w == [ch] + rest;
      var u := v + [Lower(ch)];
      assert v + LowerText(w) == u + LowerText(rest);
      TokenByte(c.p, c.skipping, v, ch);
      TokenChars(ch);
      ReadsItemByte(c, ch, Transition(c.p, c.skipping, ch));
      RestOfToken(Run(c, [ch]).c, u, rest);
      ReadsItemBoth(c, [ch], TokenState(u), c.p.flags, rest, TokenState(u + LowerText(rest)), c.p.flags);
    }
  }

  /** Behind a swallowed comma, and behind an unknown token, letters and spaces say nothing. */
  lemma {:induction false} RestOfUnknown(c: Core, w: string)
    requires Going(c) && c.slice.Open? && c.p.state == Head(HeaderValue) && c.p.hstate.MatchingToken?
    requires forall ch <- w :: IsTokenChar(ch) || ch == ' '
    ensures ReadsItem(c, w, MatchingToken, c.p.flags)
    decreases |w|
  {
    hide Transition, Run, Step, IsTokenChar, IsHeaderChar;
    if w == "" {
      ReadsNoItem(c);
    } else {
      var ch, rest := w[0], w[1..];
      assert ch in w && (forall x <- rest :: x in w) && w == [ch] + rest;
      UnknownByte(c.p, c.skipping, ch);
      ReadsItemByte(c, ch, Stay(c.p));
      RestOfUnknown(Run(c, [ch]).c, rest);
      ReadsItemBoth(c, [ch], MatchingToken, c.p.flags, rest, MatchingToken, c.p.flags);
    }
  }

  lemma UnknownByte(p: Parser, skipping: bool, ch: char)
    requires p.state == Head(HeaderValue) && p.hstate.MatchingToken? && (IsTokenChar(ch) || ch == ' ')
    ensures Transition(p, skipping, ch) == Stay(p) && IsHeaderChar(ch)
  {
    hide Lower, IsTokenChar;
    if ch != ' ' {
      TokenChars(ch);
    }
    OnValueIs(p, skipping, ch);
    hide Transition;
  }

  lemma SpaceByte(p: Parser, skipping: bool)
    requires p.state == Head(HeaderValue) && !p.hstate.MatchingTokenStart?
    requires IsConnMatching(p.hstate) || p.hstate.ConnKeepAlive? || p.hstate.ConnClose? || p.hstate.ConnUpgrade?
    ensures
      var o := Transition(p, skipping, ' ');
      o == Stay(o.p) && o.p == p.(hstate := AfterSpaces(p.hstate, 1), index := o.p.index)
  {
    OnValueIs(p, skipping, ' ');
    NoSpaceInNames(p.hstate, p.index + 1);
    hide Transition, NameFor;
  }

  lemma NoSpaceInNames(h: HeaderState, i: nat)
    requires IsConnMatching(h)  || h.ConnKeepAlive? || h.ConnClose? || h.ConnUpgrade?
    ensures CharAt(NameFor(h), i) != ' ' && CharAt(NameFor(h), i) != ','
  {
  }

  /** The spaces behind a token. */
  lemma {:induction false} SpacesAfter(c: Core, v: string, n: nat)
    requires Going(c) && c.slice.Open? && c.p.state == Head(HeaderValue)
    requires c.p.hstate == TokenState(v) || c.p.hstate.MatchingToken?
    ensures ReadsItem(c, Spaces(n), AfterSpaces(c.p.hstate, n), c.p.flags)
    decreases n
  {
    hide Transition, Run, Step, TokenState;
    if n == 0 {
      ReadsNoItem(c);
    } else if c.p.hstate.MatchingToken? {
      RestOfUnknown(c, Spaces(n));
    } else {
      TokenStates(v);
      SpaceByte(c.p, c.skipping);
      ReadsItemByte(c, ' ', Transition(c.p, c.skipping, ' '));
      var h := AfterSpaces(c.p.hstate, 1);
      assert [' '] + Spaces(n - 1) == Spaces(n);
      SpacesAfter(Run(c, [' ']).c, v, n - 1);
      ReadsItemBoth(c, [' '], h, c.p.flags, Spaces(n - 1), AfterSpaces(h, n - 1), c.p.flags);
    }
  }

  // ---- The list ----

  lemma ListByte(p: Parser, skipping: bool, ch: char)
    requires p.state == Head(HeaderValue) && p.hstate.MatchingTokenStart? && p.index == 0
    ensures ch == ' ' ==> Transition(p, skipping, ch) == Stay(p)
    ensures IsTokenChar(ch) ==> Transition(p, skipping, ch) == Stay(p.(hstate := TokenState([Lower(ch)])))
  {
    hide Lower, IsTokenChar, IsToken, NameFor;
    OnValueIs(p, skipping, ch);
    if IsTokenChar(ch) {
      TokenChars(ch);
      FirstLetterOfToken(Lower(ch));
      TokenStartIs(Lower(ch));
    }
    LowerSpace();
    hide Transition, TokenState;
  }

  lemma TokenStartIs(c: char)
    ensures TokenStart(c, MatchingToken) == TokenStart(c, General)
      || (TokenStart(c, MatchingToken).MatchingToken? && TokenStart(c, General).General?)
  {
  }

  lemma LowerSpace()
    ensures Lower(' ') == ' ' && !IsToken(' ')
  {
  }

  lemma {:induction false} SpacesBefore(c: Core, n: nat)
    requires Going(c) && c.slice.Open? && c.p.state == Head(HeaderValue)
    requires c.p.hstate.MatchingTokenStart? && c.p.index == 0
    ensures ReadsItem(c, Spaces(n), MatchingTokenStart, c.p.flags) && Run(c, Spaces(n)).c.p == c.p
    decreases n
  {
    hide Transition, Run, Step;
    if n == 0 {
      ReadsNoItem(c);
    } else {
      ListByte(c.p, c.skipping, ' ');
      ReadsItemByte(c, ' ', Stay(c.p));
      assert [' '] + Spaces(n - 1) == Spaces(n);
      SpacesBefore(Run(c, [' ']).c, n - 1);
      ReadsItemBoth(c, [' '], MatchingTokenStart, c.p.flags, Spaces(n - 1), MatchingTokenStart, c.p.flags);
    }
  }

  /** What an item comes to at its end; `swallowed` says that the comma before it was not seen. */
  function EndState(swallowed: bool, x: Item): HeaderState {
    if swallowed then MatchingToken else AfterSpaces(TokenState(LowerText(x.token)), x.after)
  }

  lemma WholeToken(c: Core, w: string)
    requires Going(c) && c.slice.Open? && c.p.state == Head(HeaderValue)
    requires c.p.hstate.MatchingTokenStart? && c.p.index == 0
    requires w != "" && forall ch <- w :: IsTokenChar(ch)
    ensures ReadsItem(c, w, TokenState(LowerText(w)), c.p.flags)
  {
    hide Transition, Run, Step, TokenState, Lower, IsTokenChar;
    var ch, rest := w[0], w[1..];
    assert ch in w && (forall x <- rest :: x in w) && w == [ch] + rest;
    assert LowerText(w) == [Lower(ch)] + LowerText(rest);
    ListByte(c.p, c.skipping, ch);
    TokenChars(ch);
    var h := TokenState([Lower(ch)]);
    ReadsItemByte(c, ch, Stay(c.p.(hstate := h)));
    RestOfToken(Run(c, [ch]).c, [Lower(ch)], rest);
    ReadsItemBoth(c, [ch], h, c.p.flags, rest, TokenState(LowerText(w)), c.p.flags);
  }

  lemma ItemIsRead(c: Core, swallowed: bool, x: Item)
    requires Going(c) && c.slice.Open? && c.p.state == Head(HeaderValue) && IsItem(x)
    requires if swallowed then c.p.hstate.MatchingToken? else c.p.hstate.MatchingTokenStart? && c.p.index == 0
    ensures ReadsItem(c, PrintItem(x), EndState(swallowed, x), c.p.flags)
  {
    hide Transition, Run, Step, TokenState, IsTokenChar;
    if swallowed {
      RestOfUnknown(c, PrintItem(x));
    } else {
      SpacesBefore(c, x.before);
      var d := Run(c, Spaces(x.before)).c;
      WholeToken(d, x.token);
      var h := TokenState(LowerText(x.token));
      ReadsItemBoth(c, Spaces(x.before), MatchingTokenStart, c.p.flags, x.token, h, c.p.flags);
      var e := Run(d, x.token).c;
      SpacesAfter(e, LowerText(x.token), x.after);
      ReadsItemBoth(c, Spaces(x.before) + x.token, h, c.p.flags,
                    Spaces(x.after), EndState(swallowed, x), c.p.flags);
    }
  }

  /** A comma: behind a proper beginning of a known token it is swallowed. */
  lemma CommaByte(p: Parser, skipping: bool, swallowed: bool, x: Item)
    requires p.state == Head(HeaderValue) && p.hstate == EndState(swallowed, x)
    ensures
      var h := p.hstate;
      var o := Transition(p, skipping, ',');
      && o == Stay(o.p)
      && (if IsConnMatching(h) then o.p == p.(hstate := MatchingToken, index := o.p.index)
          else o.p == p.(hstate := MatchingTokenStart, index := 0, flags := EndOfToken(p.flags, h)))
  {
    TokenStates(LowerText(x.token));
    OnValueIs(p, skipping, ',');
    hide TokenState;
    if !p.hstate.MatchingToken? {
      NoSpaceInNames(p.hstate, p.index + 1);
    }
    hide Transition, NameFor;
  }

  function PrintList(items: seq<Item>): string {
    if items == [] then ""
    else if |items| == 1 then PrintItem(items[0])
    else PrintItem(items[0]) + "," + PrintList(items[1..])
  }

  /** The flags with those of the known tokens that are seen; an item may be swallowed. */
  function Seen(flags: Flags, swallowed: bool, items: seq<Item>): Flags
    decreases |items|
  {
    if items == [] then flags
    else
      var h := EndState(swallowed, items[0]);
      Seen(EndOfToken(flags, h), IsConnMatching(h), items[1..])
  }

  /** A list, from behind its first comma, or from behind a swallowed one. */
  lemma {:induction false} ListIsRead(c: Core, swallowed: bool, items: seq<Item>)
    requires Going(c) && c.slice.Open? && c.p.state == Head(HeaderValue)
    requires items != [] && forall x <- items :: IsItem(x)
    requires if swallowed then c.p.hstate.MatchingToken? else c.p.hstate.MatchingTokenStart? && c.p.index == 0
    ensures
      var q := Run(c, PrintList(items)).c.p;
      && ReadsItem(c, PrintList(items), q.hstate, q.flags)
      && !q.hstate.Chunked?
      && EndOfToken(q.flags, q.hstate) == Seen(c.p.flags, swallowed, items)
    decreases |items|
  {
    hide Transition, Run, Step, TokenState, IsTokenChar, PrintItem;
    var x, rest := items[0], items[1..];
    assert x in items && forall y <- rest :: y in items;
    ItemIsRead(c, swallowed, x);
    var h := EndState(swallowed, x);
    EndStateIsNotChunked(swallowed, x);
    var d := Run(c, PrintItem(x)).c;
    if rest != [] {
      CommaByte(d.p, d.skipping, swallowed, x);
      var o := Transition(d.p, d.skipping, ',');
      ReadsItemByte(d, ',', o);
      ReadsItemBoth(c, PrintItem(x), h, c.p.flags, ",", o.p.hstate, o.p.flags);
      var e := Run(d, ",").c;
      ListIsRead(e, IsConnMatching(h), rest);
      var q := Run(e, PrintList(rest)).c.p;
      ReadsItemBoth(c, PrintItem(x) + ",", o.p.hstate, o.p.flags, PrintList(rest), q.hstate, q.flags);
      MatchingSetsNothing(c.p.flags, h);
    }
  }

  lemma EndStateIsNotChunked(swallowed: bool, x: Item)
    ensures !EndState(swallowed, x).Chunked?
  {
    TokenStates(LowerText(x.token));
    hide TokenState;
  }

  lemma MatchingSetsNothing(f: Flags, h: HeaderState)
    ensures IsConnMatching(h) ==> EndOfToken(f, h) == f
  {
  }

  // ---- The whole value ----

  lemma ValueStartsList(p: Parser, skipping: bool, ch: char)
    requires p.state == Head(HeaderValueDiscardWs) && p.hstate.Connection? && IsTokenChar(ch)
    ensures Transition(p, skipping, ch)
      == ToMarking(p.(hstate := TokenState([Lower(ch)]), index := 0), Head(HeaderValue), Value)
  {
    hide Lower, IsTokenChar, IsToken, NameFor, TokenState, OnFieldStart, OnHeadersDone, OnHeadersAlmostDone, OnField, OnValue;
    TokenChars(ch);
    FirstLetterOfToken(Lower(ch));
  }

  /** A value so far: the slice is all of it. */
  predicate ReadsValue(c: Core, data: string, h: HeaderState, flags: Flags) {
    var q := Run(c, data).c.p;
    && InItem(c.p, q, h, flags)
    && ReadsHead(c, data, q, Open(Value, data), [])
  }

  lemma ReadsValueBoth(c: Core, a: string, h: HeaderState, f: Flags, b: string, k: HeaderState, g: Flags)
    requires ReadsValue(c, a, h, f) && ReadsItem(Run(c, a).c, b, k, g)
    ensures ReadsValue(c, a + b, k, g) && Run(c, a + b).c == Run(Run(c, a).c, b).c
  {
    hide Run, ReadsHead;
    var d := Run(c, a).c;
    ReadsHeadTo(c, a, d.p, Open(Value, a), []);
    ReadsHeadBoth(c, a, d.p, d.slice, [], b, Run(d, b).c.p, Open(Value, a + b), []);
    var none: seq<Event> := [];
    assert none + none == none;
  }

  lemma FirstItemIsRead(c: Core, x: Item)
    requires Going(c) && c.slice.Closed? && c.p.state == Head(HeaderValueDiscardWs) && c.p.hstate.Connection?
    requires IsItem(x) && x.before == 0
    ensures ReadsValue(c, PrintItem(x), EndState(false, x), c.p.flags)
  {
    hide Transition, Run, Step, TokenState, Lower, IsTokenChar;
    var w := x.token;
    var ch, rest := w[0], w[1..];
    assert ch in w && (forall y <- rest :: y in w) && w == [ch] + rest;
    assert LowerText(w) == [Lower(ch)] + LowerText(rest);
    ValueStartsList(c.p, c.skipping, ch);
    var h := TokenState([Lower(ch)]);
    var q := c.p.(state := Head(HeaderValue), hstate := h, index := 0);
    ReadsByte(c, ch, ToMarking(c.p.(hstate := h, index := 0), Head(HeaderValue), Value));
    var d := Run(c, [ch]).c;
    RestOfToken(d, [Lower(ch)], rest);
    ReadsValueBoth(c, [ch], h, c.p.flags, rest, TokenState(LowerText(w)), c.p.flags);
    var e := Run(c, w).c;
    SpacesAfter(e, LowerText(w), x.after);
    ReadsValueBoth(c, w, TokenState(LowerText(w)), c.p.flags, Spaces(x.after), EndState(false, x), c.p.flags);
    assert PrintItem(x) == w + Spaces(x.after);
  }

  lemma FirstListIsRead(c: Core, items: seq<Item>)
    requires Going(c) && c.slice.Closed? && c.p.state == Head(HeaderValueDiscardWs) && c.p.hstate.Connection?
    requires items != [] && (forall x <- items :: IsItem(x)) && items[0].before == 0
    ensures
      var q := Run(c, PrintList(items)).c.p;
      && ReadsValue(c, PrintList(items), q.hstate, q.flags)
      && !q.hstate.Chunked?
      && EndOfToken(q.flags, q.hstate) == Seen(c.p.flags, false, items)
  {
    hide Transition, Run, Step, TokenState, IsTokenChar, PrintItem;
    var x, rest := items[0], items[1..];
    assert x in items && forall y <- rest :: y in items;
    FirstItemIsRead(c, x);
    var h := EndState(false, x);
    EndStateIsNotChunked(false, x);
    var d := Run(c, PrintItem(x)).c;
    if rest != [] {
      CommaByte(d.p, d.skipping, false, x);
      var o := Transition(d.p, d.skipping, ',');
      ReadsItemByte(d, ',', o);
      ReadsValueBoth(c, PrintItem(x), h, c.p.flags, ",", o.p.hstate, o.p.flags);
      var e := Run(d, ",").c;
      ListIsRead(e, IsConnMatching(h), rest);
      var q := Run(e, PrintList(rest)).c.p;
      ReadsValueBoth(c, PrintItem(x) + ",", o.p.hstate, o.p.flags, PrintList(rest), q.hstate, q.flags);
      MatchingSetsNothing(c.p.flags, h);
    }
  }

  /** A Connection line, from behind its colon: as the next line begins, exactly the seen tokens have set flags. */
  lemma ConnectionIsRead(c: Core, items: seq<Item>)
    requires Going(c) && c.slice.Closed? && c.p.state == Head(HeaderValueDiscardWs) && c.p.hstate.Connection?
    requires items != [] && (forall x <- items :: IsItem(x)) && items[0].before == 0
    ensures
      var text := " " + PrintList(items) + "\r\n";
      var q := Run(c, text).c.p;
      && ReadsHead(c, text, q, Closed, [Data(Value, PrintList(items))])
      && q == c.p.(state := Head(HeaderValueLws), hstate := q.hstate, index := q.index, flags := q.flags)
      && AsField(q).flags == Seen(c.p.flags, false, items)
  {
    hide Transition, Run, Step, Seen;
    SpaceIsDiscarded(c);
    var d := Run(c, " ").c;
    FirstListIsRead(d, items);
    var v := PrintList(items);
    var e := Run(d, v).c;
    ValueEnds(e, v);
    var q := e.p.(state := Head(HeaderValueLws));
    ReadsHeadBoth(d, v, e.p, e.slice, [], "\r\n", q, Closed, [Data(Value, v)]);
    ReadsHeadBoth(c, " ", c.p, Closed, [], v + "\r\n", q, Closed, [Data(Value, v)]);
    assert " " + (v + "\r\n") == " " + v + "\r\n";
  }

  // ---- When all tokens are seen ----

  /** A proper beginning of a known token, with its comma right behind it. */
  predicate Swallows(x: Item) {
    && x.after == 0
    && (Begins(x.token, "keep-alive") || Begins(x.token, "close") || Begins(x.token, "upgrade"))
  }

  /** A proper beginning of a name, in any letter case. */
  predicate Begins(w: string, name: string) {
    |w| < |name| && IsSpelling(w, name[..|w|])
  }

  /** The list holds the token `w`, in any letter case. */
  predicate Names(items: seq<Item>, w: string) {
    exists x :: x in items && IsSpelling(x.token, w)
  }

  predicate IsOneLine(w: string) {
    forall ch <- w :: IsHeaderChar(ch) && ch != CR
  }

  /** A text in lower case says what is spelled, in any letter case. */
  lemma TextSpells(w: string, name: string)
    requires IsOneLine(w) && IsLowerName(name)
    ensures LowerText(w) == name <==> IsSpelling(w, name)
  {
    hide IsHeaderChar, Lower, Spells;
    if |w| == |name| {
      forall i | 0 <= i < |w|
        ensures LowerText(w)[i] == name[i] <==> Spells(w[i], name[i])
      {
        assert w[i] in w;
        LowerSpells(w[i], name[i]);
      }
      if IsSpelling(w, name) {
        assert forall i | 0 <= i < |w| :: LowerText(w)[i] == name[i];
      }
    }
  }

  lemma TextBegins(w: string, name: string)
    requires IsOneLine(w) && IsLowerName(name)
    ensures LowerText(w) <= name && LowerText(w) != name <==> Begins(w, name)
  {
    if |w| < |name| {
      TextSpells(w, name[..|w|]);
    }
    hide LowerText, IsSpelling;
  }

  lemma KnownTokensAreLower()
    ensures IsLowerName("keep-alive") && IsLowerName("close") && IsLowerName("upgrade")
  {
    LettersAreSmall();
  }

  lemma ItemIsOneLine(x: Item)
    requires IsItem(x)
    ensures IsOneLine(x.token) && LowerText(x.token) != ""
  {
    hide IsTokenChar, IsHeaderChar;
    forall ch <- x.token
      ensures IsHeaderChar(ch) && ch != CR
    {
      TokenChars(ch);
    }
  }

  lemma EndStateNames(x: Item)
    requires IsItem(x)
    ensures
      var h := EndState(false, x);
      && (IsConnMatching(h) <==> Swallows(x))
      && (h.ConnKeepAlive? <==> IsSpelling(x.token, "keep-alive"))
      && (h.ConnClose? <==> IsSpelling(x.token, "close"))
      && (h.ConnUpgrade? <==> IsSpelling(x.token, "upgrade"))
  {
    hide TokenState, LowerText, IsSpelling, IsItem, IsOneLine, IsLowerName, Begins;
    ItemIsOneLine(x);
    KnownTokensAreLower();
    TokenNames(LowerText(x.token));
    TextSpells(x.token, "keep-alive");
    TextSpells(x.token, "close");
    TextSpells(x.token, "upgrade");
    TextBegins(x.token, "keep-alive");
    TextBegins(x.token, "close");
    TextBegins(x.token, "upgrade");
    TokensBeginApart();
  }

  /** No beginning of one known token is another one. */
  lemma TokensBeginApart()
    ensures !("keep-alive" <= "close") && !("keep-alive" <= "upgrade")
    ensures !("close" <= "keep-alive") && !("close" <= "upgrade")
    ensures !("upgrade" <= "keep-alive") && !("upgrade" <= "close")
  {
    assert "keep-alive"[0] == 'k' && "close"[0] == 'c' && "upgrade"[0] == 'u';
  }

  lemma TokenNames(v: string)
    requires v != ""
    ensures
      var h := TokenState(v);
      && (IsConnMatching(h) <==>
            && v != "keep-alive" && v != "close" && v != "upgrade"
            && (v <= "keep-alive" || v <= "close" || v <= "upgrade"))
      && (h.ConnKeepAlive? <==> v == "keep-alive")
      && (h.ConnClose? <==> v == "close")
      && (h.ConnUpgrade? <==> v == "upgrade")
  {
    NamesAre();
    hide NameFor;
    if v <= NameFor(MatchingKeepAlive) { OnlyToken(v, 'x', MatchingKeepAlive); }
    if v <= NameFor(MatchingClose) { OnlyToken(v, 'x', MatchingClose); }
    if v <= NameFor(MatchingConnUpgrade) { OnlyToken(v, 'x', MatchingConnUpgrade); }
  }

  lemma NamesAre()
    ensures NameFor(MatchingKeepAlive) == "keep-alive"
    ensures NameFor(MatchingClose) == "close"
    ensures NameFor(MatchingConnUpgrade) == "upgrade"
  {
  }

  /** The flags with those of the three known tokens that are present. */
  function Added(f: Flags, keepAlive: bool, close: bool, upgrade: bool): Flags {
    f.(connKeepAlive := f.connKeepAlive || keepAlive,
       connClose := f.connClose || close,
       connUpgrade := f.connUpgrade || upgrade)
  }

  lemma AddedTwice(f: Flags, a: bool, b: bool, c: bool, x: bool, y: bool, z: bool)
    ensures Added(Added(f, a, b, c), x, y, z) == Added(f, a || x, b || y, c || z)
    ensures Added(f, false, false, false) == f
  {
  }

  lemma TokenAdds(f: Flags, x: Item)
    requires IsItem(x)
    ensures
      EndOfToken(f, EndState(false, x))
        == Added(f, IsSpelling(x.token, "keep-alive"), IsSpelling(x.token, "close"), IsSpelling(x.token, "upgrade"))
  {
    EndStateNames(x);
    hide EndState, Swallows, IsSpelling, IsItem;
  }

  /** The items that are seen: the one behind a swallowed comma is not. */
  function Visible(items: seq<Item>): (seen: seq<Item>)
    ensures forall x <- seen :: x in items
    decreases |items|
  {
    if |items| <= 1 then items
    else if Swallows(items[0]) then [items[0]] + Visible(items[2..])
    else [items[0]] + Visible(items[1..])
  }

  /** The flags added are those of the known tokens that are visible. */
  lemma {:induction false} VisibleAreSeen(f: Flags, items: seq<Item>)
    requires forall x <- items :: IsItem(x)
    ensures
      var v := Visible(items);
      Seen(f, false, items) == Added(f, Names(v, "keep-alive"), Names(v, "close"), Names(v, "upgrade"))
    decreases |items|
  {
    hide EndState, Swallows, IsSpelling, IsItem, Names, Added, EndOfToken;
    if items == [] {
      NamesNone("keep-alive");
      NamesNone("close");
      NamesNone("upgrade");
      AddedTwice(f, false, false, false, false, false, false);
    } else {
      var x, rest := items[0], items[1..];
      assert x in items && (forall y <- rest :: y in items) && items == [x] + rest;
      EndStateNames(x);
      TokenAdds(f, x);
      if rest != [] && Swallows(x) {
        var more := items[2..];
        assert (forall y <- more :: y in items) && items == [x, rest[0]] + more;
        SwallowedTokenIsLost(f, x, rest[0], more);
        VisibleAreSeen(f, more);
        SwallowsNoName(x);
        NamesMoreOf(x, Visible(more));
      } else {
        VisibleAreSeen(EndOfToken(f, EndState(false, x)), rest);
        assert Visible(items) == [x] + Visible(rest);
        NamesMoreOf(x, Visible(rest));
        var w := Visible(rest);
        AddedTwice(f, IsSpelling(x.token, "keep-alive"), IsSpelling(x.token, "close"), IsSpelling(x.token, "upgrade"),
                   Names(w, "keep-alive"), Names(w, "close"), Names(w, "upgrade"));
        SeenOfOne(f, x, rest);
      }
    }
  }

  lemma SeenOfOne(f: Flags, x: Item, rest: seq<Item>)
    requires IsItem(x) && (rest == [] || !Swallows(x))
    ensures Seen(f, false, [x] + rest) == Seen(EndOfToken(f, EndState(false, x)), false, rest)
  {
    EndStateNames(x);
    assert ([x] + rest)[1..] == rest;
    hide EndState, Swallows, IsSpelling, IsItem, EndOfToken;
  }

  lemma SwallowsNoName(x: Item)
    requires IsItem(x) && Swallows(x)
    ensures !IsSpelling(x.token, "keep-alive") && !IsSpelling(x.token, "close") && !IsSpelling(x.token, "upgrade")
  {
    EndStateNames(x);
    hide EndState, Swallows, IsSpelling, IsItem;
  }

  lemma NamesMoreOf(x: Item, rest: seq<Item>)
    ensures forall w :: Names([x] + rest, w) <==> IsSpelling(x.token, w) || Names(rest, w)
  {
    hide Names, IsSpelling;
    forall w ensures Names([x] + rest, w) <==> IsSpelling(x.token, w) || Names(rest, w) {
      NamesMore(x, rest, w);
    }
  }

  /** A name that stands in the list, and is not seen anywhere. */
  predicate Hides(items: seq<Item>, w: string) {
    Names(items, w) && !Names(Visible(items), w)
  }

  /**
    The flags added are those of all known tokens in the list exactly if no token is hidden at each
    place where it stands, unless its flag has been set before. Where no comma is swallowed, none is.
   */
  lemma AllAreSeen(f: Flags, items: seq<Item>)
    requires forall x <- items :: IsItem(x)
    ensures
      Seen(f, false, items) == Added(f, Names(items, "keep-alive"), Names(items, "close"), Names(items, "upgrade"))
      <==> && (f.connKeepAlive || !Hides(items, "keep-alive"))
           && (f.connClose || !Hides(items, "close"))
           && (f.connUpgrade || !Hides(items, "upgrade"))
    ensures (forall i | 0 <= i < |items| - 1 :: !Swallows(items[i])) ==> Visible(items) == items
  {
    VisibleAreSeen(f, items);
    VisibleNames(items, "keep-alive");
    VisibleNames(items, "close");
    VisibleNames(items, "upgrade");
    if forall i | 0 <= i < |items| - 1 :: !Swallows(items[i]) {
      AllAreVisible(items);
    }
    hide Seen, Swallows, IsSpelling, IsItem, Names, Visible;
  }

  lemma VisibleNames(items: seq<Item>, w: string)
    ensures Names(Visible(items), w) ==> Names(items, w)
  {
    hide IsSpelling, Visible;
  }

  lemma {:induction false} AllAreVisible(items: seq<Item>)
    requires forall i | 0 <= i < |items| - 1 :: !Swallows(items[i])
    ensures Visible(items) == items
    decreases |items|
  {
    hide Swallows;
    if |items| > 1 {
      var rest := items[1..];
      assert !Swallows(items[0]);
      forall i | 0 <= i < |rest| - 1 ensures !Swallows(rest[i]) {
        assert rest[i] == items[i + 1];
      }
      AllAreVisible(rest);
    }
  }

  lemma NamesNone(w: string)
    ensures !Names([], w)
  {
  }

  lemma NamesMore(x: Item, rest: seq<Item>, w: string)
    ensures Names([x] + rest, w) <==> IsSpelling(x.token, w) || Names(rest, w)
  {
    if IsSpelling(x.token, w) {
      assert x in [x] + rest;
    }
    if Names(rest, w) {
      var y :| y in rest && IsSpelling(y.token, w);
      assert y in [x] + rest;
    }
  }

  /** A comma that is swallowed hides the token behind it, whatever that is; those behind that are seen again. */
  lemma SwallowedTokenIsLost(f: Flags, x: Item, y: Item, rest: seq<Item>)
    requires IsItem(x) && Swallows(x)
    ensures Seen(f, false, [x, y] + rest) == Seen(f, false, rest)
  {
    assert ([x, y] + rest)[1..] == [y] + rest && ([y] + rest)[1..] == rest;
    EndStateNames(x);
    MatchingSetsNothing(f, EndState(false, x));
    hide Swallows, IsSpelling, IsItem, TokenState;
    assert Seen(f, true, [y] + rest) == Seen(f, false, rest);
  }

  lemma ClosIsSwallowed()
    ensures Swallows(Item(0, "clos", 0)) && IsItem(Item(0, "clos", 0)) && IsItem(Item(0, "keep-alive", 0))
    ensures IsSpelling("keep-alive", "keep-alive")
  {
    assert "clos" == "close"[..4];
    assert forall i | 0 <= i < 4 :: Spells("clos"[i], "clos"[i]);
    assert Begins("clos", "close");
    assert forall i | 0 <= i < 10 :: Spells("keep-alive"[i], "keep-alive"[i]);
  }

  lemma ClosIsPrinted()
    ensures PrintList([Item(0, "clos", 0), Item(0, "keep-alive", 0)]) == "clos,keep-alive"
  {
    var x, y := Item(0, "clos", 0), Item(0, "keep-alive", 0);
    assert PrintItem(x) == "clos" && PrintItem(y) == "keep-alive";
    assert [x, y][1..] == [y];
    hide PrintItem;
    assert "clos" + "," + "keep-alive" == "clos,keep-alive";
  }

  /** Such as a keep-alive behind "clos": the line is accepted, the token stands in it, and no flag is set. */
  lemma ClosHidesKeepAlive(c: Core)
    requires Going(c) && c.slice.Closed? && c.p.state == Head(HeaderValueDiscardWs) && c.p.hstate.Connection?
    ensures
      var text := " " + "clos,keep-alive" + "\r\n";
      var q := Run(c, text).c.p;
      && q.errno == OK && q.state == Head(HeaderValueLws) && AsField(q).flags == c.p.flags
    ensures Hides([Item(0, "clos", 0), Item(0, "keep-alive", 0)], "keep-alive")
  {
    hide Run, IsSpelling, IsItem, Swallows, PrintList, AsField;
    var x, y := Item(0, "clos", 0), Item(0, "keep-alive", 0);
    var items := [x, y];
    ClosIsSwallowed();
    ClosIsPrinted();
    ConnectionIsRead(c, items);
    SwallowedTokenIsLost(c.p.flags, x, y, []);
    assert [x, y] + [] == items && items[2..] == [];
    SwallowsNoName(x);
    assert y in items;
    assert Visible(items) == [x];
  }
}
