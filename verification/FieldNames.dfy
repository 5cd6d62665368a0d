/** Field names: what `s_header_field` recognises is case-insensitive equality with five names. */
module FieldNames {
  import opened Chars
  import opened Alphabets
  import opened ParserTypes
  import opened Transitions
  import opened Machine
  import opened Invariant
  import opened Runs

  /** A name in lower case. */
  function LowerName(w: string): (v: string)
    ensures |v| == |w|
  {
    seq(|w|, i requires 0 <= i < |w| => TokenOf(w[i]))
  }

  predicate IsName(w: string) {
    w != "" && forall ch <- w :: IsToken(ch)
  }

  /** How far the letters `v` have got with the name of `h`. */
  function Progress(v: string, h: HeaderState): HeaderState {
    if |v| < |NameFor(h)| then h else Matched(h)
  }

  /** What the letters `v` of a name have been recognised as; two names begin with "con". */
  function NameState(v: string): HeaderState {
    if v <= NameFor(MatchingConnection) then
      if |v| <= 1 then C else if |v| == 2 then CO else if |v| == 3 then CON else Progress(v, MatchingConnection)
    else if v <= NameFor(MatchingContentLength) then Progress(v, MatchingContentLength)
    else if v <= NameFor(MatchingProxyConnection) then Progress(v, MatchingProxyConnection)
    else if v <= NameFor(MatchingTransferEncoding) then Progress(v, MatchingTransferEncoding)
    else if v <= NameFor(MatchingUpgrade) then Progress(v, MatchingUpgrade)
    else General
  }

  /** `index` behind the letters `v`: it counts only while something may still be recognised. */
  function NameIndex(v: string): nat {
    if |v| <= 1 then 0 else NextIndex(NameState(v[..|v| - 1]), NameIndex(v[..|v| - 1]))
  }

  lemma PrefixStep(v: string, c: char, name: string)
    ensures v + [c] <= name <==> v <= name && |v| < |name| && c == name[|v|]
    ensures v + [c] == name <==> v <= name && |v| + 1 == |name| && c == name[|v|]
  {
    if |v| < |name| {
      assert name[..|v| + 1] == name[..|v|] + [name[|v|]];
    }
  }

  /** The five matching states of a field name. */
  predicate IsMatching(h: HeaderState) {
    || h.MatchingConnection? || h.MatchingContentLength? || h.MatchingProxyConnection?
    || h.MatchingTransferEncoding? || h.MatchingUpgrade?
  }

  predicate BothCon(h: HeaderState, g: HeaderState) {
    || (h.MatchingConnection? && g.MatchingContentLength?)
    || (h.MatchingContentLength? && g.MatchingConnection?)
  }

  /** Where the names of two matching states part. */
  function Fork(h: HeaderState, g: HeaderState): nat {
    if BothCon(h, g) then 3 else 0
  }

  lemma NamesPart(h: HeaderState, g: HeaderState)
    requires IsMatching(h) && IsMatching(g) && h != g
    ensures 7 <= |NameFor(h)| && 7 <= |NameFor(g)|
    ensures NameFor(h)[Fork(h, g)] != NameFor(g)[Fork(h, g)]
    ensures BothCon(h, g) ==> NameFor(h)[..3] == NameFor(g)[..3] == "con"
  {
  }

  /** Letters that have passed the fork towards the name of `h` do not begin the name of `g`. */
  lemma Apart(v: string, c: char, h: HeaderState, g: HeaderState)
    requires IsMatching(h) && IsMatching(g) && h != g
    requires v <= NameFor(h) && |v| > Fork(h, g)
    ensures !(v <= NameFor(g)) && !(v + [c] <= NameFor(g))
  {
    hide NameFor;
    NamesPart(h, g);
    assert (v + [c])[Fork(h, g)] == v[Fork(h, g)];
  }

  lemma FirstLetterOfName(c: char)
    ensures FieldStartState(c) == NameState([c])
  {
    assert [] + [c] == [c];
    PrefixStep([], c, NameFor(MatchingConnection));
    PrefixStep([], c, NameFor(MatchingContentLength));
    PrefixStep([], c, NameFor(MatchingProxyConnection));
    PrefixStep([], c, NameFor(MatchingTransferEncoding));
    PrefixStep([], c, NameFor(MatchingUpgrade));
  }

  predicate Follows(v: string, c: char) {
    FieldLetter(NameState(v), NameIndex(v), c) == NameState(v + [c])
  }

  /** The letters `v` belong to the name of `h` and to no other. */
  predicate Only(v: string, h: HeaderState) {
    v <= NameFor(h) && NameState(v) == Progress(v, h)
  }

  /** With or without one more letter, `v` begins no name but that of `h`. */
  lemma OnlyOne(v: string, c: char, h: HeaderState)
    requires IsMatching(h) && v != "" && v <= NameFor(h)
    requires h.MatchingConnection? || h.MatchingContentLength? ==> |v| > 3
    ensures Only(v, h)
    ensures if v + [c] <= NameFor(h) then Only(v + [c], h) else NameState(v + [c]).General?
  {
    hide NameFor;
    if h != MatchingConnection { Apart(v, c, h, MatchingConnection); }
    if h != MatchingContentLength { Apart(v, c, h, MatchingContentLength); }
    if h != MatchingProxyConnection { Apart(v, c, h, MatchingProxyConnection); }
    if h != MatchingTransferEncoding { Apart(v, c, h, MatchingTransferEncoding); }
    if h != MatchingUpgrade { Apart(v, c, h, MatchingUpgrade); }
  }

  lemma OnlyFollows(v: string, c: char, h: HeaderState)
    requires IsMatching(h) && v != "" && v <= NameFor(h) && c != '\0'
    requires h.MatchingConnection? || h.MatchingContentLength? ==> |v| > 3
    requires |v| < |NameFor(h)| ==> NameIndex(v) == |v| - 1
    ensures Follows(v, c)
  {
    hide NameFor, NameState, NameIndex;
    OnlyOne(v, c, h);
    PrefixStep(v, c, NameFor(h));
  }

  lemma InCon(v: string, c: char)
    requires v != "" && |v| <= 3 && v <= NameFor(MatchingConnection)
    ensures Follows(v, c)
  {
    PrefixStep(v, c, NameFor(MatchingConnection));
    PrefixStep(v, c, NameFor(MatchingContentLength));
    assert v[0] == 'c' && (v + [c])[0] == 'c';
  }

  lemma InGeneral(v: string, c: char)
    requires NameState(v).General?
    ensures Follows(v, c)
  {
    hide NameFor;
    PrefixStep(v, c, NameFor(MatchingConnection));
    PrefixStep(v, c, NameFor(MatchingContentLength));
    PrefixStep(v, c, NameFor(MatchingProxyConnection));
    PrefixStep(v, c, NameFor(MatchingTransferEncoding));
    PrefixStep(v, c, NameFor(MatchingUpgrade));
    NamesAreLong();
  }

  lemma NamesAreLong()
    ensures forall h | IsMatching(h) :: |NameFor(h)| >= 7
    ensures NameFor(MatchingContentLength)[..3] == "con"
  {
  }

  /** One more letter of a name. */
  lemma NextLetterOfName(v: string, c: char)
    requires v != "" && c != '\0'
    requires CountsFieldLetters(NameState(v)) ==> NameIndex(v) == |v| - 1
    ensures Follows(v, c)
  {
    hide NameFor, Follows, NameIndex;
    if v <= NameFor(MatchingConnection) {
      if |v| <= 3 {
        InCon(v, c);
      } else {
        OnlyFollows(v, c, MatchingConnection);
      }
    } else if v <= NameFor(MatchingContentLength) {
      ConIsShared(v);
      OnlyFollows(v, c, MatchingContentLength);
    } else if v <= NameFor(MatchingProxyConnection) {
      OnlyFollows(v, c, MatchingProxyConnection);
    } else if v <= NameFor(MatchingTransferEncoding) {
      OnlyFollows(v, c, MatchingTransferEncoding);
    } else if v <= NameFor(MatchingUpgrade) {
      OnlyFollows(v, c, MatchingUpgrade);
    } else {
      InGeneral(v, c);
    }
  }

  lemma ConIsShared(v: string)
    requires v <= NameFor(MatchingContentLength)
    ensures |v| <= 3 ==> v <= NameFor(MatchingConnection)
  {
    hide NameFor;
    NamesPart(MatchingConnection, MatchingContentLength);
  }

  lemma NextIndexOfName(v: string, c: char)
    requires v != "" && Follows(v, c)
    requires CountsFieldLetters(NameState(v)) ==> NameIndex(v) == |v| - 1
    ensures NameIndex(v + [c]) == NextIndex(NameState(v), NameIndex(v))
    ensures CountsFieldLetters(NameState(v + [c])) ==> NameIndex(v + [c]) == |v|
  {
    hide NameState;
    assert (v + [c])[..|v|] == v;
  }

  // ---- A whole name ----

  /** The letters `v` pass the end of "content-length". */
  predicate NamesLength(v: string) {
    NameFor(MatchingContentLength) <= v
  }

  /** The parser behind the letters `v` of a name; `p` is the parser at the start of the field. */
  function InName(p: Parser, v: string): Parser {
    p.(state := Head(HeaderField), hstate := NameState(v), index := NameIndex(v),
       flags := if NamesLength(v) then p.flags.(contentLength := true) else p.flags)
  }

  lemma LengthIsNamed(v: string, c: char)
    requires v != "" && c != '\0' && Follows(v, c)
    ensures NamesLength(v + [c]) <==> NamesLength(v) || (NameState(v).MatchingContentLength? && NameState(v + [c]).ContentLength?)
  {
    hide NameFor, NameIndex, FieldLetter;
    PrefixStep(v, c, NameFor(MatchingContentLength));
    PrefixStep(v, c, NameFor(MatchingConnection));
    if NamesLength(v + [c]) && !NamesLength(v) {
      assert |v| + 1 == |NameFor(MatchingContentLength)|;
      NamesPart(MatchingConnection, MatchingContentLength);
    }
  }

  /** The letters so far are counted while they may still become a name. */
  predicate Tracked(v: string) {
    v != "" && (CountsFieldLetters(NameState(v)) ==> NameIndex(v) == |v| - 1)
  }

  lemma TokensAreNotNul(ch: char)
    requires IsToken(ch)
    ensures TokenOf(ch) != '\0'
  {
  }

  /** A second Content-Length is refused as soon as the name is complete. */
  lemma NameByte(p: Parser, v: string, ch: char)
    requires Tracked(v) && IsToken(ch)
    requires !(NamesLength(v) && p.flags.contentLength)
    ensures
      var w := v + [TokenOf(ch)];
      var o := OnField(InName(p, v), ch);
      && Tracked(w)
      && (if NamesLength(w) && p.flags.contentLength then o.p.errno == UNEXPECTED_CONTENT_LENGTH
          else o == Stay(InName(p, w)))
  {
    hide NameState, NameIndex, NamesLength, IsToken, TokenOf, FieldLetter, CountsFieldLetters;
    var c := TokenOf(ch);
    TokensAreNotNul(ch);
    NextLetterOfName(v, c);
    NextIndexOfName(v, c);
    LengthIsNamed(v, c);
    LengthWins(v, c);
  }

  lemma LengthWins(v: string, c: char)
    ensures v != "" && NamesLength(v) ==> !NameState(v).MatchingContentLength?
  {
    NamesPart(MatchingConnection, MatchingContentLength);
    hide NameFor;
  }

  lemma OnFieldIs(p: Parser, skipping: bool, ch: char)
    requires p.state == Head(HeaderField)
    ensures Transition(p, skipping, ch) == OnField(p, ch)
  {
    hide OnField;
  }

  /** The rest `w` of a name of which `v` has been read, from the start of the field in `p`. */
  lemma {:induction false} RestOfName(c: Core, p: Parser, v: string, w: string)
    requires Going(c) && c.p == InName(p, v) && p.errno == OK && c.slice.Open?
    requires Tracked(v) && forall ch <- w :: IsToken(ch)
    requires !(NamesLength(v) && p.flags.contentLength)
    ensures
      var u := v + LowerName(w);
      if NamesLength(u) && p.flags.contentLength then Run(c, w).c.p.errno == UNEXPECTED_CONTENT_LENGTH
      else ReadsHead(c, w, InName(p, u), Open(c.slice.kind, c.slice.bytes + w), [])
    decreases |w|
  {
    hide Clean, Transition, OnField, NameState, NameIndex, NamesLength, IsToken, TokenOf;
    if w == "" {
      assert v + LowerName(w) == v && c.slice.bytes + w == c.slice.bytes;
      ReadsNothing(c);
    } else {
      var ch := w[0];
      var v' := v + [TokenOf(ch)];
      assert v + LowerName(w) == v' + LowerName(w[1..]);
      assert c.slice.bytes + w == c.slice.bytes + [ch] + w[1..];
      NameByte(p, v, ch);
      OnFieldIs(c.p, c.skipping, ch);
      var d := Step(c, ch).c;
      RunStopped(d, w[1..]);
      if NamesLength(v') && p.flags.contentLength {
        LengthStays(v', LowerName(w[1..]));
      } else {
        ReadsByte(c, ch, Stay(InName(p, v')));
        RestOfName(d, p, v', w[1..]);
        assert w == [ch] + w[1..];
        RunAppend(c, [ch], w[1..]);
        CleanAppend(c, [ch], w[1..]);
      }
    }
  }

  lemma LengthStays(v: string, w: string)
    requires NamesLength(v)
    ensures NamesLength(v + w)
  {
  }

  /** The states in which a field may begin: after the first line, and after another field. */
  predicate AtField(p: Parser) {
    || p.state == Head(HeaderFieldStart) || p.state == Head(HeaderValueLws)
    || p.state == Head(HeaderValueDiscardLws)
  }

  /** The parser as a field begins: the line before is over. */
  function AsField(p: Parser): Parser {
    if p.state == Head(HeaderFieldStart) then p else EndOfLine(p)
  }

  /** An empty value is reported only when the next line begins. */
  function Owed(p: Parser): seq<Event> {
    if p.state == Head(HeaderValueDiscardLws) then [Data(Value, "")] else []
  }

  lemma OnFieldStartIs(p: Parser, skipping: bool, ch: char)
    requires AtField(p) && ch != ' ' && ch != '\t'
    ensures Transition(p, skipping, ch) == OnFieldStart(AsField(p), ch, Owed(p))
  {
    hide OnFieldStart;
  }

  lemma OnFieldStartMarks(p: Parser, ch: char, owed: seq<Event>)
    requires IsToken(ch)
    ensures
      var v := [TokenOf(ch)];
      && Tracked(v) && !NamesLength(v)
      && OnFieldStart(p, ch, owed) == ToMarking(InName(p, v), Head(HeaderField), Field).(notes := owed)
  {
    FirstLetterOfName(TokenOf(ch));
    NamesAreLong();
    hide NameState;
  }

  /** The parser behind a whole name and its colon. */
  function AfterName(p: Parser, w: string): Parser {
    InName(p, LowerName(w)).(state := Head(HeaderValueDiscardWs))
  }

  lemma InNameKeeps(p: Parser, v: string)
    ensures InName(p, v).errno == p.errno && InName(p, v).state == Head(HeaderField)
  {
  }

  lemma NameIsMarked(c: Core, w: string)
    requires Going(c) && AtField(c.p) && c.slice.Closed? && IsName(w)
    ensures
      var p := AsField(c.p);
      var v := LowerName(w);
      if NamesLength(v) && p.flags.contentLength then Run(c, w).c.p.errno == UNEXPECTED_CONTENT_LENGTH
      else ReadsHead(c, w, InName(p, v), Open(Field, w), Owed(c.p))
  {
    hide Run, Clean, Step, Transition, OnFieldStart, InName, NamesLength, IsToken, TokenOf, Owed, EndOfLine, Tracked;
    var p, ch, rest := AsField(c.p), w[0], w[1..];
    assert ch in w && IsToken(ch) && forall x <- rest :: x in w;
    SpacesAreNoTokens();
    OnFieldStartIs(c.p, c.skipping, ch);
    OnFieldStartMarks(p, ch, Owed(c.p));
    InNameKeeps(p, [TokenOf(ch)]);
    ReadsByte(c, ch, ToMarking(InName(p, [TokenOf(ch)]), Head(HeaderField), Field).(notes := Owed(c.p)));
    var d := Run(c, [ch]).c;
    RestOfName(d, p, [TokenOf(ch)], rest);
    var v := LowerName(w);
    assert w == [ch] + rest && v == [TokenOf(ch)] + LowerName(rest);
    if NamesLength(v) && p.flags.contentLength {
      RunAppend(c, [ch], rest);
    } else {
      ReadsHeadBoth(c, [ch], d.p, d.slice, Owed(c.p), rest, InName(p, v), Open(Field, w), []);
      assert Owed(c.p) + [] == Owed(c.p);
    }
  }

  lemma SpacesAreNoTokens()
    ensures !IsToken(' ') && !IsToken('\t') && !IsToken(':') && !IsToken(CR) && !IsToken(LF)
  {
  }

  /** A name and a colon: all that can go wrong is a second Content-Length. */
  lemma NameIsRead(c: Core, w: string)
    requires Going(c) && AtField(c.p) && c.slice.Closed? && IsName(w)
    ensures
      var p := AsField(c.p);
      if NamesLength(LowerName(w)) && p.flags.contentLength then
        Run(c, w + ":").c.p.errno == UNEXPECTED_CONTENT_LENGTH
      else ReadsHead(c, w + ":", AfterName(p, w), Closed, Owed(c.p) + [Data(Field, w)])
  {
    hide Transition, OnFieldStart, NameState, NameIndex, NamesLength, IsToken, TokenOf, LowerName, Owed;
    NameIsMarked(c, w);
    RunAppend(c, w, ":");
    var p := AsField(c.p);
    var d := Run(c, w).c;
    RunStopped(d, ":");
    if !(NamesLength(LowerName(w)) && p.flags.contentLength) {
      SpacesAreNoTokens();
      OnFieldIs(d.p, d.skipping, ':');
      ReadsByte(d, ':', ToFlushing(d.p, Head(HeaderValueDiscardWs), Field));
      ReadsHeadBoth(c, w, d.p, d.slice, Owed(c.p), ":", AfterName(p, w), Closed, [Data(Field, w)]);
    }
  }

  /** A name in lower case says what is spelled, in any letter case. */
  lemma LowerNameSpells(w: string, name: string)
    requires IsName(w) && IsLowerName(name)
    ensures LowerName(w) == name <==> IsSpelling(w, name)
  {
    hide IsToken, TokenOf, Spells;
    if |w| == |name| {
      forall i | 0 <= i < |w|
        ensures LowerName(w)[i] == name[i] <==> Spells(w[i], name[i])
      {
        assert w[i] in w;
        TokenSpells(w[i], name[i]);
      }
      if IsSpelling(w, name) {
        assert forall i | 0 <= i < |w| :: LowerName(w)[i] == name[i];
      }
    }
  }

  /** So does the beginning of a name. */
  lemma LowerNameBegins(w: string, name: string)
    requires IsName(w) && IsLowerName(name) && name != ""
    ensures name <= LowerName(w) <==> |w| >= |name| && IsSpelling(w[..|name|], name)
  {
    if |w| >= |name| {
      var u := w[..|name|];
      assert forall ch <- u :: ch in w;
      assert LowerName(u) == LowerName(w)[..|name|];
      LowerNameSpells(u, name);
    }
    hide LowerName, IsSpelling;
  }

  /** What is spelled like a name of letters and dashes is a token. */
  lemma SpellingIsName(w: string, name: string)
    requires IsSpelling(w, name) && IsLowerName(name) && name != ""
    ensures IsName(w)
  {
    forall i | 0 <= i < |w|
      ensures IsToken(w[i])
    {
      assert Spells(w[i], name[i]);
      CapitalsAre(w[i], name[i]);
      SmallAre(name[i]);
    }
  }

  const CONNECTION_SPELLED := "connection"
  const PROXY_SPELLED := "proxy-connection"
  const LENGTH_SPELLED := "content-length"
  const CODING_SPELLED := "transfer-encoding"
  const UPGRADE_SPELLED := "upgrade"

  lemma NamesAreLower()
    ensures IsLowerName(CONNECTION_SPELLED) && IsLowerName(PROXY_SPELLED) && IsLowerName(LENGTH_SPELLED)
    ensures IsLowerName(CODING_SPELLED) && IsLowerName(UPGRADE_SPELLED)
  {
    LettersAreSmall();
    hide IsLetter;
  }

  lemma LettersAreSmall()
    ensures forall c | c in "acdefghiklnoprstuvxy" :: c in SMALL
  {
  }

  /** Behind the colon, the parser knows exactly the five names, in any letter case. */
  lemma NameIsRecognised(c: Core, w: string)
    requires Going(c) && AtField(c.p) && c.slice.Closed? && IsName(w)
    requires Run(c, w + ":").c.p.errno == OK
    ensures
      var q := Run(c, w + ":").c.p;
      && q.state == Head(HeaderValueDiscardWs)
      && (q.hstate.Connection? <==> IsSpelling(w, CONNECTION_SPELLED) || IsSpelling(w, PROXY_SPELLED))
      && (q.hstate.ContentLength? <==> IsSpelling(w, LENGTH_SPELLED))
      && (q.hstate.TransferEncoding? <==> IsSpelling(w, CODING_SPELLED))
      && (q.hstate.Upgrade? <==> IsSpelling(w, UPGRADE_SPELLED))
      && q.flags == AsField(c.p).flags.(contentLength :=
           AsField(c.p).flags.contentLength || (|w| >= 14 && IsSpelling(w[..14], LENGTH_SPELLED)))
  {
    hide Transition, NameIndex, LowerName, Run, IsSpelling, IsLowerName;
    NameIsRead(c, w);
    KnownNames(LowerName(w));
    NamesAreLower();
    LowerNameSpells(w, CONNECTION_SPELLED);
    LowerNameSpells(w, PROXY_SPELLED);
    LowerNameSpells(w, LENGTH_SPELLED);
    LowerNameSpells(w, CODING_SPELLED);
    LowerNameSpells(w, UPGRADE_SPELLED);
    LowerNameBegins(w, LENGTH_SPELLED);
  }

  /** Any spelling of one of the five is a name that is recognised, unless it is a second length. */
  lemma SpellingIsRecognised(c: Core, w: string, name: string)
    requires Going(c) && AtField(c.p) && c.slice.Closed?
    requires name in [CONNECTION_SPELLED, PROXY_SPELLED, LENGTH_SPELLED, CODING_SPELLED, UPGRADE_SPELLED]
    requires IsSpelling(w, name)
    ensures
      var q := Run(c, w + ":").c.p;
      if name == LENGTH_SPELLED && AsField(c.p).flags.contentLength then q.errno == UNEXPECTED_CONTENT_LENGTH
      else
        && q.errno == OK && q.state == Head(HeaderValueDiscardWs)
        && (name == CONNECTION_SPELLED || name == PROXY_SPELLED ==> q.hstate.Connection?)
        && (name == LENGTH_SPELLED ==> q.hstate.ContentLength?)
        && (name == CODING_SPELLED ==> q.hstate.TransferEncoding?)
        && (name == UPGRADE_SPELLED ==> q.hstate.Upgrade?)
  {
    hide Transition, NameIndex, LowerName, Run, IsSpelling, IsLowerName, AsField;
    NamesAreLower();
    SpellingIsName(w, name);
    LowerNameSpells(w, name);
    NameIsRead(c, w);
    if !(name == LENGTH_SPELLED && AsField(c.p).flags.contentLength) {
      OnlyLengthBegins(name);
      NameIsRecognised(c, w);
    }
  }

  lemma OnlyLengthBegins(name: string)
    requires name in [CONNECTION_SPELLED, PROXY_SPELLED, LENGTH_SPELLED, CODING_SPELLED, UPGRADE_SPELLED]
    ensures NamesLength(name) <==> name == LENGTH_SPELLED
  {
    if name == PROXY_SPELLED { assert name[0] == 'p'; }
    if name == CODING_SPELLED { assert name[0] == 't'; }
  }

  lemma KnownNames(v: string)
    requires v != ""
    ensures NameState(v).Connection? <==> v == "connection" || v == "proxy-connection"
    ensures NameState(v).ContentLength? <==> v == "content-length"
    ensures NameState(v).TransferEncoding? <==> v == "transfer-encoding"
    ensures NameState(v).Upgrade? <==> v == "upgrade"
  {
    if v == "connection" { OnlyOne(v, 'x', MatchingConnection); }
    if v == "content-length" { OnlyOne(v, 'x', MatchingContentLength); }
    if v == "proxy-connection" { OnlyOne(v, 'x', MatchingProxyConnection); }
    if v == "transfer-encoding" { OnlyOne(v, 'x', MatchingTransferEncoding); }
    if v == "upgrade" { OnlyOne(v, 'x', MatchingUpgrade); }
  }
}
