/**
  The account of a message: the lengths that it reports, and the bytes of its body.

  It is kept from the callbacks alone, as a caller could keep it, and however they are cut.
 */
module Accounts {
  import opened Chars
  import opened Alphabets
  import opened ParserTypes
  import opened Transitions
  import opened Machine
  import opened Invariant
  import opened Traces
  import opened Segmentation
  import opened FieldNames
  import opened Lengths

  /** What the last callback was, as far as it matters to the next one. */
  datatype Told = Names | Values | Bodies | Ended | Other

  /**
    `lengths`: the values reported behind a Content-Length name; `body`: the bytes of a body;
    `asks`: a value that is not empty has been reported behind an Upgrade name.
   */
  datatype Account = Account(last: Told, name: string, lengths: seq<string>, body: nat, asks: bool)

  const NO_ACCOUNT := Account(Other, "", [], 0, false)

  predicate NamesAnUpgrade(a: Account) {
    IsSpelling(a.name, UPGRADE_SPELLED)
  }

  predicate NamesALength(a: Account) {
    IsSpelling(a.name, LENGTH_SPELLED)
  }

  /** One more slice of a value. */
  function WithLength(a: Account, bytes: string): seq<string> {
    if !NamesALength(a) then a.lengths
    else if a.last.Values? && a.lengths != [] then
      a.lengths[..|a.lengths| - 1] + [a.lengths[|a.lengths| - 1] + bytes]
    else a.lengths + [bytes]
  }

  /** The account after one more callback. */
  function Booked(a: Account, e: Event): Account {
    match e
    case Data(Field, bytes) => a.(last := Names, name := if a.last.Names? then a.name + bytes else bytes)
    case Data(Value, bytes) =>
      a.(last := Values, lengths := WithLength(a, bytes), asks := a.asks || (bytes != "" && NamesAnUpgrade(a)))
    case Data(Body, bytes) => a.(last := Bodies, body := a.body + |bytes|)
    case MessageBegin => NO_ACCOUNT
    case HeadersComplete(_, _) => a.(last := Other, body := 0)
    case MessageComplete => a.(last := if a.last.Bodies? then Ended else Other)
    case _ => a.(last := Other)
  }

  function BookAll(a: Account, events: seq<Event>): Account
    decreases |events|
  {
    if events == [] then a else BookAll(Booked(a, events[0]), events[1..])
  }

  lemma {:induction false} BookAppend(a: Account, x: seq<Event>, y: seq<Event>)
    ensures BookAll(a, x + y) == BookAll(BookAll(a, x), y)
    decreases |x|
  {
    if x == [] {
      assert x + y == y;
    } else {
      assert (x + y)[1..] == x[1..] + y;
      BookAppend(Booked(a, x[0]), x[1..], y);
    }
  }

  lemma BookOne(a: Account, e: Event)
    ensures BookAll(a, [e]) == Booked(a, e)
  {
    assert [e][1..] == [];
  }

  lemma BookTwo(a: Account, e: Event, f: Event)
    ensures BookAll(a, [e, f]) == Booked(Booked(a, e), f)
  {
    assert [e, f][1..] == [f];
    BookOne(Booked(a, e), f);
  }

  // ---- Cuts do not matter to it ----

  /** A slice that is cut is booked as it would be whole. */
  lemma BookJoined(a: Account, kind: Kind, x: string, y: string)
    ensures Booked(Booked(a, Data(kind, x)), Data(kind, y)) == Booked(a, Data(kind, x + y))
  {
    hide IsSpelling;
    assert a.name + x + y == a.name + (x + y);
    if kind.Value? && NamesALength(a) {
      var b := Booked(a, Data(kind, x));
      var k := |b.lengths| - 1;
      assert b.lengths[..k] + [b.lengths[k] + y] == Booked(a, Data(kind, x + y)).lengths by {
        if a.last.Values? && a.lengths != [] {
          assert b.lengths[k] == a.lengths[|a.lengths| - 1] + x;
          assert a.lengths[|a.lengths| - 1] + x + y == a.lengths[|a.lengths| - 1] + (x + y);
          assert b.lengths[..k] == a.lengths[..|a.lengths| - 1];
        } else {
          assert b.lengths[..k] == a.lengths;
        }
      }
    }
  }

  lemma BookJoin(a: Account, t: seq<Event>, e: Event)
    ensures BookAll(a, Join(t, e)) == Booked(BookAll(a, t), e)
  {
    hide Booked;
    if Join(t, e) == t + [e] {
      BookAppend(a, t, [e]);
      BookOne(BookAll(a, t), e);
    } else {
      var u, f := t[..|t| - 1], t[|t| - 1];
      assert t == u + [f];
      BookAppend(a, u, [f]);
      BookOne(BookAll(a, u), f);
      var g := Data(e.kind, f.bytes + e.bytes);
      BookAppend(a, u, [g]);
      BookOne(BookAll(a, u), g);
      BookJoined(BookAll(a, u), e.kind, f.bytes, e.bytes);
    }
  }

  lemma {:induction false} BookJoinAll(a: Account, t: seq<Event>, events: seq<Event>)
    ensures BookAll(a, JoinAll(t, events)) == BookAll(BookAll(a, t), events)
    decreases |events|
  {
    hide Booked, Join;
    if events != [] {
      BookJoin(a, t, events[0]);
      BookJoinAll(a, Join(t, events[0]), events[1..]);
    }
  }

  // ---- What the parser's state says of the account ----

  /** One length has been reported, and it is `k`. */
  predicate Reported(a: Account, k: int) {
    |a.lengths| == 1 && IsLength(a.lengths[0]) && Decimal(0, a.lengths[0]) == k
  }

  /** Between two headers: `content_length` is the length reported, if it is known. */
  predicate Settled(p: Parser, a: Account) {
    && (p.flags.contentLength || a.lengths == [])
    && (p.contentLength == NO_LENGTH || Reported(a, p.contentLength))
  }

  /** No length has been reported, and the parser knows none. */
  predicate Unreported(p: Parser, a: Account) {
    a.lengths == [] && p.contentLength == NO_LENGTH
  }

  /** The letters of the name so far, and what they have been recognised as. */
  predicate NameFits(p: Parser, w: string, a: Account) {
    var v := LowerName(w);
    && IsName(w) && Tracked(v) && p.hstate == NameState(v) && p.index == NameIndex(v)
    && (NamesLength(v) ==> p.flags.contentLength && Unreported(p, a))
  }

  /** Behind a name: it is in the account, and recognised if it is Content-Length. */
  predicate ValueFits(p: Parser, a: Account) {
    && (p.hstate.ContentLength? <==> NamesALength(a))
    && (p.hstate.ContentLength? ==> a.last.Names? && Unreported(p, a))
  }

  /** In a value: that of a Content-Length is a length so far. */
  predicate BytesFit(p: Parser, x: string, a: Account) {
    && (p.hstate.ContentLength? <==> NamesALength(a))
    && (if p.hstate.ContentLength? then
          && a.last.Names? && a.lengths == [] && p.flags.contentLength
          && IsLength(x) && p.contentLength == Decimal(0, x)
        else Settled(p, a))
  }

  predicate HeadBooks(p: Parser, s: HeadState, slice: Slice, a: Account) {
    match s
    case HeaderFieldStart => !a.last.Names? && Settled(p, a)
    case HeadersAlmostDone => Settled(p, a)
    case HeaderField =>
      !a.last.Names? && slice.Open? && slice.kind == Field && NameFits(p, slice.bytes, a) && Settled(p, a)
    case HeaderValueDiscardWs => ValueFits(p, a) && Settled(p, a)
    case HeaderValueDiscardWsAlmostDone => ValueFits(p, a) && Settled(p, a)
    case HeaderValueDiscardLws => ValueFits(p, a) && Settled(p, a)
    case HeaderValue => slice.Open? && slice.kind == Value && BytesFit(p, slice.bytes, a)
    case HeaderAlmostDone => a.last.Values? && (p.hstate.ContentLength? <==> NamesALength(a)) && Settled(p, a)
    case HeaderValueLws => a.last.Values? && (p.hstate.ContentLength? <==> NamesALength(a)) && Settled(p, a)
    case _ => true
  }

  /** The bytes that are marked and not told yet. */
  function Marking(slice: Slice): nat {
    if slice.Open? then |slice.bytes| else 0
  }

  /**
    The parser against the account of what it has told: in a body of known length, the bytes told,
    those marked and those awaited add up to the length that was reported; behind it, all are told.
   */
  predicate Balances(p: Parser, slice: Slice, a: Account) {
    match p.state
    case Idle(_) => a.last.Ended? ==> Reported(a, a.body)
    case Line(_) => !a.last.Names? && a.lengths == []
    case Head(s) => p.flags.trailing || HeadBooks(p, s, slice, a)
    case Content(s) => s.BodyIdentity? ==> Reported(a, a.body + Marking(slice) + p.contentLength)
    case Chunk(_) => true
  }

  /** What one byte leaves of the balance, given its outcome. */
  predicate StaysBalanced(slice: Slice, a: Account, o: Outcome, ch: char) {
    o.p.errno == OK ==>
      var (s, events) := Hand(slice, o.flush, ch);
      Balances(o.p, Extend(s, o.mark, ch), BookAll(a, events + o.notes))
  }

  // ---- Every byte keeps the balance ----

  lemma NothingTold(slice: Slice, a: Account, o: Outcome, ch: char)
    requires o.flush == Keep && o.notes == []
    ensures
      var (s, events) := Hand(slice, o.flush, ch);
      s == slice && BookAll(a, events + o.notes) == a
  {
    assert Hand(slice, o.flush, ch).1 + o.notes == [];
  }

  lemma OneNote(slice: Slice, a: Account, o: Outcome, ch: char)
    requires o.flush == Keep && |o.notes| == 1
    ensures
      var (s, events) := Hand(slice, o.flush, ch);
      s == slice && BookAll(a, events + o.notes) == Booked(a, o.notes[0])
  {
    assert Hand(slice, o.flush, ch).1 + o.notes == [o.notes[0]];
    BookOne(a, o.notes[0]);
  }

  /** A slice that is handed over before the byte. */
  lemma SliceTold(slice: Slice, a: Account, o: Outcome, ch: char, kind: Kind)
    requires o.flush == Before(kind) && o.notes == [] && slice.Open? && slice.kind == kind
    ensures
      var (s, events) := Hand(slice, o.flush, ch);
      s == Closed && BookAll(a, events + o.notes) == Booked(a, Data(kind, slice.bytes))
  {
    assert Hand(slice, o.flush, ch).1 + o.notes == [Data(kind, slice.bytes)];
    BookOne(a, Data(kind, slice.bytes));
  }

  lemma IdleBalances(p: Parser, s: IdleState, slice: Slice, a: Account, ch: char)
    requires Inv(p) && p.state == Idle(s) && Balances(p, slice, a)
    ensures StaysBalanced(slice, a, OnIdle(p, s, ch), ch)
  {
    hide IsLength, Decimal, FirstGuess, Inv;
    var o := OnIdle(p, s, ch);
    if o.notes == [] {
      NothingTold(slice, a, o, ch);
    } else {
      OneNote(slice, a, o, ch);
    }
  }

  /** In the first line only the URL and the reason are handed over, and nothing is known of the length. */
  predicate StaysInLine(p: Parser, o: Outcome) {
    && o.notes == [] && !o.flush.Through?
    && (o.flush.Before? ==> o.flush.kind.Url? || o.flush.kind.Status?)
    && (o.p.errno == OK ==> o.p.state.Line? || o.p.state == Head(HeaderFieldStart))
    && o.p.flags == p.flags && o.p.contentLength == p.contentLength
  }

  lemma VersionStays(p: Parser, v: VersionState, ch: char)
    requires p.state.Line? && p.errno == OK
    ensures StaysInLine(p, OnResVersion(p, v, ch)) && StaysInLine(p, OnReqVersion(p, v, ch))
  {
  }

  lemma StatusStays(p: Parser, t: StatusState, ch: char)
    requires p.state.Line? && p.errno == OK
    ensures StaysInLine(p, OnStatus(p, t, ch))
  {
  }

  lemma MethodStays(p: Parser, ch: char)
    requires p.state == Line(ReqMethod)
    ensures StaysInLine(p, OnMethod(p, ch))
  {
    hide NextGuess, MethodName;
  }

  lemma UrlStays(p: Parser, u: UrlState, ch: char, mark: Mark)
    requires p.state.Line?
    ensures StaysInLine(p, OnUrl(p, u, ch, mark)) && StaysInLine(p, OnUrlOrEnd(p, u, ch))
  {
    hide ParseUrlChar;
  }

  lemma LineStays(p: Parser, s: LineState, ch: char)
    requires p.state == Line(s) && p.errno == OK
    ensures StaysInLine(p, OnLine(p, s, ch))
  {
    hide OnResVersion, OnReqVersion, OnStatus, OnMethod, OnUrl, OnUrlOrEnd;
    match s {
      case ResVersion(v) => VersionStays(p, v, ch); hide StaysInLine;
      case ReqVersion(v) => VersionStays(p, v, ch); hide StaysInLine;
      case ResStatus(t) => StatusStays(p, t, ch); hide StaysInLine;
      case ReqMethod => MethodStays(p, ch); hide StaysInLine;
      case ReqUrl(u) => UrlStays(p, u, ch, NoMark); hide StaysInLine;
      case ReqSpacesBeforeUrl => UrlStays(p, if p.verb == CONNECT then ServerStart else BeforeUrl, ch, At(Url));
      case _ =>
    }
  }

  lemma LineBalances(p: Parser, s: LineState, slice: Slice, a: Account, ch: char)
    requires Inv(p) && p.state == Line(s) && p.errno == OK && Balances(p, slice, a)
    ensures StaysBalanced(slice, a, OnLine(p, s, ch), ch)
  {
    hide OnLine, IsLength, Decimal;
    LineStays(p, s, ch);
    var o := OnLine(p, s, ch);
    if o.flush.Keep? || slice.Closed? || slice.kind != o.flush.kind {
      assert Hand(slice, o.flush, ch).1 + o.notes == [];
    } else {
      SliceTold(slice, a, o, ch, o.flush.kind);
    }
  }

  // The end of a header

  /** The notifications of a header's end: behind them, no body has been told. */
  lemma HeadersEndBooks(a: Account, before: seq<Event>, e: Event)
    requires e.HeadersComplete?
    ensures BookAll(a, before + [e]) == BookAll(a, before).(last := Other, body := 0)
    ensures BookAll(a, before + [e] + [MessageComplete]) == BookAll(a, before).(last := Other, body := 0)
  {
    BookAppend(a, before, [e]);
    BookOne(BookAll(a, before), e);
    BookAppend(a, before + [e], [MessageComplete]);
    BookOne(BookAll(a, before + [e]), MessageComplete);
  }

  lemma HeadersEndShape(p: Parser, before: seq<Event>)
    requires !p.flags.trailing
    ensures
      var o := OnHeadersAlmostDone(p, LF, before);
      var told := before + [HeadersComplete(p.major, p.minor)];
      && o.flush == Keep && o.mark == NoMark
      && (o.p.errno == OK ==>
            && (o.p.state.Idle? || o.p.state.Content? || o.p.state.Chunk?)
            && (o.p.state.Idle? ==> o.notes == told + [MessageComplete])
            && (o.p.state == Content(BodyIdentity) ==>
                  o.notes == told && p.contentLength != NO_LENGTH && o.p.contentLength == p.contentLength))
  {
    hide NeedsEof, ShouldKeepAlive;
  }

  lemma HeadersEndBalances(p: Parser, a: Account, ch: char, before: seq<Event>)
    requires !p.flags.trailing && Settled(p, BookAll(a, before))
    ensures StaysBalanced(Closed, a, OnHeadersAlmostDone(p, ch, before), ch)
  {
    hide OnHeadersDone, IsLength, Decimal, BookAll;
    var o := OnHeadersAlmostDone(p, ch, before);
    if ch == LF {
      HeadersEndShape(p, before);
      HeadersEndBooks(a, before, HeadersComplete(p.major, p.minor));
      hide OnHeadersAlmostDone;
      assert Hand(Closed, o.flush, ch).1 + o.notes == o.notes;
    }
  }

  /** Where a field, or the end of the header, begins. */
  lemma FieldStartBalances(p: Parser, a: Account, ch: char, before: seq<Event>)
    requires !p.flags.trailing && Settled(p, BookAll(a, before)) && !BookAll(a, before).last.Names?
    ensures StaysBalanced(Closed, a, OnFieldStart(p, ch, before), ch)
  {
    hide IsLength, Decimal, BookAll, NameState, NameIndex, NamesLength, IsToken, TokenOf, Tracked;
    var o := OnFieldStart(p, ch, before);
    if ch == LF {
      HeadersEndBalances(p, a, ch, before);
    } else if ch == CR {
      assert [] + before == before;
    } else if IsToken(ch) {
      OnFieldStartMarks(p, ch, before);
      assert LowerName([ch]) == [TokenOf(ch)] && IsName([ch]);
      hide OnFieldStart;
      assert [] + before == before;
      assert Extend(Closed, At(Field), ch) == Open(Field, [ch]);
    }
  }

  // A name

  lemma NameLetterFits(q: Parser, x: string, a: Account)
    requires IsName(x) && Tracked(LowerName(x)) && Settled(q, a) && (NamesLength(LowerName(x)) ==> Unreported(q, a))
    ensures
      var p := InName(q, LowerName(x));
      p.state == Head(HeaderField) && p.flags.trailing == q.flags.trailing && NameFits(p, x, a) && Settled(p, a)
  {
    hide IsLength, Decimal, NameState, NameIndex, NamesLength, Tracked, LowerName;
  }

  /** The parser at the start of the name of which `x` has been read. */
  lemma NameBegan(p: Parser, x: string, a: Account) returns (q: Parser)
    requires p.state == Head(HeaderField) && NameFits(p, x, a) && Settled(p, a)
    ensures p == InName(q, LowerName(x)) && q.flags.trailing == p.flags.trailing && Settled(q, a)
    ensures NamesLength(LowerName(x)) ==> !q.flags.contentLength && Unreported(q, a)
    ensures !NamesLength(LowerName(x)) ==> q == p
  {
    hide IsLength, Decimal, NameState, NameIndex, NamesLength, Tracked, LowerName;
    q := p.(flags := if NamesLength(LowerName(x)) then p.flags.(contentLength := false) else p.flags);
  }

  lemma NameLetterBalances(p: Parser, x: string, a: Account, ch: char)
    requires p.state == Head(HeaderField) && p.errno == OK && IsToken(ch)
    requires NameFits(p, x, a) && Settled(p, a)
    ensures
      var o := OnField(p, ch);
      o.p.errno == OK ==>
        && o == Stay(o.p) && o.p.state == Head(HeaderField) && o.p.flags.trailing == p.flags.trailing
        && NameFits(o.p, x + [ch], a) && Settled(o.p, a)
  {
    hide IsLength, Decimal, NameState, NameIndex, NamesLength, IsToken, TokenOf, Tracked, OnField, InName, NameFits;
    var v := LowerName(x);
    var w := v + [TokenOf(ch)];
    assert LowerName(x + [ch]) == w;
    var q := NameBegan(p, x, a);
    NameIsTracked(p, x, a);
    assert IsName(x + [ch]);
    NameByte(q, v, ch);
    if NamesLength(v) {
      LengthStays(v, [TokenOf(ch)]);
    }
    if !(NamesLength(w) && q.flags.contentLength) {
      UnlessKnown(q, a);
      NameLetterFits(q, x + [ch], a);
    }
  }

  lemma NameIsTracked(p: Parser, x: string, a: Account)
    requires NameFits(p, x, a)
    ensures IsName(x) && Tracked(LowerName(x))
  {
    hide NameState, NameIndex, NamesLength, Tracked, LowerName;
  }

  lemma UnlessKnown(q: Parser, a: Account)
    requires Settled(q, a)
    ensures !q.flags.contentLength ==> Unreported(q, a)
  {
    hide IsLength, Decimal;
  }

  lemma NameEndBalances(p: Parser, x: string, a: Account)
    requires NameFits(p, x, a) && !a.last.Names?
    ensures ValueFits(p, Booked(a, Data(Field, x)))
  {
    hide NameIndex, LowerName, IsSpelling, IsLowerName, IsName, IsLength, Decimal;
    KnownNames(LowerName(x));
    NamesAreLower();
    LowerNameSpells(x, LENGTH_SPELLED);
    hide NameState;
  }

  lemma NameBalances(p: Parser, slice: Slice, a: Account, ch: char)
    requires Inv(p) && p.state == Head(HeaderField) && p.errno == OK && Balances(p, slice, a) && !p.flags.trailing
    ensures StaysBalanced(slice, a, OnField(p, ch), ch)
  {
    hide IsLength, Decimal, NameState, NameIndex, NamesLength, IsToken, TokenOf, Tracked, FieldLetter,
         CountsFieldLetters, Inv, NameFits, Settled;
    var o := OnField(p, ch);
    if IsToken(ch) {
      NameLetterBalances(p, slice.bytes, a, ch);
      if o.p.errno == OK {
        NothingTold(slice, a, o, ch);
      }
    } else if ch == ':' {
      NameEndBalances(p, slice.bytes, a);
      SliceTold(slice, a, o, ch, Field);
      var b := Booked(a, Data(Field, slice.bytes));
      SettledKeeps(p, o.p, a, b);
      hide ValueFits;
      assert ValueFits(o.p, b) by { ValueFitsKeeps(p, Head(HeaderValueDiscardWs), b); }
    }
  }

  lemma ValueFitsKeeps(p: Parser, s: State, a: Account)
    ensures ValueFits(p.(state := s), a) == ValueFits(p, a)
  {
  }

  lemma SettledKeeps(p: Parser, q: Parser, a: Account, b: Account)
    requires q.flags.contentLength == p.flags.contentLength && q.contentLength == p.contentLength
    requires a.lengths == b.lengths
    ensures Settled(q, b) == Settled(p, a)
  {
  }

  // A value

  lemma FirstDigit(ch: char)
    requires IsNum(ch)
    ensures IsLength([ch]) && Decimal(0, [ch]) == DigitOf(ch)
  {
    assert [ch][1..] == "";
  }

  lemma ValueStartBalances(p: Parser, a: Account, ch: char)
    requires p.state.Head? && p.errno == OK && !p.flags.trailing
    requires Settled(p, a) && (p.hstate.ContentLength? <==> NamesALength(a))
    requires p.hstate.ContentLength? && IsNum(ch) ==> p.flags.contentLength && a.last.Names? && Unreported(p, a)
    ensures StaysBalanced(Closed, a, OnValueStart(p, ch), ch)
  {
    hide IsLength, Decimal, Lower, NamesALength;
    var o := OnValueStart(p, ch);
    if o.p.errno == OK {
      NothingTold(Closed, a, o, ch);
      if p.hstate.ContentLength? {
        FirstDigit(ch);
      }
    }
  }

  lemma {:induction false} DecimalAppend(n: nat, v: string, ch: char)
    requires IsLengthText(v) && (IsNum(ch) || ch == ' ')
    ensures IsLengthText(v + [ch])
    ensures Decimal(n, v + [ch]) == if ch == ' ' then Decimal(n, v) else Decimal(n, v) * 10 + DigitOf(ch)
    decreases |v|
  {
    if v == "" {
      assert v + [ch] == [ch] && [ch][1..] == "";
    } else {
      assert v[0] in v && forall x <- v[1..] :: x in v;
      assert (v + [ch])[1..] == v[1..] + [ch];
      DecimalAppend(if v[0] == ' ' then n else n * 10 + DigitOf(v[0]), v[1..], ch);
    }
  }

  lemma LengthGrows(x: string, ch: char)
    requires IsLength(x)
    ensures Decimal(0, x) <= MAX_LENGTH
    ensures ch == ' ' ==> IsLength(x + [ch]) && Decimal(0, x + [ch]) == Decimal(0, x)
    ensures IsNum(ch) && Decimal(0, x) * 10 + DigitOf(ch) <= MAX_LENGTH ==>
      IsLength(x + [ch]) && Decimal(0, x + [ch]) == Decimal(0, x) * 10 + DigitOf(ch)
  {
    if ch == ' ' || IsNum(ch) {
      DecimalAppend(0, x, ch);
    }
    hide Decimal;
  }

  lemma SpecialKeepsLength(p: Parser, ch: char)
    requires !p.hstate.ContentLength?
    ensures
      var q := OnSpecialValue(p, ch).p;
      && !q.hstate.ContentLength? && q.contentLength == p.contentLength
      && q.flags.contentLength == p.flags.contentLength && q.flags.trailing == p.flags.trailing
  {
    hide Lower, IsToken;
  }

  /** One more byte of a value. */
  lemma ValueByteBalances(p: Parser, skipping: bool, x: string, a: Account, ch: char)
    requires Inv(p) && p.state == Head(HeaderValue) && p.errno == OK && ch != CR && ch != LF && BytesFit(p, x, a)
    ensures
      var o := OnValue(p, skipping, ch);
      o.p.errno == OK ==>
        && o.flush == Keep && o.notes == [] && o.mark == NoMark && o.p.state == p.state
        && o.p.flags.trailing == p.flags.trailing && BytesFit(o.p, x + [ch], a)
  {
    hide IsLength, Decimal, NamesALength, OnSpecialValue, IsHeaderChar, Inv;
    if p.hstate.ContentLength? {
      LengthGrows(x, ch);
      LengthByte(p, skipping, ch);
      hide OnValue;
    } else {
      SpecialKeepsLength(p, ch);
      SpecialShape(p, ch);
    }
  }

  /** The value is over: a length is in the account now. */
  lemma ValueEndBalances(p: Parser, s: HeadState, x: string, a: Account)
    requires BytesFit(p, x, a)
    ensures
      var b := Booked(a, Data(Value, x));
      Settled(p.(state := Head(s)), b) && b.last.Values? && NamesALength(b) == NamesALength(a)
  {
    hide IsLength, Decimal, LowerName;
  }

  lemma ValueBalances(p: Parser, skipping: bool, slice: Slice, a: Account, ch: char)
    requires Inv(p) && p.state == Head(HeaderValue) && p.errno == OK && Balances(p, slice, a) && !p.flags.trailing
    ensures StaysBalanced(slice, a, OnValue(p, skipping, ch), ch)
  {
    hide IsLength, Decimal, OnSpecialValue, Inv, BytesFit, Settled, NamesALength;
    var o := OnValue(p, skipping, ch);
    if ch == CR || ch == LF {
      SliceTold(slice, a, o, ch, Value);
      ValueEndBalances(p, o.p.state.head, slice.bytes, a);
      ValueNames(p, slice.bytes, a);
    } else {
      ValueByteBalances(p, skipping, slice.bytes, a, ch);
      hide OnValue;
      if o.p.errno == OK {
        NothingTold(slice, a, o, ch);
      }
    }
  }

  lemma ValueNames(p: Parser, x: string, a: Account)
    requires BytesFit(p, x, a)
    ensures p.hstate.ContentLength? <==> NamesALength(a)
  {
    hide NamesALength, IsLength, Decimal;
  }

  // The lines of a header

  /** An empty value is told as the next line begins. */
  lemma EmptyValueBooks(p: Parser, a: Account)
    requires p.state == Head(HeaderValueDiscardLws) && Inv(p) && ValueFits(p, a) && Settled(p, a)
    ensures
      var b := BookAll(a, [Data(Value, "")]);
      !b.last.Names? && Settled(EndOfLine(p), b)
  {
    BookOne(a, Data(Value, ""));
    hide IsLength, Decimal, NamesALength, EndOfLine;
  }

  lemma EndOfLineKeeps(p: Parser)
    ensures EndOfLine(p).flags.trailing == p.flags.trailing
  {
  }

  lemma DiscardBalances(p: Parser, s: HeadState, slice: Slice, a: Account, ch: char)
    requires Inv(p) && p.state == Head(s) && p.errno == OK
    requires Balances(p, slice, a) && !p.flags.trailing && slice.Closed?
    requires s.HeaderValueDiscardWs? || s.HeaderValueDiscardWsAlmostDone? || s.HeaderValueDiscardLws?
    ensures StaysBalanced(slice, a, OnHead(p, s, ch), ch)
  {
    hide IsLength, Decimal, NamesALength, EndOfLine, OnFieldStart, OnValueStart;
    var o := OnHead(p, s, ch);
    EndOfLineKeeps(p);
    ValueStartBalances(p, a, ch);
    if s.HeaderValueDiscardLws? && ch != ' ' && ch != '\t' {
      EmptyValueBooks(p, a);
      FieldStartBalances(EndOfLine(p), a, ch, [Data(Value, "")]);
    } else if o.flush == Keep && o.notes == [] {
      NothingTold(slice, a, o, ch);
    }
  }

  lemma LwsBalances(p: Parser, slice: Slice, a: Account, ch: char)
    requires Inv(p) && p.state == Head(HeaderValueLws) && p.errno == OK
    requires Balances(p, slice, a) && !p.flags.trailing && slice.Closed?
    ensures StaysBalanced(slice, a, OnHead(p, HeaderValueLws, ch), ch)
  {
    hide IsLength, Decimal, NamesALength, EndOfLine, OnFieldStart, OnValueStart;
    EndOfLineKeeps(p);
    if ch == ' ' || ch == '\t' {
      ValueStartBalances(p, a, ch);
    } else {
      assert BookAll(a, []) == a;
      FieldStartBalances(EndOfLine(p), a, ch, []);
    }
  }

  lemma HeadBalances(p: Parser, s: HeadState, slice: Slice, a: Account, ch: char)
    requires Inv(p) && p.state == Head(s) && !s.HeaderValue? && p.errno == OK
    requires Balances(p, slice, a) && !p.flags.trailing && SliceFits(p, slice)
    ensures StaysBalanced(slice, a, OnHead(p, s, ch), ch)
  {
    hide OnFieldStart, OnField, OnValueStart, OnHeadersAlmostDone, OnHeadersDone, EndOfLine;
    assert BookAll(a, []) == a;
    match s
    case HeaderFieldStart => FieldStartBalances(p, a, ch, []); hide StaysBalanced, Balances;
    case HeaderField => NameBalances(p, slice, a, ch); hide StaysBalanced, Balances;
    case HeaderValueDiscardWs => DiscardBalances(p, s, slice, a, ch); hide StaysBalanced, Balances;
    case HeaderValueDiscardWsAlmostDone => DiscardBalances(p, s, slice, a, ch); hide StaysBalanced, Balances;
    case HeaderValueDiscardLws => DiscardBalances(p, s, slice, a, ch); hide StaysBalanced, Balances;
    case HeaderValueLws => LwsBalances(p, slice, a, ch); hide StaysBalanced, Balances;
    case HeadersAlmostDone => HeadersEndBalances(p, a, ch, []); hide StaysBalanced, Balances;
    case HeaderAlmostDone => AlmostDoneBalances(p, slice, a, ch); hide StaysBalanced, Balances;
    case _ => hide Balances;
  }

  lemma AlmostDoneBalances(p: Parser, slice: Slice, a: Account, ch: char)
    requires p.state == Head(HeaderAlmostDone) && p.errno == OK && Balances(p, slice, a) && !p.flags.trailing
    ensures StaysBalanced(slice, a, OnHeaderAlmostDone(p, ch, Keep), ch)
  {
    hide IsLength, Decimal, LowerName;
    if ch == LF {
      NothingTold(slice, a, OnHeaderAlmostDone(p, ch, Keep), ch);
    }
  }

  // Behind the header

  /** What a trailer may do: go on, or end the message behind a chunk. */
  predicate StaysInTrailer(o: Outcome) {
    o.p.errno == OK ==>
      || (o.p.state.Head? && o.p.flags.trailing)
      || (o.p.state.Idle? && |o.notes| >= 2 && o.notes[|o.notes| - 2..] == [ChunkComplete, MessageComplete]
          && o.flush == Keep)
  }

  lemma TrailerEndStays(p: Parser, ch: char, before: seq<Event>)
    requires p.flags.trailing
    ensures StaysInTrailer(OnHeadersAlmostDone(p, ch, before))
  {
    hide ShouldKeepAlive;
    assert before + [ChunkComplete] + [MessageComplete] == before + [ChunkComplete, MessageComplete];
  }

  lemma TrailerLineStays(p: Parser, ch: char, before: seq<Event>)
    requires p.flags.trailing
    ensures StaysInTrailer(OnFieldStart(p, ch, before))
  {
    hide OnHeadersAlmostDone, IsToken, TokenOf;
    TrailerEndStays(p, ch, before);
  }

  lemma TrailerValueStays(p: Parser, skipping: bool, ch: char)
    requires p.state == Head(HeaderValue) && p.flags.trailing
    ensures StaysInTrailer(OnValue(p, skipping, ch)) && StaysInTrailer(OnValueStart(p, ch))
  {
    hide OnSpecialValue, Lower, IsHeaderChar, TokenStart;
    SpecialStaysInTrailer(p, ch);
  }

  lemma TrailerHeadStays(p: Parser, s: HeadState, ch: char)
    requires p.state == Head(s) && p.flags.trailing && !s.HeaderValue? && !s.HeadersDone? && !s.HeaderValueStart?
    ensures StaysInTrailer(OnHead(p, s, ch))
  {
    hide OnFieldStart, OnHeadersAlmostDone, FieldLetter, Lower, IsToken, TokenOf, EndOfLine, TokenStart,
         CountsFieldLetters;
    EndOfLineKeeps(p);
    TrailerLineStays(p, ch, []);
    TrailerEndStays(p, ch, []);
    TrailerLineStays(EndOfLine(p), ch, []);
    TrailerLineStays(EndOfLine(p), ch, [Data(Value, "")]);
  }

  lemma TrailerStays(p: Parser, skipping: bool, s: HeadState, ch: char)
    requires p.state == Head(s) && p.flags.trailing && Inv(p)
    ensures StaysInTrailer(if s.HeaderValue? then OnValue(p, skipping, ch) else OnHead(p, s, ch))
  {
    hide OnHead, OnValue, OnValueStart, StaysInTrailer, Inv;
    HeadFitsStates(p, s);
    if s.HeaderValue? {
      TrailerValueStays(p, skipping, ch);
    } else {
      TrailerHeadStays(p, s, ch);
    }
  }

  lemma HeadFitsStates(p: Parser, s: HeadState)
    requires p.state == Head(s) && Inv(p)
    ensures !s.HeadersDone? && !s.HeaderValueStart?
  {
  }

  lemma SpecialStaysInTrailer(p: Parser, ch: char)
    ensures
      var q := OnSpecialValue(p, ch).p;
      OnSpecialValue(p, ch) == Stay(q) && q.state == p.state && q.flags.trailing == p.flags.trailing
  {
    hide Lower, IsToken, MatchLetter, TokenStart;
  }

  lemma TrailerBalances(p: Parser, skipping: bool, s: HeadState, slice: Slice, a: Account, ch: char)
    requires p.state == Head(s) && p.flags.trailing && Inv(p)
    ensures StaysBalanced(slice, a, if s.HeaderValue? then OnValue(p, skipping, ch) else OnHead(p, s, ch), ch)
  {
    hide OnValue, OnHead, Inv, HeadBooks, Booked, BookAll;
    TrailerStays(p, skipping, s, ch);
    var o := if s.HeaderValue? then OnValue(p, skipping, ch) else OnHead(p, s, ch);
    if o.p.errno == OK && o.p.state.Idle? {
      var k := |o.notes| - 2;
      assert Hand(slice, o.flush, ch).1 + o.notes == o.notes == o.notes[..k] + [ChunkComplete, MessageComplete];
      BookAppend(a, o.notes[..k], [ChunkComplete, MessageComplete]);
      ChunksEndOtherwise(BookAll(a, o.notes[..k]));
    }
  }

  lemma ChunksEndOtherwise(a: Account)
    ensures BookAll(a, [ChunkComplete, MessageComplete]).last == Other
  {
    BookTwo(a, ChunkComplete, MessageComplete);
  }

  /** A byte of a body: marked, or told with all that is marked if it is the last. */
  lemma ContentBalances(p: Parser, s: ContentState, slice: Slice, a: Account, ch: char)
    requires Inv(p) && p.state == Content(s) && Balances(p, slice, a) && SliceFits(p, slice)
    ensures StaysBalanced(slice, a, OnContent(p, s, ch), ch)
  {
    hide IsLength, Decimal, ShouldKeepAlive, BookAll;
    var o := OnContent(p, s, ch);
    if o.flush == Keep {
      NothingTold(slice, a, o, ch);
    } else {
      var bytes := if slice.Open? then slice.bytes + [ch] else [ch];
      assert Hand(slice, o.flush, ch).1 + o.notes == [Data(Body, bytes), MessageComplete];
      BookTwo(a, Data(Body, bytes), MessageComplete);
    }
  }

  lemma ChunkBalances(p: Parser, s: ChunkState, slice: Slice, a: Account, ch: char)
    requires p.state == Chunk(s)
    ensures StaysBalanced(slice, a, OnChunk(p, s, ch), ch)
  {
    hide IsLength, Decimal, Unhex, HeadBooks, BookAll, Booked;
  }

  lemma TransitionBalances(p: Parser, skipping: bool, slice: Slice, a: Account, ch: char)
    requires Inv(p) && p.errno == OK && SliceFits(p, slice) && Balances(p, slice, a)
    ensures StaysBalanced(slice, a, Transition(p, skipping, ch), ch)
  {
    hide OnValue, OnHead, OnIdle, OnLine, OnContent, OnChunk, StaysBalanced, Balances, Inv, SliceFits;
    match p.state
    case Idle(s) => IdleBalances(p, s, slice, a, ch);
    case Line(s) => LineBalances(p, s, slice, a, ch);
    case Head(s) =>
      if p.flags.trailing {
        TrailerBalances(p, skipping, s, slice, a, ch);
      } else if s.HeaderValue? {
        ValueBalances(p, skipping, slice, a, ch);
      } else {
        HeadBalances(p, s, slice, a, ch);
      }
    case Content(s) => ContentBalances(p, s, slice, a, ch);
    case Chunk(s) => ChunkBalances(p, s, slice, a, ch);
  }

  /** So does every run of bytes. */
  lemma {:induction false} RunBalances(c: Core, a: Account, data: string)
    requires CoreInv(c) && Balances(c.p, c.slice, a)
    ensures
      var r := Run(c, data);
      r.c.p.errno == OK ==> Balances(r.c.p, r.c.slice, BookAll(a, r.events))
    decreases |data|
  {
    hide Transition, Balances, Inv, SliceFits, Booked;
    if data != "" && Going(c) {
      var ch, rest := data[0], data[1..];
      var o := Step(c, ch);
      StepInv(c, ch);
      TransitionBalances(c.p, c.skipping, c.slice, a, ch);
      RunStopped(o.c, rest);
      BookAppend(a, o.events, Run(o.c, rest).events);
      if o.c.p.errno == OK {
        RunBalances(o.c, BookAll(a, o.events), rest);
      }
    }
  }

  // ---- The length of a body ----

  /** The end of a call tells what is marked. */
  lemma CallBalances(p: Parser, n: nat, data: string)
    requires Ready(p, n) && p.state.Idle? && Succeeds(p, n, data)
    ensures
      var r := Call(p, n, data);
      var a := BookAll(NO_ACCOUNT, r.events);
      && (r.c.p.state == Content(BodyIdentity) ==> Reported(a, a.body + r.c.p.contentLength))
      && (r.c.p.state.Idle? && a.last.Ended? ==> Reported(a, a.body))
  {
    hide Run, Inv, IsLength, Decimal, BookAll;
    var c := Begin(p, n);
    BeginInv(p, n);
    RunInv(c, data);
    RunBalances(c, NO_ACCOUNT, data);
    var r := Run(c, data);
    if Going(r.c) {
      BookAppend(NO_ACCOUNT, r.events, Rest(r.c.slice));
      RestBooks(BookAll(NO_ACCOUNT, r.events), r.c);
    }
  }

  lemma RestBooks(a: Account, c: Core)
    requires CoreInv(c)
    ensures BookAll(a, []) == a
    ensures c.p.state.Idle? ==> Rest(c.slice) == []
    ensures c.p.state.Content? ==> BookAll(a, Rest(c.slice)).lengths == a.lengths
    ensures c.p.state.Content? ==> BookAll(a, Rest(c.slice)).body == a.body + Marking(c.slice)
  {
    if c.slice.Open? {
      BookOne(a, Data(c.slice.kind, c.slice.bytes));
    }
  }

  /**
    The length of a body is the one that was announced. From the start of a message, after any calls
    however they cut the input: in a body of known length exactly one Content-Length has been told,
    its value is a length, and the bytes told since the header ended and the bytes awaited add up to
    it. Where a message has ended right behind a slice of its body, that many bytes have been told.
   */
  lemma LengthIsHonoured(p: Parser, n: nat, pieces: seq<string>)
    requires Ready(p, n) && p.state.Idle? && NonEmpty(pieces) && Feed(p, n, pieces).ok
    ensures
      var f := Feed(p, n, pieces);
      var a := BookAll(NO_ACCOUNT, f.events);
      && (f.p.state == Content(BodyIdentity) ==>
            |a.lengths| == 1 && IsLength(a.lengths[0]) && a.body + f.p.contentLength == Decimal(0, a.lengths[0]))
      && (f.p.state.Idle? && a.last.Ended? ==>
            |a.lengths| == 1 && IsLength(a.lengths[0]) && a.body == Decimal(0, a.lengths[0]))
  {
    hide Call, Feed, Succeeds, Ready, IsLength, Decimal, BookAll;
    if pieces != [] {
      OneCallDoesAll(p, n, pieces);
      var f, r := Feed(p, n, pieces), Call(p, n, Concat(pieces));
      CallBalances(p, n, Concat(pieces));
      BookJoinAll(NO_ACCOUNT, [], f.events);
      BookJoinAll(NO_ACCOUNT, [], r.events);
      assert BookAll(NO_ACCOUNT, []) == NO_ACCOUNT by { BookNothing(); }
    } else {
      assert Feed(p, n, []).events == [] && Feed(p, n, []).p == p by { FeedNothing(p, n); }
      BookNothing();
    }
  }

  lemma BookNothing()
    ensures BookAll(NO_ACCOUNT, []) == NO_ACCOUNT
  {
  }

  lemma FeedNothing(p: Parser, n: nat)
    ensures Feed(p, n, []) == FeedOut(p, n, [], true, false)
  {
  }
}
