/** The wish for another protocol, over all inputs: what is told of it, and what the parser makes of it. */
module Wishes {
  import opened Chars
  import opened Alphabets
  import opened ParserTypes
  import opened Transitions
  import opened Machine
  import opened Invariant
  import opened Traces
  import opened Segmentation
  import opened FieldNames
  import opened Lengths
  import opened Accounts
  import opened Ends

  /** The flag is that of the account. */
  predicate Agrees(p: Parser, a: Account) {
    p.flags.upgrade == a.asks
  }

  /** Behind a name: the state is the one that sets the flag exactly if the name is "upgrade". */
  predicate NameAgrees(p: Parser, a: Account) {
    Agrees(p, a) && (p.hstate.Upgrade? <==> NamesAnUpgrade(a))
  }

  /** Behind a value: nothing is left to be set. */
  predicate ValueAgrees(p: Parser, a: Account) {
    Agrees(p, a) && !p.hstate.Upgrade? && (NamesAnUpgrade(a) ==> a.asks)
  }

  predicate HeadWishes(p: Parser, s: HeadState, slice: Slice, a: Account) {
    match s
    case HeaderValueDiscardWs => NameAgrees(p, a)
    case HeaderValueDiscardWsAlmostDone => NameAgrees(p, a)
    case HeaderValueDiscardLws => NameAgrees(p, a)
    case HeaderValue =>
      && slice.Open? && slice.kind == Value && slice.bytes != "" && !p.hstate.Upgrade?
      && p.flags.upgrade == (a.asks || NamesAnUpgrade(a))
    case HeaderAlmostDone => ValueAgrees(p, a)
    case HeaderValueLws => ValueAgrees(p, a)
    case _ => Agrees(p, a)
  }

  /**
    The parser against the account. In a trailer nothing is said; behind a header the wish is granted
    exactly if the flags ask for it, or the request is for a tunnel.
   */
  predicate Wishes(p: Parser, slice: Slice, a: Account) {
    p.flags.trailing ||
    match p.state
    case Idle(_) => Agrees(p, a)
    case Line(_) => Agrees(p, a)
    case Head(s) => HeadWishes(p, s, slice, a)
    case Content(_) => Agrees(p, a) && p.upgrade == AsksUpgrade(p)
    case Chunk(_) => Agrees(p, a) && p.upgrade == AsksUpgrade(p)
  }

  /** What one byte leaves of it, given its outcome. */
  predicate StaysWished(slice: Slice, a: Account, o: Outcome, ch: char) {
    o.p.errno == OK ==>
      var (s, events) := Hand(slice, o.flush, ch);
      Wishes(o.p, Extend(s, o.mark, ch), BookAll(a, events + o.notes))
  }

  // ---- Every byte keeps it ----

  lemma IdleWishes(p: Parser, s: IdleState, slice: Slice, a: Account, ch: char)
    requires p.state == Idle(s) && Wishes(p, slice, a)
    ensures StaysWished(slice, a, OnIdle(p, s, ch), ch)
  {
    hide FirstGuess;
    var o := OnIdle(p, s, ch);
    if o.notes == [] {
      NothingTold(slice, a, o, ch);
    } else {
      OneNote(slice, a, o, ch);
    }
  }

  lemma LineWishes(p: Parser, s: LineState, slice: Slice, a: Account, ch: char)
    requires p.state == Line(s) && p.errno == OK && Wishes(p, slice, a)
    ensures StaysWished(slice, a, OnLine(p, s, ch), ch)
  {
    hide OnLine;
    LineStays(p, s, ch);
    var o := OnLine(p, s, ch);
    if o.flush.Keep? || slice.Closed? || slice.kind != o.flush.kind {
      assert Hand(slice, o.flush, ch).1 + o.notes == [];
    } else {
      SliceTold(slice, a, o, ch, o.flush.kind);
    }
  }

  lemma HeadersEndKeepsWish(p: Parser, before: seq<Event>)
    requires !p.flags.trailing
    ensures
      var o := OnHeadersAlmostDone(p, LF, before);
      var told := before + [HeadersComplete(p.major, p.minor)];
      && o.flush == Keep && o.mark == NoMark && o.p.flags == p.flags
      && (o.p.errno == OK ==>
            && o.p.upgrade == AsksUpgrade(o.p) && (o.p.state.Idle? || o.p.state.Content? || o.p.state.Chunk?)
            && (o.notes == told || o.notes == told + [MessageComplete]))
  {
    hide NeedsEof, ShouldKeepAlive;
  }

  lemma HeadersEndWishes(p: Parser, a: Account, ch: char, before: seq<Event>)
    requires !p.flags.trailing && Agrees(p, BookAll(a, before))
    ensures StaysWished(Closed, a, OnHeadersAlmostDone(p, ch, before), ch)
  {
    hide OnHeadersDone, BookAll;
    var o := OnHeadersAlmostDone(p, ch, before);
    if ch == LF {
      HeadersEndKeepsWish(p, before);
      HeadersEndBooks(a, before, HeadersComplete(p.major, p.minor));
      hide OnHeadersAlmostDone, AsksUpgrade;
      assert Hand(Closed, o.flush, ch).1 + o.notes == o.notes;
    }
  }

  lemma FieldStartWishes(p: Parser, a: Account, ch: char, before: seq<Event>)
    requires !p.flags.trailing && Agrees(p, BookAll(a, before))
    ensures StaysWished(Closed, a, OnFieldStart(p, ch, before), ch)
  {
    hide BookAll, IsToken, TokenOf, OnHeadersAlmostDone;
    var o := OnFieldStart(p, ch, before);
    if ch == LF {
      HeadersEndWishes(p, a, ch, before);
    } else {
      assert [] + before == before;
    }
  }

  /** Over a name the flag stays, and its end says whether the value will set it. */
  lemma NameWishes(p: Parser, slice: Slice, a: Account, ch: char)
    requires p.state == Head(HeaderField) && p.errno == OK && !p.flags.trailing
    requires Agrees(p, a) && Balances(p, slice, a)
    ensures StaysWished(slice, a, OnField(p, ch), ch)
  {
    hide IsToken, TokenOf, FieldLetter, CountsFieldLetters, IsLength, Decimal, Tracked, NameState, NameIndex, LowerName,
         NamesLength, IsSpelling, IsName;
    var o := OnField(p, ch);
    if IsToken(ch) {
      if o.p.errno == OK {
        NothingTold(slice, a, o, ch);
      }
    } else if ch == ':' {
      SliceTold(slice, a, o, ch, Field);
      NameSaysUpgrade(slice.bytes);
    }
  }

  lemma NameSaysUpgrade(w: string)
    requires IsName(w)
    ensures NameState(LowerName(w)).Upgrade? <==> IsSpelling(w, UPGRADE_SPELLED)
  {
    assert w != "";
    hide LowerName, IsName, IsSpelling, IsLowerName;
    NamesAreLower();
    LowerNameSpells(w, UPGRADE_SPELLED);
    KnownNames(LowerName(w));
    hide NameState;
  }

  lemma ValueStartSets(p: Parser, ch: char)
    ensures
      var o := OnValueStart(p, ch);
      o.p.errno == OK ==>
        && o == ToMarking(o.p, Head(HeaderValue), Value) && o.p.flags.trailing == p.flags.trailing
        && !o.p.hstate.Upgrade? && o.p.flags.upgrade == (p.flags.upgrade || p.hstate.Upgrade?)
  {
    hide Lower, TokenStart;
    StartIsNoUpgrade(Lower(ch));
  }

  lemma ValueStartWishes(p: Parser, a: Account, ch: char)
    requires p.state.Head? && p.errno == OK && !p.flags.trailing
    requires NameAgrees(p, a) || ValueAgrees(p, a)
    ensures StaysWished(Closed, a, OnValueStart(p, ch), ch)
  {
    hide OnValueStart, IsSpelling;
    ValueStartSets(p, ch);
    var o := OnValueStart(p, ch);
    if o.p.errno == OK {
      NothingTold(Closed, a, o, ch);
    }
  }

  lemma StartIsNoUpgrade(c: char)
    ensures !TokenStart(c, MatchingToken).Upgrade? && !TokenStart(c, General).Upgrade?
  {
  }

  lemma SpecialIsNoUpgrade(p: Parser, ch: char)
    requires !p.hstate.Upgrade?
    ensures
      var o := OnSpecialValue(p, ch);
      && o == Stay(o.p) && o.p.state == p.state && !o.p.hstate.Upgrade?
      && (o.p.errno == OK ==> o.p.flags.upgrade == p.flags.upgrade && o.p.flags.trailing == p.flags.trailing)
  {
    hide Lower, IsToken, NameFor;
  }

  lemma ValueWishes(p: Parser, skipping: bool, slice: Slice, a: Account, ch: char)
    requires p.state == Head(HeaderValue) && p.errno == OK && !p.flags.trailing && Wishes(p, slice, a)
    ensures StaysWished(slice, a, OnValue(p, skipping, ch), ch)
  {
    hide OnSpecialValue, IsHeaderChar, IsSpelling;
    var o := OnValue(p, skipping, ch);
    SpecialIsNoUpgrade(p, ch);
    if ch == CR || ch == LF {
      SliceTold(slice, a, o, ch, Value);
    } else {
      NothingTold(slice, a, o, ch);
    }
  }

  lemma EndOfLineWishes(p: Parser)
    ensures EndOfLine(p).flags.upgrade == p.flags.upgrade && EndOfLine(p).flags.trailing == p.flags.trailing
  {
  }

  /** The states around a value. */
  lemma AroundWishes(p: Parser, s: HeadState, slice: Slice, a: Account, ch: char)
    requires p.state == Head(s) && p.errno == OK && slice.Closed? && !p.flags.trailing && Wishes(p, slice, a)
    requires s.HeaderValueDiscardWs? || s.HeaderValueDiscardWsAlmostDone? || s.HeaderValueDiscardLws?
      || s.HeaderValueLws? || s.HeaderAlmostDone?
    ensures StaysWished(slice, a, OnHead(p, s, ch), ch)
  {
    hide EndOfLine, OnFieldStart, OnValueStart, IsSpelling;
    var o := OnHead(p, s, ch);
    EndOfLineWishes(p);
    if s.HeaderValueDiscardLws? && ch != ' ' && ch != '\t' {
      BookOne(a, Data(Value, ""));
      FieldStartWishes(EndOfLine(p), a, ch, [Data(Value, "")]);
    } else if s.HeaderValueLws? && ch != ' ' && ch != '\t' {
      assert BookAll(a, []) == a;
      FieldStartWishes(EndOfLine(p), a, ch, []);
    } else if s.HeaderValueLws? || s.HeaderValueDiscardWs? {
      ValueStartWishes(p, a, ch);
      if o.flush == Keep && o.notes == [] {
        NothingTold(slice, a, o, ch);
      }
    } else if o.flush == Keep && o.notes == [] {
      NothingTold(slice, a, o, ch);
    }
  }

  lemma HeadWishesOn(p: Parser, s: HeadState, slice: Slice, a: Account, ch: char)
    requires p.state == Head(s) && !s.HeaderValue? && !s.HeadersDone? && !s.HeaderValueStart? && p.errno == OK
    requires Balances(p, slice, a) && Wishes(p, slice, a) && !p.flags.trailing && SliceFits(p, slice)
    ensures StaysWished(slice, a, OnHead(p, s, ch), ch)
  {
    hide OnFieldStart, OnField, OnValueStart, OnHeadersAlmostDone, OnHeadersDone, EndOfLine, HeadBooks;
    assert BookAll(a, []) == a;
    match s
    case HeaderFieldStart => FieldStartWishes(p, a, ch, []); hide StaysWished, Balances;
    case HeaderField => NameWishes(p, slice, a, ch); hide StaysWished, Balances;
    case HeadersAlmostDone => HeadersEndWishes(p, a, ch, []); hide StaysWished, Balances;
    case _ => AroundWishes(p, s, slice, a, ch); hide StaysWished, Balances;
  }

  /** In a trailer there is no way back to where the flag matters. */
  lemma TrailerWishes(p: Parser, skipping: bool, s: HeadState, ch: char)
    requires p.state == Head(s) && p.flags.trailing && !s.HeadersDone? && !s.HeaderValueStart?
    ensures
      var o := if s.HeaderValue? then OnValue(p, skipping, ch) else OnHead(p, s, ch);
      o.p.errno == OK ==> o.p.flags.trailing
  {
    if s.HeaderValue? {
      hide OnHead, IsHeaderChar, OnSpecialValue;
      ValueKeepsTrailing(p, ch);
    } else {
      hide OnValue, OnHead;
      HeadKeepsTrailing(p, s, ch);
    }
  }

  lemma HeadKeepsTrailing(p: Parser, s: HeadState, ch: char)
    requires p.state == Head(s) && p.flags.trailing && !s.HeadersDone? && !s.HeaderValueStart? && !s.HeaderValue?
    ensures OnHead(p, s, ch).p.errno == OK ==> OnHead(p, s, ch).p.flags.trailing
  {
    hide OnFieldStart, OnHeadersDone, OnHeadersAlmostDone, OnField, OnValueStart, OnSpecialValue, EndOfLine, OnValue;
    match s
    case HeaderFieldStart => FieldKeepsTrailing(p, ch, []);
    case HeaderField => FieldKeepsTrailing(p, ch, []);
    case HeaderValueDiscardWs => ValueKeepsTrailing(p, ch);
    case HeaderValueDiscardLws =>
      EndOfLineWishes(p);
      FieldKeepsTrailing(EndOfLine(p), ch, [Data(Value, "")]);
    case HeaderValueLws =>
      EndOfLineWishes(p);
      ValueKeepsTrailing(p, ch);
      FieldKeepsTrailing(EndOfLine(p), ch, []);
    case HeadersAlmostDone => EndKeepsTrailing(p, ch);
    case _ =>
  }

  lemma EndKeepsTrailing(p: Parser, ch: char)
    requires p.flags.trailing
    ensures OnHeadersAlmostDone(p, ch, []).p.errno == OK ==> OnHeadersAlmostDone(p, ch, []).p.flags.trailing
  {
    hide ShouldKeepAlive, OnHeadersDone;
  }

  lemma FieldKeepsTrailing(p: Parser, ch: char, before: seq<Event>)
    requires p.flags.trailing
    ensures OnFieldStart(p, ch, before).p.errno == OK ==> OnFieldStart(p, ch, before).p.flags.trailing
    ensures OnField(p, ch).p.errno == OK ==> OnField(p, ch).p.flags.trailing
  {
    hide IsToken, TokenOf, FieldLetter, ShouldKeepAlive, OnHeadersDone;
  }

  lemma ValueKeepsTrailing(p: Parser, ch: char)
    requires p.flags.trailing
    ensures OnValueStart(p, ch).p.flags.trailing && OnSpecialValue(p, ch).p.flags.trailing
  {
    hide Lower, IsToken, NameFor, TokenStart;
  }

  lemma ContentWishes(p: Parser, s: ContentState, slice: Slice, a: Account, ch: char)
    requires p.state == Content(s) && Wishes(p, slice, a)
    ensures StaysWished(slice, a, OnContent(p, s, ch), ch)
  {
    hide ShouldKeepAlive, BookAll;
    var o := OnContent(p, s, ch);
    var (t, events) := Hand(slice, o.flush, ch);
    KeepsAsking(a, events + o.notes);
  }

  lemma ChunkKeeps(p: Parser, s: ChunkState, ch: char)
    requires p.state == Chunk(s)
    ensures
      var o := OnChunk(p, s, ch);
      && (o.flush == Keep || o.flush == Before(Body)) && (forall e <- o.notes :: IsBodily(e))
      && o.p.upgrade == p.upgrade && o.p.verb == p.verb
      && (o.p.errno == OK ==> o.p.flags.trailing || (o.p.state.Chunk? && o.p.flags == p.flags))
  {
    hide Unhex;
  }

  lemma ChunkWishes(p: Parser, s: ChunkState, slice: Slice, a: Account, ch: char)
    requires p.state == Chunk(s) && Wishes(p, slice, a)
    ensures StaysWished(slice, a, OnChunk(p, s, ch), ch)
  {
    hide OnChunk, BookAll;
    ChunkKeeps(p, s, ch);
    var o := OnChunk(p, s, ch);
    var (t, events) := Hand(slice, o.flush, ch);
    KeepsAsking(a, events + o.notes);
  }

  /** No value and no beginning of a message. */
  predicate IsBodily(e: Event) {
    e != MessageBegin && !(e.Data? && e.kind.Value?)
  }

  lemma {:induction false} KeepsAsking(a: Account, events: seq<Event>)
    requires forall e <- events :: IsBodily(e)
    ensures BookAll(a, events).asks == a.asks
    decreases |events|
  {
    if events != [] {
      assert events[0] in events && forall e <- events[1..] :: e in events;
      KeepsAsking(Booked(a, events[0]), events[1..]);
    }
  }

  lemma TransitionWishes(p: Parser, skipping: bool, slice: Slice, a: Account, ch: char)
    requires Inv(p) && p.errno == OK && SliceFits(p, slice) && Balances(p, slice, a) && Wishes(p, slice, a)
    ensures StaysWished(slice, a, Transition(p, skipping, ch), ch)
  {
    hide OnValue, OnHead, OnIdle, OnLine, OnContent, OnChunk, Balances, Inv, SliceFits, HeadWishes, BookAll;
    match p.state
    case Idle(s) => IdleWishes(p, s, slice, a, ch); hide StaysWished;
    case Line(s) => LineWishes(p, s, slice, a, ch); hide StaysWished;
    case Head(s) =>
      HeadFitsStates(p, s);
      if p.flags.trailing {
        TrailerWishes(p, skipping, s, ch);
      } else if s.HeaderValue? {
        ValueWishes(p, skipping, slice, a, ch); hide StaysWished;
      } else {
        HeadWishesOn(p, s, slice, a, ch); hide StaysWished;
      }
    case Content(s) => ContentWishes(p, s, slice, a, ch); hide StaysWished;
    case Chunk(s) => ChunkWishes(p, s, slice, a, ch); hide StaysWished;
  }

  /** So does every run of bytes. */
  lemma {:induction false} RunWishes(c: Core, a: Account, data: string)
    requires CoreInv(c) && Balances(c.p, c.slice, a) && Wishes(c.p, c.slice, a)
    ensures
      var r := Run(c, data);
      r.c.p.errno == OK ==> Wishes(r.c.p, r.c.slice, BookAll(a, r.events)) && SliceFits(r.c.p, r.c.slice)
    decreases |data|
  {
    hide Transition, Balances, Wishes, Inv, SliceFits, Booked;
    if data != "" && Going(c) {
      var ch, rest := data[0], data[1..];
      var o := Step(c, ch);
      StepInv(c, ch);
      TransitionBalances(c.p, c.skipping, c.slice, a, ch);
      TransitionWishes(c.p, c.skipping, c.slice, a, ch);
      RunStopped(o.c, rest);
      BookAppend(a, o.events, Run(o.c, rest).events);
      if o.c.p.errno == OK {
        RunWishes(o.c, BookAll(a, o.events), rest);
      }
    }
  }

  /** What holds at the end of a call, once all that is marked has been told. */
  predicate Granted(p: Parser, a: Account) {
    p.flags.trailing || (Agrees(p, a) && (p.state.Content? || p.state.Chunk? ==> p.upgrade == AsksUpgrade(p)))
  }

  lemma RestIsBooked(a: Account, c: Core)
    requires Wishes(c.p, c.slice, a) && SliceFits(c.p, c.slice)
    ensures Granted(c.p, BookAll(a, Rest(c.slice)))
  {
    hide AsksUpgrade, IsSpelling;
    if c.slice.Open? {
      BookOne(a, Data(c.slice.kind, c.slice.bytes));
    } else {
      assert BookAll(a, []) == a;
    }
  }

  /** An account that begins with what is left of the message before. */
  function Opening(p: Parser): Account {
    NO_ACCOUNT.(asks := p.flags.upgrade)
  }

  lemma CallGrants(p: Parser, n: nat, data: string)
    requires Ready(p, n) && p.state.Idle? && Succeeds(p, n, data)
    ensures
      var r := Call(p, n, data);
      Granted(r.c.p, BookAll(Opening(p), r.events))
  {
    hide Run, Inv, BookAll, Granted;
    var c := Begin(p, n);
    BeginInv(p, n);
    RunWishes(c, Opening(p), data);
    RunInv(c, data);
    var r := Run(c, data);
    RestIsBooked(BookAll(Opening(p), r.events), r.c);
    BookAppend(Opening(p), r.events, Rest(r.c.slice));
    if !Going(r.c) {
      IdleIsClosed(r.c);
      BookNone(BookAll(Opening(p), r.events));
    }
  }

  lemma BookNone(a: Account)
    ensures BookAll(a, []) == a
  {
  }

  /**
    From the start of a message, after any calls however they cut the input, outside a trailer: the flag
    is set exactly if a value that is not empty has been told behind a name that is "upgrade" in any
    letter case. Behind the header, another protocol takes over exactly if a Connection line has asked
    for it too, or the request is for a tunnel.
   */
  lemma WishIsTold(p: Parser, n: nat, pieces: seq<string>)
    requires Ready(p, n) && p.state.Idle? && NonEmpty(pieces) && Feed(p, n, pieces).ok
    ensures
      var f := Feed(p, n, pieces);
      var a := BookAll(Opening(p), f.events);
      !f.p.flags.trailing ==>
        && (f.p.flags.upgrade <==> a.asks)
        && (f.p.state.Content? || f.p.state.Chunk? ==>
              (f.p.upgrade <==> f.p.verb == CONNECT || (a.asks && f.p.flags.connUpgrade)))
  {
    hide Call, Feed, Succeeds, Ready, BookAll;
    if pieces != [] {
      OneCallDoesAll(p, n, pieces);
      var f, r := Feed(p, n, pieces), Call(p, n, Concat(pieces));
      CallGrants(p, n, Concat(pieces));
      BookJoinAll(Opening(p), [], f.events);
      BookJoinAll(Opening(p), [], r.events);
      BookNone(Opening(p));
    } else {
      FeedNothing(p, n);
      BookNone(Opening(p));
    }
  }
}
