/** Which error a refused byte gives, by the place in the message where it stands. */
module Refusals {
  import opened Chars
  import opened ParserTypes
  import opened Transitions
  import opened Machine
  import opened Invariant

  function LineErrors(s: LineState): set<Errno> {
    match s
    case ResOrRespH => {INVALID_CONSTANT}
    case ResVersion(v) => VersionErrors(v)
    case ReqVersion(v) => VersionErrors(v)
    case ResStatus(t) => if t.StatusLineAlmostDone? then {STRICT} else {INVALID_STATUS}
    case ReqMethod => {INVALID_METHOD}
    case ReqSpacesBeforeUrl => {INVALID_URL}
    case ReqUrl(_) => {INVALID_URL}
    case ReqHttpStart => {INVALID_CONSTANT}
    case ReqLineAlmostDone => {LF_EXPECTED}
  }

  /** The letters of a version are checked strictly, its numbers are numbers. */
  function VersionErrors(v: VersionState): set<Errno> {
    if v.VersionH? || v.VersionHT? || v.VersionHTT? || v.VersionHTTP? then {STRICT} else {INVALID_VERSION}
  }

  function HeadErrors(s: HeadState): set<Errno> {
    match s
    case HeaderFieldStart => {INVALID_HEADER_TOKEN, UNEXPECTED_CONTENT_LENGTH}
    case HeaderField => {INVALID_HEADER_TOKEN, UNEXPECTED_CONTENT_LENGTH}
    case HeaderValueDiscardWs => {INVALID_CONTENT_LENGTH}
    case HeaderValueDiscardWsAlmostDone => {STRICT}
    case HeaderValue => {INVALID_HEADER_TOKEN, INVALID_CONTENT_LENGTH}
    case HeaderAlmostDone => {LF_EXPECTED}
    case HeaderValueLws => {INVALID_CONTENT_LENGTH, INVALID_HEADER_TOKEN, UNEXPECTED_CONTENT_LENGTH}
    case HeaderValueDiscardLws => {INVALID_HEADER_TOKEN, UNEXPECTED_CONTENT_LENGTH}
    case HeadersAlmostDone => {STRICT, UNEXPECTED_CONTENT_LENGTH}
    case _ => {}
  }

  /** The errors of a state; a body of known length, and one that lasts to the end, refuse nothing. */
  function ErrorsOf(s: State): set<Errno> {
    match s
    case Idle(i) => if i.Dead? then {CLOSED_CONNECTION} else if i.StartRes? then {INVALID_CONSTANT} else {INVALID_METHOD}
    case Line(l) => LineErrors(l)
    case Head(h) => HeadErrors(h)
    case Content(_) => {}
    case Chunk(k) =>
      if k.ChunkSizeStart? then {INVALID_CHUNK_SIZE}
      else if k.ChunkSize? then {INVALID_CHUNK_SIZE, INVALID_CONTENT_LENGTH}
      else if k.ChunkParameters? || k.ChunkData? then {}
      else {STRICT}
  }

  predicate IsRefusal(p: Parser, o: Outcome) {
    o.p.errno != OK ==> o.p.errno in ErrorsOf(p.state)
  }

  lemma LineRefuses(p: Parser, s: LineState, ch: char)
    requires p.state == Line(s) && p.errno == OK
    ensures IsRefusal(p, OnLine(p, s, ch))
  {
    hide ParseUrlChar, NextGuess, MethodName, OnStatus, OnResVersion, OnReqVersion;
    NumbersRefuse(p, ch);
  }

  lemma NumbersRefuse(p: Parser, ch: char)
    requires p.errno == OK
    ensures forall v :: p.state == Line(ResVersion(v)) ==> IsRefusal(p, OnResVersion(p, v, ch))
    ensures forall v :: p.state == Line(ReqVersion(v)) ==> IsRefusal(p, OnReqVersion(p, v, ch))
    ensures forall t :: p.state == Line(ResStatus(t)) ==> IsRefusal(p, OnStatus(p, t, ch))
  {
  }

  lemma FieldStartRefuses(p: Parser, ch: char, before: seq<Event>)
    requires p.errno == OK
    ensures OnFieldStart(p, ch, before).p.errno in {OK, INVALID_HEADER_TOKEN, UNEXPECTED_CONTENT_LENGTH}
    ensures OnHeadersAlmostDone(p, ch, before).p.errno in {OK, STRICT, UNEXPECTED_CONTENT_LENGTH}
  {
    hide IsToken, TokenOf, ShouldKeepAlive, NeedsEof;
  }

  lemma ValueRefuses(p: Parser, skipping: bool, ch: char)
    requires p.errno == OK
    ensures OnValue(p, skipping, ch).p.errno in {OK, INVALID_HEADER_TOKEN, INVALID_CONTENT_LENGTH}
    ensures OnValueStart(p, ch).p.errno in {OK, INVALID_CONTENT_LENGTH}
  {
    hide IsHeaderChar, NameFor, Lower, IsToken, TokenStart, EndOfToken;
  }

  lemma HeadRefuses(p: Parser, s: HeadState, ch: char)
    requires p.state == Head(s) && p.errno == OK && !s.HeaderValue? && !s.HeadersDone? && !s.HeaderValueStart?
    ensures IsRefusal(p, OnHead(p, s, ch))
  {
    hide OnFieldStart, OnHeadersAlmostDone, OnHeadersDone, OnValueStart, EndOfLine, IsToken, TokenOf, FieldLetter;
    FieldStartRefuses(p, ch, []);
    LineEndRefusesNothing(p);
    FieldStartRefuses(EndOfLine(p), ch, []);
    FieldStartRefuses(EndOfLine(p), ch, [Data(Value, "")]);
    ValueRefuses(p, false, ch);
  }

  lemma LineEndRefusesNothing(p: Parser)
    ensures EndOfLine(p).errno == p.errno
  {
  }

  lemma BodyRefuses(p: Parser, ch: char)
    requires Inv(p) && p.errno == OK
    ensures forall s :: p.state == Content(s) ==> IsRefusal(p, OnContent(p, s, ch))
    ensures forall s :: p.state == Chunk(s) ==> IsRefusal(p, OnChunk(p, s, ch))
  {
    hide Unhex, ShouldKeepAlive;
  }

  lemma IdleRefuses(p: Parser, s: IdleState, ch: char)
    requires p.state == Idle(s) && p.errno == OK
    ensures IsRefusal(p, OnIdle(p, s, ch))
  {
    hide FirstGuess;
  }

  lemma PlacesOf(p: Parser, s: HeadState)
    requires Inv(p) && p.state == Head(s)
    ensures !s.HeadersDone? && !s.HeaderValueStart?
  {
  }

  lemma TransitionRefuses(p: Parser, skipping: bool, ch: char)
    requires Inv(p) && p.errno == OK
    ensures IsRefusal(p, Transition(p, skipping, ch))
  {
    hide OnIdle, OnLine, OnHead, OnValue, OnContent, OnChunk, Inv;
    match p.state
    case Idle(s) => IdleRefuses(p, s, ch); hide ErrorsOf;
    case Line(s) => LineRefuses(p, s, ch); hide ErrorsOf;
    case Head(s) =>
      PlacesOf(p, s);
      ValueRefuses(p, skipping, ch);
      if !s.HeaderValue? { HeadRefuses(p, s, ch); hide ErrorsOf; }
    case Content(_) => BodyRefuses(p, ch); hide ErrorsOf;
    case Chunk(_) => BodyRefuses(p, ch); hide ErrorsOf;
  }

  /**
    A run that is refused says where: the bytes that are used are taken without error, and the error is
    one of the state that they lead to.
   */
  lemma {:induction false} ErrorSaysWhere(c: Core, data: string)
    requires CoreInv(c) && c.p.errno == OK && Run(c, data).c.p.errno != OK
    ensures
      var r := Run(c, data);
      var d := Run(c, data[..r.used]).c;
      r.used < |data| && d.p.errno == OK && r.c.p.errno in ErrorsOf(d.p.state)
    decreases |data|
  {
    hide Step, CoreInv, ErrorsOf;
    var ch, rest := data[0], data[1..];
    StepInv(c, ch);
    var o := Step(c, ch);
    var r := Run(c, data);
    RunStopped(o.c, rest);
    if o.c.p.errno != OK {
      StepRefuses(c, ch);
      assert data[..0] == "";
      RunNothing(c);
    } else {
      ErrorSaysWhere(o.c, rest);
      var k := Run(o.c, rest).used;
      assert r.used == k + 1;
      assert data[..k + 1][0] == ch && data[..k + 1][1..] == rest[..k];
    }
  }

  lemma StepRefuses(c: Core, ch: char)
    requires CoreInv(c) && c.p.errno == OK && Step(c, ch).c.p.errno != OK
    ensures Step(c, ch).c.p.errno in ErrorsOf(c.p.state)
  {
    hide Transition, Inv, ErrorsOf;
    TransitionRefuses(c.p, c.skipping, ch);
  }
}
