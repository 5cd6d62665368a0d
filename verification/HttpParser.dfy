/**
  `http_parser_execute` over a buffer: marks, the inner loop over a field name, the jump over
  the rest of a header value, and the jumps over the bytes of a body.

  One call is proved to do what the byte machine does with the same input.
 */
module HttpParsers {
  import opened Chars
  import opened ParserTypes
  import opened Transitions
  import opened Machine
  import opened Invariant
  import opened Limits

  // ---- Marks ----

  /** The five mark variables; -1 is the null pointer. */
  datatype MarkSet = MarkSet(url: int, status: int, field: int, value: int, body: int)

  const NO_MARKS := MarkSet(-1, -1, -1, -1, -1)

  function MarkOf(m: MarkSet, kind: Kind): int {
    match kind
    case Url => m.url
    case Status(_) => m.status
    case Field => m.field
    case Value => m.value
    case Body => m.body
  }

  function SetMark(m: MarkSet, kind: Kind, at: int): MarkSet {
    match kind
    case Url => m.(url := at)
    case Status(_) => m.(status := at)
    case Field => m.(field := at)
    case Value => m.(value := at)
    case Body => m.(body := at)
  }

  /** `MARK`. */
  function PutMark(m: MarkSet, kind: Kind, at: nat): MarkSet {
    if MarkOf(m, kind) < 0 then SetMark(m, kind, at) else m
  }

  /** At most one mark is set, and what it marks up to `p` is the open slice. */
  predicate Marks(m: MarkSet, slice: Slice, data: string, p: nat)
    requires p <= |data|
  {
    match slice
    case Closed => m == NO_MARKS
    case Open(kind, bytes) =>
      var at := MarkOf(m, kind);
      0 <= at <= p && m == SetMark(NO_MARKS, kind, at) && bytes == data[at..p]
  }

  // ---- The jumps against the byte machine ----

  function After(events: seq<Event>, n: nat, r: RunOut): RunOut {
    RunOut(r.c, events + r.events, n + r.used)
  }

  lemma RunOne(c: Core, data: string, p: nat)
    requires p < |data| && Going(c)
    ensures
      var o := Step(c, data[p]);
      Run(c, data[p..]) ==
        if o.c.p.errno == OK then After(o.events, 1, Run(o.c, data[p + 1..])) else RunOut(o.c, o.events, 0)
  {
    hide Step;
    assert data[p..][1..] == data[p + 1..];
    var o := Step(c, data[p]);
    if o.c.p.errno != OK {
      assert Run(o.c, data[p + 1..]) == RunOut(o.c, [], 0);
      assert o.events + [] == o.events;
    }
  }

  /** The bytes `bytes` joined to what is marked. */
  function Grown(slice: Slice, kind: Kind, bytes: string): Slice {
    match slice
    case Open(k, b) => Open(k, b + bytes)
    case Closed => if bytes == "" then Closed else Open(kind, bytes)
  }

  lemma GrownByNothing(slice: Slice, kind: Kind)
    ensures Grown(slice, kind, "") == slice
  {
    if slice.Open? {
      assert slice.bytes + "" == slice.bytes;
    }
  }

  lemma GrownByMore(slice: Slice, kind: Kind, data: string, k: nat)
    requires 0 < k <= |data|
    ensures Grown(Extend(slice, At(kind), data[0]), kind, data[1..][..k - 1]) == Grown(slice, kind, data[..k])
  {
    assert [data[0]] + data[1..][..k - 1] == data[..k];
    if slice.Open? {
      assert slice.bytes + [data[0]] + data[1..][..k - 1] == slice.bytes + data[..k];
    }
  }

  /** A core in a body, `bytes` later: they are marked and taken from its length. */
  function InBody(c: Core, bytes: string): Core
    requires c.p.state != Content(BodyIdentityEof) ==> |bytes| <= c.p.contentLength
  {
    c.(p := if c.p.state == Content(BodyIdentityEof) then c.p
            else c.p.(contentLength := c.p.contentLength - |bytes|),
       slice := Grown(c.slice, Body, bytes))
  }

  /** The states with bytes of a body, and no letter of a header behind. */
  predicate Bodily(c: Core) {
    && Going(c) && !c.skipping && !c.inside
    && (c.p.state == Content(BodyIdentity) || c.p.state == Content(BodyIdentityEof) || c.p.state == Chunk(ChunkData))
  }

  lemma StepBody(c: Core, ch: char)
    requires Bodily(c) && (c.p.state != Content(BodyIdentityEof) ==> c.p.contentLength > 1)
    ensures Step(c, ch) == StepOut(InBody(c, [ch]), [])
  {
  }

  /** The first of `k` bytes of a body, and the others. */
  lemma BodyGoesOn(c: Core, data: string, k: nat)
    requires Bodily(c) && 0 < k <= |data|
    requires c.p.state != Content(BodyIdentityEof) ==> k < c.p.contentLength
    ensures Step(c, data[0]) == StepOut(InBody(c, [data[0]]), [])
    ensures
      var d := InBody(c, [data[0]]);
      && Bodily(d) && d.p.state == c.p.state
      && (c.p.state != Content(BodyIdentityEof) ==> k - 1 < d.p.contentLength)
      && InBody(d, data[1..][..k - 1]) == InBody(c, data[..k])
    ensures data[1..][k - 1..] == data[k..]
  {
    hide Step;
    StepBody(c, data[0]);
    GrownByMore(c.slice, Body, data, k);
  }

  /** `k` bytes of a body that is longer than that. */
  lemma {:induction false} SkipBody(c: Core, data: string, k: nat)
    requires Bodily(c) && k <= |data|
    requires c.p.state != Content(BodyIdentityEof) ==> k < c.p.contentLength
    ensures Run(c, data) == After([], k, Run(InBody(c, data[..k]), data[k..]))
    decreases k
  {
    hide Step, Grown;
    if k == 0 {
      assert data[0..] == data && data[..0] == "";
      GrownByNothing(c.slice, Body);
    } else {
      BodyGoesOn(c, data, k);
      hide InBody;
      SkipBody(InBody(c, [data[0]]), data[1..], k - 1);
    }
  }

  /** In a body the limit is not looked at. */
  lemma {:induction false} BodyHasNoLimit(c: Core, data: string, k: nat)
    requires Bodily(c) && k <= |data|
    requires c.p.state != Content(BodyIdentityEof) ==> k < c.p.contentLength
    ensures Limit(c, data) == Later([], k, Limit(InBody(c, data[..k]), data[k..]))
    decreases k
  {
    hide Step, Grown;
    if k == 0 {
      assert data[0..] == data && data[..0] == "";
      GrownByNothing(c.slice, Body);
      LaterNothing(Limit(c, data));
    } else {
      BodyGoesOn(c, data, k);
      hide InBody;
      BodyHasNoLimit(InBody(c, [data[0]]), data[1..], k - 1);
      LaterTwice([], 1, [], k - 1, Limit(InBody(c, data[..k]), data[k..]));
    }
  }

  /** A core in a field name or value, `n` letters later. */
  function Within(c: Core, bytes: string): (d: Core)
    ensures d.p == c.p && d.skipping == c.skipping && d.halted == c.halted
    ensures c.slice.Open? ==> d.slice.Open?
  {
    c.(nread := c.nread + |bytes|,
       slice := Grown(c.slice, if c.p.state == Head(HeaderField) then Field else Value, bytes),
       inside := c.inside || bytes != "",
       over := c.over || (bytes != "" && c.nread + |bytes| > MAX_HEADER_SIZE))
  }

  /** In the rest of a value that says nothing to the parser. */
  predicate Skipping(c: Core) {
    Going(c) && c.p.state == Head(HeaderValue) && c.p.hstate.General? && c.skipping && c.slice.Open?
  }

  lemma StepValue(c: Core, ch: char)
    requires Skipping(c) && ch != CR && ch != LF
    ensures Step(c, ch) == StepOut(Within(c, [ch]), [])
  {
  }

  lemma WithinTwice(c: Core, ch: char, rest: string)
    requires c.slice.Open?
    ensures Within(Within(c, [ch]), rest) == Within(c, [ch] + rest)
  {
    assert c.slice.bytes + [ch] + rest == c.slice.bytes + ([ch] + rest);
  }

  lemma {:induction false} SkipValue(c: Core, data: string, k: nat)
    requires Skipping(c) && k <= |data| && NoLineEnd(data[..k])
    ensures Run(c, data) == After([], k, Run(Within(c, data[..k]), data[k..]))
    decreases k
  {
    hide Step;
    if k == 0 {
      assert data[0..] == data;
      GrownByNothing(c.slice, Value);
    } else {
      var ch, rest := data[0], data[1..];
      assert data[..k] == [ch] + rest[..k - 1] && rest[k - 1..] == data[k..];
      assert ch in data[..k] && forall x <- rest[..k - 1] :: x in data[..k];
      StepValue(c, ch);
      SkipValue(Step(c, ch).c, rest, k - 1);
      WithinTwice(c, ch, rest[..k - 1]);
    }
  }

  /** Nor is it within the rest of a value. */
  lemma {:induction false} SkippedHasNoLimit(c: Core, data: string, k: nat)
    requires Skipping(c) && c.inside && k <= |data| && NoLineEnd(data[..k])
    ensures Limit(c, data) == Later([], k, Limit(Within(c, data[..k]), data[k..]))
    decreases k
  {
    hide Step;
    if k == 0 {
      assert data[0..] == data;
      GrownByNothing(c.slice, Value);
      LaterNothing(Limit(c, data));
    } else {
      var ch, rest := data[0], data[1..];
      assert data[..k] == [ch] + rest[..k - 1] && rest[k - 1..] == data[k..];
      assert ch in data[..k] && forall x <- rest[..k - 1] :: x in data[..k];
      StepValue(c, ch);
      SkippedHasNoLimit(Step(c, ch).c, rest, k - 1);
      WithinTwice(c, ch, rest[..k - 1]);
      LaterTwice([], 1, [], k - 1, Limit(Within(c, data[..k]), data[k..]));
    }
  }

  /** A header that is longer than the limit is found to be so, whatever follows. */
  lemma SkipTooMuch(c: Core, data: string)
    requires Skipping(c) && c.nread > 0
    requires |data| >= MAX_HEADER_SIZE && NoLineEnd(data[..MAX_HEADER_SIZE - 1])
    ensures Run(c, data).c.over
  {
    hide Transition;
    var k := MAX_HEADER_SIZE - 1;
    SkipValue(c, data, k);
    var d := Within(c, data[..k]);
    OverIsSticky(Step(d, data[k..][0]).c, data[k..][1..]);
  }

  // The inner loops over a field name and a header value

  /** `d` is what the machine makes of the letters `data[start..p]`, from `c`. */
  predicate LetterRun(c: Core, d: Core, data: string, start: nat, p: nat) {
    && start <= p <= |data|
    && CoreInv(d) && Going(d) && d.p.state == c.p.state && InLetters(d.p.state)
    && d == Within(c, data[start..p]).(p := d.p, skipping := d.skipping)
    && Run(c, data[start..]) == After([], p - start, Run(d, data[p..]))
  }

  /** The limit is not noticed within them. */
  predicate LimitRun(c: Core, d: Core, data: string, start: nat, p: nat) {
    start <= p <= |data| && Limit(c, data[start..]) == Later([], p - start, Limit(d, data[p..]))
  }

  lemma LetterRunStarts(c: Core, data: string, start: nat)
    requires start <= |data| && CoreInv(c) && Going(c) && InLetters(c.p.state)
    ensures LetterRun(c, c, data, start, start) && LimitRun(c, c, data, start, start)
  {
    hide Run, Inv, Limit;
    assert data[start..start] == "";
    GrownByNothing(c.slice, if c.p.state == Head(HeaderField) then Field else Value);
    LaterNothing(Limit(c, data[start..]));
  }

  lemma WithinMore(c: Core, d: Core, data: string, start: nat, p: nat, k: nat)
    requires start <= p <= p + k <= |data|
    requires c.slice.Open? && c.p.state == d.p.state
    requires d == Within(c, data[start..p]).(p := d.p, skipping := d.skipping)
    ensures Within(d, data[p..p + k]) == Within(c, data[start..p + k]).(p := d.p, skipping := d.skipping)
  {
    assert data[start..p + k] == data[start..p] + data[p..p + k];
    assert c.slice.bytes + data[start..p] + data[p..p + k] == c.slice.bytes + data[start..p + k];
  }

  /** The limit is not noticed at a letter. */
  predicate Unlimited(d: Core, data: string, p: nat) {
    p < |data| && !Exceeds(d, data[p]) && !Jumps(d, data[p..])
  }

  /** Once its first byte is within the limit, a name or a value goes on to its end. */
  lemma LetterIsUnlimited(c: Core, d: Core, data: string, start: nat, p: nat)
    requires LetterRun(c, d, data, start, p) && p < |data| && !c.inside && Counted(c) <= MAX_HEADER_SIZE
    requires !Leaves(d.p, data[p]) && !Jumps(d, data[p..])
    ensures Unlimited(d, data, p)
  {
    hide Run, Limit, Inv;
  }

  /** One more letter. */
  lemma LetterRunGoesOn(c: Core, d: Core, data: string, start: nat, p: nat, q: Parser, skipping: bool)
    requires LetterRun(c, d, data, start, p) && p < |data| && c.slice.Open?
    requires q.errno == OK && q.state == d.p.state
    requires Step(d, data[p]) == StepOut(Within(d, [data[p]]).(p := q, skipping := skipping), [])
    ensures LetterRun(c, Step(d, data[p]).c, data, start, p + 1)
  {
    hide Step, CoreInv, Within, Run;
    StepInv(d, data[p]);
    assert data[p..p + 1] == [data[p]];
    WithinMore(c, d, data, start, p, 1);
    RunOne(d, data, p);
  }

  lemma LimitGoesOn(c: Core, d: Core, data: string, start: nat, p: nat)
    requires LimitRun(c, d, data, start, p) && Unlimited(d, data, p) && Going(d)
    requires Step(d, data[p]).c.p.errno == OK && Step(d, data[p]).events == []
    ensures LimitRun(c, Step(d, data[p]).c, data, start, p + 1)
  {
    hide Step, Limit, Exceeds, Jumps;
    LimitOne(d, data, p);
    LaterTwice([], p - start, [], 1, Limit(Step(d, data[p]).c, data[p + 1..]));
  }

  /** A byte that is refused. */
  lemma LetterRunStops(c: Core, d: Core, data: string, start: nat, p: nat)
    requires LetterRun(c, d, data, start, p) && LimitRun(c, d, data, start, p) && Unlimited(d, data, p)
    requires Step(d, data[p]).c.p.errno != OK && Step(d, data[p]).events == []
    ensures Run(c, data[start..]) == RunOut(Step(d, data[p]).c, [], p - start)
    ensures Limit(c, data[start..]).Unnoticed?
  {
    hide Step, CoreInv, Within, Run, Limit, Exceeds, Jumps;
    RunOne(d, data, p);
    LimitOne(d, data, p);
  }

  /** The jump over `k` letters. */
  lemma LetterRunJumps(c: Core, d: Core, data: string, start: nat, p: nat, k: nat)
    requires LetterRun(c, d, data, start, p) && p + k <= |data| && c.slice.Open?
    requires Skipping(d) && NoLineEnd(data[p..p + k])
    ensures LetterRun(c, Within(d, data[p..p + k]), data, start, p + k)
  {
    hide Step, Run, Inv;
    WithinMore(c, d, data, start, p, k);
    assert data[p..][..k] == data[p..p + k] && data[p..][k..] == data[p + k..];
    SkipValue(d, data[p..], k);
  }

  lemma LimitJumps(c: Core, d: Core, data: string, start: nat, p: nat, k: nat)
    requires LimitRun(c, d, data, start, p) && p + k <= |data|
    requires Skipping(d) && d.inside && NoLineEnd(data[p..p + k])
    ensures LimitRun(c, Within(d, data[p..p + k]), data, start, p + k)
  {
    hide Step, Limit, Within, NoLineEnd;
    assert data[p..][..k] == data[p..p + k] && data[p..][k..] == data[p + k..];
    SkippedHasNoLimit(d, data[p..], k);
    LaterTwice([], p - start, [], k, Limit(Within(d, data[p..p + k]), data[p + k..]));
  }

  /** Where the window of the jump does not show the end of the line, the limit is noticed at the end of the buffer. */
  lemma WindowIsLimit(c: Core, d: Core, data: string, start: nat, p: nat)
    requires LetterRun(c, d, data, start, p) && LimitRun(c, d, data, start, p)
    requires p < |data| && !c.inside && Counted(c) <= MAX_HEADER_SIZE
    requires !Leaves(d.p, data[p]) && Jumps(d, data[p..])
    ensures Limit(c, data[start..]) == Noticed(|data| - start, [], d.p)
  {
    hide Run, Inv, Step, Jumps;
    var none: seq<Event> := [];
    assert none + none == none;
  }

  lemma LetterRunIs(c: Core, d: Core, data: string, start: nat, p: nat)
    requires LetterRun(c, d, data, start, p)
    ensures CoreInv(d) && Going(d) && d.p.state == c.p.state && InLetters(d.p.state) && start <= p <= |data|
    ensures !c.inside ==> d.inside == (p > start)
    ensures c.slice.Open? ==> d.slice.Open?
  {
    hide Run, Inv;
  }

  lemma NoJump(d: Core, data: string, p: nat)
    requires p < |data| && (!IsHeaderChar(data[p]) || !d.p.hstate.General? || d.p.state != Head(HeaderValue))
    ensures !Jumps(d, data[p..])
  {
    hide IsHeaderChar, NoLineEnd;
  }

  lemma JumpIsSeen(data: string, p: nat, q: nat, d: Core)
    requires p < |data| && p <= q <= |data| && d.p.state == Head(HeaderValue) && d.p.hstate.General? && !d.skipping
    requires IsHeaderChar(data[p])
    requires NoLineEnd(data[p..if q - p <= MAX_HEADER_SIZE then q else p + MAX_HEADER_SIZE])
    requires q < |data| ==> q - p < MAX_HEADER_SIZE && (data[q] == CR || data[q] == LF)
    ensures Jumps(d, data[p..]) <==> q - p > MAX_HEADER_SIZE
  {
    hide IsHeaderChar;
    if |data| - p > MAX_HEADER_SIZE {
      assert data[p..][..MAX_HEADER_SIZE] == data[p..p + MAX_HEADER_SIZE];
      if q < |data| {
        assert data[q] == data[p..p + MAX_HEADER_SIZE][q - p];
      }
    }
  }

  lemma NoLineEndAfter(data: string, p: nat, q: nat)
    requires p < q <= |data| && NoLineEnd(data[p..q])
    ensures NoLineEnd(data[p + 1..q])
  {
    assert data[p..q] == [data[p]] + data[p + 1..q];
  }

  lemma JumpTooFar(c: Core, d: Core, data: string, start: nat, p: nat)
    requires LetterRun(c, d, data, start, p + 1) && Skipping(d) && start <= p
    requires |data| - p > MAX_HEADER_SIZE && NoLineEnd(data[p..p + MAX_HEADER_SIZE])
    ensures Run(c, data[start..]).c.over
  {
    hide Step, Run;
    NoLineEndAfter(data, p, p + MAX_HEADER_SIZE);
    assert data[p + 1..][..MAX_HEADER_SIZE - 1] == data[p + 1..p + MAX_HEADER_SIZE];
    SkipTooMuch(d, data[p + 1..]);
  }

  lemma StepLetter(c: Core, ch: char)
    requires CoreInv(c) && Going(c) && c.p.state == Head(HeaderField) && IsToken(ch)
    ensures
      var q := OnField(c.p, ch).p;
      && (q.errno == OK ==> Step(c, ch) == StepOut(Within(c, [ch]).(p := q, skipping := false), []))
      && (q.errno != OK ==> Step(c, ch).c.p == q && Step(c, ch).events == [] && q.errno != HEADER_OVERFLOW)
      && q == c.p.(hstate := q.hstate, index := q.index, flags := q.flags, errno := q.errno)
      && IsFieldState(c.p.hstate)
  {
    hide FieldLetter;
  }

  /** A value byte that the parser looks at. */
  lemma StepSpecial(c: Core, ch: char)
    requires CoreInv(c) && Going(c) && c.p.state == Head(HeaderValue) && !c.p.hstate.General?
    requires IsHeaderChar(ch) && ch != CR && ch != LF
    ensures
      var q := OnSpecialValue(c.p, ch).p;
      && (q.errno == OK ==> Step(c, ch) == StepOut(Within(c, [ch]).(p := q, skipping := false), []))
      && (q.errno != OK ==> Step(c, ch).c.p == q && Step(c, ch).events == [] && q.errno != HEADER_OVERFLOW)
      && q == c.p.(hstate := q.hstate, index := q.index, flags := q.flags, contentLength := q.contentLength,
                   errno := q.errno)
      && IsValueState(c.p.hstate)
  {
    hide OnSpecialValue;
    SpecialShape(c.p, ch);
  }

  /** The first byte of a value that says nothing to the parser. */
  lemma StepGeneral(c: Core, ch: char)
    requires CoreInv(c) && Going(c) && c.p.state == Head(HeaderValue) && c.p.hstate.General? && !c.skipping
    requires ch != CR && ch != LF
    ensures
      if IsHeaderChar(ch) then Step(c, ch) == StepOut(Within(c, [ch]).(skipping := true), [])
      else Step(c, ch).c.p == c.p.(errno := INVALID_HEADER_TOKEN) && Step(c, ch).events == []
  {
  }

  lemma StepRefused(c: Core, ch: char)
    requires CoreInv(c) && c.p.state == Head(HeaderValue) && !c.skipping
    requires !IsHeaderChar(ch)
    ensures Step(c, ch).c.p == c.p.(errno := INVALID_HEADER_TOKEN) && Step(c, ch).events == []
  {
  }

  /** A byte of an unknown value, and the rest of it. */
  predicate MayJump(c: Core, e: Core, data: string, start: nat, p: nat) {
    && LetterRun(c, e, data, start, p) && LimitRun(c, e, data, start, p) && p < |data| && c.slice.Open?
    && e.p.state == Head(HeaderValue) && e.p.hstate.General? && !e.skipping
    && IsHeaderChar(data[p]) && data[p] != CR && data[p] != LF
    && !c.inside && Counted(c) <= MAX_HEADER_SIZE
  }

  lemma FirstOfJump(c: Core, e: Core, data: string, start: nat, p: nat)
    requires MayJump(c, e, data, start, p)
    ensures LetterRun(c, Step(e, data[p]).c, data, start, p + 1) && Skipping(Step(e, data[p]).c)
    ensures Step(e, data[p]) == StepOut(Within(e, [data[p]]).(skipping := true), [])
  {
    hide LetterRun, LimitRun, IsHeaderChar, Step, Inv, SliceFits;
    LetterRunIs(c, e, data, start, p);
    StepGeneral(e, data[p]);
    LetterRunGoesOn(c, e, data, start, p, e.p, true);
  }

  /** The jump to the end of the line, or of the buffer. */
  lemma ValueJumps(c: Core, e: Core, data: string, start: nat, p: nat, q: nat)
    requires MayJump(c, e, data, start, p) && p < q <= |data| && NoLineEnd(data[p..q]) && !Jumps(e, data[p..])
    ensures
      var d := Within(Step(e, data[p]).c, data[p + 1..q]);
      LetterRun(c, d, data, start, q) && LimitRun(c, d, data, start, q) && d.p == e.p
  {
    hide LetterRun, LimitRun, IsHeaderChar, Step, Jumps, Within, NoLineEnd;
    FirstOfJump(c, e, data, start, p);
    LetterRunIs(c, e, data, start, p);
    LetterIsUnlimited(c, e, data, start, p);
    LimitGoesOn(c, e, data, start, p);
    var d := Step(e, data[p]).c;
    LetterRunIs(c, d, data, start, p + 1);
    NoLineEndAfter(data, p, q);
    LetterRunJumps(c, d, data, start, p + 1, q - p - 1);
    LimitJumps(c, d, data, start, p + 1, q - p - 1);
    assert p + 1 + (q - p - 1) == q;
  }

  /** No end of the line is in sight. */
  lemma ValueIsLost(c: Core, e: Core, data: string, start: nat, p: nat)
    requires MayJump(c, e, data, start, p) && Jumps(e, data[p..])
    ensures |data| - p > MAX_HEADER_SIZE
    ensures Run(c, data[start..]).c.over && Limit(c, data[start..]) == Noticed(|data| - start, [], e.p)
  {
    hide LetterRun, LimitRun, IsHeaderChar, Step, Within, Run, Limit;
    assert data[p..][..MAX_HEADER_SIZE] == data[p..p + MAX_HEADER_SIZE];
    FirstOfJump(c, e, data, start, p);
    LetterRunIs(c, e, data, start, p);
    WindowIsLimit(c, e, data, start, p);
    JumpTooFar(c, Step(e, data[p]).c, data, start, p);
  }

  // ---- The marks and one byte ----

  /** The callback for a mark, if it is set: `CALLBACK_DATA`. */
  function FlushCalls(m: MarkSet, kind: Kind, data: string, p: nat): seq<Event>
    requires MarkOf(m, kind) <= p <= |data|
  {
    if MarkOf(m, kind) >= 0 then [Data(kind, data[MarkOf(m, kind)..p])] else []
  }

  function FlushMark(m: MarkSet, kind: Kind): MarkSet {
    if MarkOf(m, kind) >= 0 then SetMark(m, kind, -1) else m
  }

  lemma MarksFlush(m: MarkSet, slice: Slice, kind: Kind, data: string, p: nat)
    requires p <= |data| && Marks(m, slice, data, p)
    requires slice.Open? ==> slice.kind == kind
    ensures MarkOf(m, kind) <= p
    ensures FlushCalls(m, kind, data, p) == Rest(slice)
    ensures FlushMark(m, kind) == NO_MARKS
  {
  }

  lemma MarksExtend(m: MarkSet, slice: Slice, mark: Mark, data: string, p: nat)
    requires p < |data| && Marks(m, slice, data, p)
    requires mark.At? && slice.Open? ==> slice.kind == mark.kind
    ensures Marks(if mark.At? then PutMark(m, mark.kind, p) else m, Extend(slice, mark, data[p]), data, p + 1)
  {
    match slice
    case Open(kind, bytes) =>
      assert data[MarkOf(m, kind)..p + 1] == bytes + [data[p]];
    case Closed =>
      if mark.At? {
        assert data[p..p + 1] == [data[p]];
      }
  }

  // ---- The parser ----

  /** `memchr(data + from, ch, limit)`: where `ch` first is, or nothing. */
  method Memchr(data: string, from: nat, ch: char, limit: nat) returns (at: int)
    requires from + limit <= |data|
    ensures at == -1 ==> ch !in data[from..from + limit]
    ensures at != -1 ==> from <= at < from + limit && data[at] == ch && ch !in data[from..at]
  {
    var i := from;
    while i < from + limit
      invariant from <= i <= from + limit
      invariant ch !in data[from..i]
    {
      if data[i] == ch {
        return i;
      }
      assert data[from..i + 1] == data[from..i] + [data[i]];
      i := i + 1;
    }
    return -1;
  }

  /** The machine takes `data[..p]` to `c` with `calls`, and the limit is not noticed there. */
  predicate Reaches(c0: Core, data: string, calls: seq<Event>, p: nat, c: Core) {
    && p <= |data|
    && Run(c0, data) == After(calls, p, Run(c, data[p..]))
    && Limit(c0, data) == Later(calls, p, Limit(c, data[p..]))
  }

  /** One more byte, where the limit is not noticed. */
  lemma ReachesOne(c0: Core, data: string, calls: seq<Event>, p: nat, c: Core)
    requires Reaches(c0, data, calls, p, c) && Unlimited(c, data, p) && Going(c)
    ensures
      var o := Step(c, data[p]);
      if o.c.p.errno == OK then Reaches(c0, data, calls + o.events, p + 1, o.c)
      else Run(c0, data) == RunOut(o.c, calls + o.events, p) && Limit(c0, data).Unnoticed?
  {
    hide Step, Run, Limit, Exceeds, Jumps;
    var o := Step(c, data[p]);
    RunOne(c, data, p);
    LimitOne(c, data, p);
    if o.c.p.errno == OK {
      LaterTwice(calls, p, o.events, 1, Limit(o.c, data[p + 1..]));
      assert calls + (o.events + Run(o.c, data[p + 1..]).events) == calls + o.events + Run(o.c, data[p + 1..]).events;
    }
  }

  /** Where the call leaves for an upgrade. */
  lemma ReachesHalted(c0: Core, data: string, calls: seq<Event>, p: nat, c: Core)
    requires Reaches(c0, data, calls, p, c) && !Going(c)
    ensures Run(c0, data) == RunOut(c, calls, p) && Limit(c0, data).Unnoticed?
  {
    RunStopped(c, data[p..]);
    assert calls + [] == calls;
  }

  /** The letters of a name or a value. */
  lemma ReachesLetters(c0: Core, data: string, calls: seq<Event>, p: nat, c: Core, n: nat, d: Core)
    requires Reaches(c0, data, calls, p, c) && LetterRun(c, d, data, p, n) && LimitRun(c, d, data, p, n)
    ensures Reaches(c0, data, calls, n, d)
  {
    hide Run, Limit, Inv, Within;
    LaterTwice(calls, p, [], n - p, Limit(d, data[n..]));
    assert calls + [] == calls;
    assert calls + ([] + Run(d, data[n..]).events) == calls + Run(d, data[n..]).events;
  }

  lemma ReachesRefusal(c0: Core, data: string, calls: seq<Event>, p: nat, c: Core, d: Core, n: nat)
    requires Reaches(c0, data, calls, p, c) && p <= n
    requires Run(c, data[p..]) == RunOut(d, [], n - p) && Limit(c, data[p..]).Unnoticed?
    ensures Run(c0, data) == RunOut(d, calls, n) && Limit(c0, data).Unnoticed?
  {
    hide Run, Limit;
    assert calls + [] == calls;
  }

  lemma ReachesLost(c0: Core, data: string, calls: seq<Event>, p: nat, c: Core)
    requires Reaches(c0, data, calls, p, c)
    requires Limit(c, data[p..]).Noticed? && Limit(c, data[p..]).n == |data| - p && Limit(c, data[p..]).told == []
    requires Run(c, data[p..]).c.over
    ensures Limit(c0, data) == Noticed(|data|, calls, Limit(c, data[p..]).p)
    ensures Finish(Run(c0, data)).c.over && calls <= Run(c0, data).events
  {
    hide Run, Limit;
    assert calls + [] == calls;
  }

  /** The limit is noticed at `n`: the callback for a value is made before, if a CR ends it. */
  lemma NoticedBehind(c0: Core, data: string, calls: seq<Event>, n: nat, d: Core)
    requires Reaches(c0, data, calls, n, d) && Going(d) && ParsingHeader(d.p.state) && d.nread + 1 > MAX_HEADER_SIZE
    requires if n == |data| then d.inside else !d.inside || Leaves(d.p, data[n])
    ensures Limit(c0, data) ==
      if n < |data| && HandsOver(d, data[n]) then
        Noticed(n, calls + Rest(d.slice), d.p.(state := Head(HeaderAlmostDone)))
      else Noticed(n, calls, d.p)
  {
    hide Run;
    assert calls + [] == calls;
    if n < |data| {
      assert data[n..][0] == data[n];
    }
  }

  lemma PlainIsUnlimited(c: Core, data: string, p: nat)
    requires p < |data| && Counted(c) <= MAX_HEADER_SIZE && c.p.state != Head(HeaderValue)
    ensures Unlimited(c, data, p)
  {
    hide IsHeaderChar, NoLineEnd;
  }

  lemma BodyIsUnlimited(c: Core, data: string, p: nat)
    requires p < |data| && Bodily(c)
    ensures Unlimited(c, data, p)
  {
    hide IsHeaderChar, NoLineEnd;
  }

  /** The byte behind a name or a value, once the count is within the limit. */
  lemma BehindIsUnlimited(c: Core, data: string, p: nat)
    requires p < |data| && c.nread + 1 <= MAX_HEADER_SIZE && InLetters(c.p.state) && Leaves(c.p, data[p])
    ensures Unlimited(c, data, p)
  {
    hide NoLineEnd, IsHeaderChar;
    if |data| - p > MAX_HEADER_SIZE {
      EndsFirst(data[p..][..MAX_HEADER_SIZE]);
    }
  }

  lemma EndsFirst(w: string)
    requires w != ""
    ensures w[0] == CR || w[0] == LF ==> !NoLineEnd(w)
  {
  }

  lemma UnnoticedAtEnd(c0: Core, data: string, calls: seq<Event>, c: Core)
    requires Reaches(c0, data, calls, |data|, c) && c.nread + (if c.inside then 1 else 0) <= MAX_HEADER_SIZE
    ensures Limit(c0, data).Unnoticed?
  {
    hide Run;
    assert data[|data|..] == "";
  }

  class HttpParser {
    var ptype: ParserType
    var flags: Flags
    var state: State
    var hstate: HeaderState
    var index: nat
    var nread: nat
    var contentLength: nat
    var major: nat
    var minor: nat
    var status: nat
    var verb: Method
    var errno: Errno
    var upgrade: bool

    /** The fields as one value. */
    function View(): Parser
      reads this
    {
      Parser(ptype, flags, state, hstate, index, contentLength, major, minor, status, verb, errno, upgrade)
    }

    ghost predicate Valid()
      reads this
    {
      errno == OK ==> Inv(View()) && nread <= MAX_HEADER_SIZE && (state == Chunk(ChunkSizeStart) ==> nread == 0)
    }

    /** `http_parser_init`. */
    constructor (t: ParserType)
      ensures View() == Init(t) && nread == 0
      ensures Valid()
    {
      ptype := t;
      flags := NO_FLAGS;
      state := Init(t).state;
      hstate, index, nread, contentLength := General, 0, 0, 0;
      major, minor, status := 0, 0, 0;
      verb, errno, upgrade := DELETE, OK, false;
    }

    method Store(p: Parser)
      modifies this
      ensures View() == p && nread == old(nread)
    {
      ptype, flags, state, hstate, index := p.ptype, p.flags, p.state, p.hstate, p.index;
      contentLength, major, minor, status := p.contentLength, p.major, p.minor, p.status;
      verb, errno, upgrade := p.verb, p.errno, p.upgrade;
    }

    /** One letter of a name or token against the name of the matching state. */
    method MatchOne(letter: char, otherwise: HeaderState)
      requires NameFor(hstate) != ""
      modifies `hstate, `index
      ensures index == old(index) + 1
      ensures hstate == MatchLetter(old(hstate), old(index), letter, otherwise)
    {
      index := index + 1;
      if index > |NameFor(hstate)| || letter != CharAt(NameFor(hstate), index) {
        hstate := otherwise;
      } else if index == |NameFor(hstate)| - 1 {
        hstate := Matched(hstate);
      }
    }

    /** A letter behind the whole of a known name. */
    method EndName(ch: char)
      modifies `hstate
      ensures hstate == if ch != ' ' then General else old(hstate)
    {
      if ch != ' ' {
        hstate := General;
      }
    }

    /** One letter of a field name. */
    method TakeLetter(ch: char)
      requires IsToken(ch) && IsFieldState(hstate)
      modifies `hstate, `index, `flags, `errno
      ensures View() == OnField(old(View()), ch).p
    {
      var letter := TokenOf(ch);
      match hstate {
        case General =>
        case C =>
          index := index + 1;
          hstate := if letter == 'o' then CO else General;
        case CO =>
          index := index + 1;
          hstate := if letter == 'n' then CON else General;
        case CON =>
          index := index + 1;
          hstate :=
            if letter == 'n' then MatchingConnection else if letter == 't' then MatchingContentLength else General;
        case MatchingContentLength =>
          MatchOne(letter, General);
          if hstate.ContentLength? {
            if flags.contentLength {
              errno := UNEXPECTED_CONTENT_LENGTH;
              hstate := MatchingContentLength;
              return;
            }
            flags := flags.(contentLength := true);
          }
        case MatchingConnection => MatchOne(letter, General);
        case MatchingProxyConnection => MatchOne(letter, General);
        case MatchingTransferEncoding => MatchOne(letter, General);
        case MatchingUpgrade => MatchOne(letter, General);
        case Connection => EndName(ch);
        case ContentLength => EndName(ch);
        case TransferEncoding => EndName(ch);
        case Upgrade => EndName(ch);
        case _ => assert false;  // "Unknown header_state"
      }
    }

    /** The bytes of a field name from `start` on: `p` is the first byte that is none. */
    method ScanField(data: string, start: nat, ghost c: Core) returns (p: nat, ghost d: Core)
      requires start <= |data|
      requires errno == OK && state == Head(HeaderField)
      requires c.p == View() && CoreInv(c) && Going(c) && c.slice.Open? && !c.inside && Counted(c) <= MAX_HEADER_SIZE
      modifies `hstate, `index, `flags, `errno
      ensures start <= p <= |data| && d.p == View()
      ensures errno == OK ==> LetterRun(c, d, data, start, p) && (p < |data| ==> !IsToken(data[p]))
      ensures errno == OK ==> LimitRun(c, d, data, start, p)
      ensures errno == OK && !c.skipping ==> !d.skipping
      ensures errno != OK ==>
        && errno != HEADER_OVERFLOW && p < |data| && Run(c, data[start..]) == RunOut(d, [], p - start)
        && Limit(c, data[start..]).Unnoticed?
    {
      hide Step, OnField, CoreInv, IsToken, Within, Run, Limit, Counted, Exceeds;
      p, d := start, c;
      LetterRunStarts(c, data, start);
      while p < |data|
        invariant p <= |data|
        invariant errno == OK && d.p == View() && LetterRun(c, d, data, start, p) && LimitRun(c, d, data, start, p)
        invariant !c.skipping ==> !d.skipping
      {
        var ch := data[p];
        if !IsToken(ch) {
          break;
        }
        ghost var e := d;
        NoJump(e, data, p);
        LetterIsUnlimited(c, e, data, start, p);
        StepLetter(e, ch);
        d := Step(e, ch).c;
        TakeLetter(ch);
        if errno != OK {
          LetterRunStops(c, e, data, start, p);
          return;
        }
        LetterRunGoesOn(c, e, data, start, p, View(), false);
        LimitGoesOn(c, e, data, start, p);
        p := p + 1;
      }
    }

    /** One byte of a value in one of the recognising header states. */
    method TakeValueByte(ch: char)
      requires IsValueState(hstate) && !hstate.General?
      modifies `hstate, `index, `flags, `contentLength, `errno
      ensures View() == OnSpecialValue(old(View()), ch).p
    {
      var c := Lower(ch);
      match hstate {
        case ContentLength =>
          if ch != ' ' {
            if !IsNum(ch) || (NO_LENGTH - 10) / 10 < contentLength {
              errno := INVALID_CONTENT_LENGTH;
              return;
            }
            contentLength := (contentLength * 10 + DigitOf(ch)) % UINT64_LIMIT;
          }
        case MatchingChunked => MatchOne(c, General);
        case MatchingTokenStart =>
          if c == 'k' {
            hstate := MatchingKeepAlive;
          } else if c == 'c' {
            hstate := MatchingClose;
          } else if c == 'u' {
            hstate := MatchingConnUpgrade;
          } else if IsToken(c) {
            hstate := MatchingToken;
          } else if c != ' ' && c != '\t' {
            hstate := General;
          }
        case MatchingKeepAlive => MatchOne(c, MatchingToken);
        case MatchingClose => MatchOne(c, MatchingToken);
        case MatchingConnUpgrade => MatchOne(c, MatchingToken);
        case MatchingToken =>
          if ch == ',' {
            hstate, index := MatchingTokenStart, 0;
          }
        case Chunked =>
          if ch != ' ' {
            hstate := General;
          }
        case ConnKeepAlive => AfterConnectionToken(ch);
        case ConnClose => AfterConnectionToken(ch);
        case ConnUpgrade => AfterConnectionToken(ch);
        case _ => assert false;  // "Shouldn't get here."
      }
    }

    /** A byte behind a known token of a Connection header. */
    method AfterConnectionToken(ch: char)
      modifies `hstate, `index, `flags
      ensures View() == OnAfterToken(old(View()), ch).p
    {
      if ch == ',' {
        flags := EndOfToken(flags, hstate);
        hstate, index := MatchingTokenStart, 0;
      } else if ch != ' ' {
        hstate := MatchingToken;
      }
    }

    /** Where a value of which nothing is to be recognised ends, or `|data|`. */
    method LineEnd(data: string, p: nat) returns (q: nat)
      requires p < |data|
      ensures p <= q <= |data|
      ensures NoLineEnd(data[p..if q - p <= MAX_HEADER_SIZE then q else p + MAX_HEADER_SIZE])
      ensures q < |data| ==> q - p < MAX_HEADER_SIZE && (data[q] == CR || data[q] == LF)
    {
      var limit := |data| - p;
      if MAX_HEADER_SIZE < limit {
        limit := MAX_HEADER_SIZE;
      }
      var cr := Memchr(data, p, CR, limit);
      var lf := Memchr(data, p, LF, limit);
      if cr != -1 {
        q := if lf != -1 && cr >= lf then lf else cr;
      } else if lf != -1 {
        q := lf;
      } else {
        q := |data|;
      }
    }

    /**
      The bytes of a header value from `start` on: `p` is the first CR or LF, or the end.
      `lost` says that the value was too long for its end to be looked for.
     */
    method ScanValue(data: string, start: nat, ghost c: Core) returns (p: nat, ghost d: Core, ghost lost: bool)
      requires start <= |data|
      requires errno == OK && state == Head(HeaderValue)
      requires c.p == View() && CoreInv(c) && Going(c) && c.slice.Open? && !c.skipping
      requires !c.inside && Counted(c) <= MAX_HEADER_SIZE
      modifies `hstate, `index, `flags, `contentLength, `errno
      ensures start <= p <= |data|
      ensures errno == OK && !lost ==>
        && d.p == View() && LetterRun(c, d, data, start, p) && LimitRun(c, d, data, start, p)
        && (p < |data| ==> data[p] == CR || data[p] == LF)
        && (d.skipping ==> p > start)
      ensures lost ==>
        && p == |data| && p - start > MAX_HEADER_SIZE && Run(c, data[start..]).c.over
        && Limit(c, data[start..]) == Noticed(p - start, [], View())
      ensures errno != OK ==>
        && !lost && errno != HEADER_OVERFLOW && p < |data|
        && d.p.errno == errno && Run(c, data[start..]) == RunOut(d, [], p - start)
        && Limit(c, data[start..]).Unnoticed?
    {
      hide Step, OnSpecialValue, CoreInv, IsHeaderChar, Within, Run, Limit, Counted, Exceeds, Jumps, LetterRun;
      p, d, lost := start, c, false;
      LetterRunStarts(c, data, start);
      while p < |data|
        invariant p <= |data|
        invariant errno == OK && d.p == View() && LetterRun(c, d, data, start, p) && LimitRun(c, d, data, start, p)
        invariant d.skipping ==> p > start && (p < |data| ==> data[p] == CR || data[p] == LF)
      {
        var ch := data[p];
        if ch == CR || ch == LF {
          break;
        }
        ghost var e := d;
        LetterRunIs(c, e, data, start, p);
        if !IsHeaderChar(ch) || !hstate.General? {
          NoJump(e, data, p);
        }
        if !IsHeaderChar(ch) {
          LetterIsUnlimited(c, e, data, start, p);
          StepRefused(e, ch);
          LetterRunStops(c, e, data, start, p);
          d := Step(e, ch).c;
          errno := INVALID_HEADER_TOKEN;
          return;
        }
        if hstate.General? {
          var q := LineEnd(data, p);
          JumpIsSeen(data, p, q, e);
          if q - p > MAX_HEADER_SIZE {
            ValueIsLost(c, e, data, start, p);
            p, lost := q, true;
            return;
          }
          ValueJumps(c, e, data, start, p, q);
          d := Within(Step(e, ch).c, data[p + 1..q]);
          p := q;
        } else {
          d := Step(e, ch).c;
          LetterIsUnlimited(c, e, data, start, p);
          StepSpecial(e, ch);
          TakeValueByte(ch);
          if errno != OK {
            LetterRunStops(c, e, data, start, p);
            return;
          }
          LetterRunGoesOn(c, e, data, start, p, View(), false);
          LimitGoesOn(c, e, data, start, p);
          p := p + 1;
        }
      }
    }

    /** Everything up to `p` is done: the machine is at `c`, and `calls` have been made. */
    ghost predicate Sync(c0: Core, data: string, p: nat, marks: MarkSet, calls: seq<Event>, c: Core)
      reads this
    {
      && p <= |data|
      && errno == OK && Going(c) && c.p == View() && CoreInv(c) && !c.over
      && Marks(marks, c.slice, data, p)
      && Reaches(c0, data, calls, p, c)
      && (c.skipping ==> c.inside) && (c.inside ==> p == |data|)
      && nread == c.nread + (if c.inside then 1 else 0) && nread <= MAX_HEADER_SIZE
    }

    /** The byte at `p` has been counted, and nothing else done with it. */
    ghost predicate Begun(c0: Core, data: string, p: nat, marks: MarkSet, calls: seq<Event>, c: Core)
      reads this
    {
      && p < |data|
      && errno == OK && Going(c) && c.p == View() && CoreInv(c) && !c.over
      && Marks(marks, c.slice, data, p)
      && Reaches(c0, data, calls, p, c)
      && !c.skipping && !c.inside
      && nread == Counted(c) <= MAX_HEADER_SIZE
    }

    /** The call returns `n` before the end of its input, or at an error. */
    ghost predicate Ended(c0: Core, data: string, n: nat, calls: seq<Event>)
      reads this
    {
      var r := Run(c0, data);
      && n <= |data|
      && (errno == OK ==>
            && r == RunOut(r.c, calls, n) && r.c.p == View() && r.c.halted && CoreInv(r.c)
            && !r.c.over && nread == r.c.nread <= MAX_HEADER_SIZE)
      && (errno != OK && errno != HEADER_OVERFLOW ==>
            r.c.p.errno == errno && r.events == calls && r.used == n)
      && (errno == HEADER_OVERFLOW ==> Finish(r).c.over && calls <= r.events)
      && Limit(c0, data) == (if errno == HEADER_OVERFLOW then Noticed(n, calls, View().(errno := OK)) else Unnoticed)
    }

    /** A byte that needs no loop. */
    method PlainByte(data: string, p: nat, marks: MarkSet, calls: seq<Event>, ghost c0: Core, ghost c: Core)
      returns (more: bool, n: nat, marks': MarkSet, calls': seq<Event>, ghost d: Core)
      requires Begun(c0, data, p, marks, calls, c)
      requires !InLetters(state) && !Bodily(c)
      modifies this
      ensures more ==> n == p + 1 && Sync(c0, data, n, marks', calls', d)
      ensures !more ==> Ended(c0, data, n, calls')
    {
      hide Run, Inv, Transition, FlushCalls, FlushMark, Reaches, Limit;
      var ch := data[p];
      var o := Transition(View(), false, ch);
      PlainTransition(c, ch);
      TransitionInv(c.p, false, ch);
      StepInv(c, ch);
      PlainIsUnlimited(c, data, p);
      ReachesOne(c0, data, calls, p, c);
      d := Step(c, ch).c;
      Store(o.p);
      if o.reset {
        nread := 0;
      }
      marks', calls' := marks, calls;
      if o.flush.Before? {
        MarksFlush(marks, c.slice, o.flush.kind, data, p);
        calls' := calls' + FlushCalls(marks, o.flush.kind, data, p);
        marks' := FlushMark(marks, o.flush.kind);
      }
      calls' := calls' + o.notes;
      assert calls' == calls + Step(c, ch).events;
      if errno != OK {
        return false, p, marks', calls', d;
      }
      if o.halt {
        ReachesHalted(c0, data, calls', p + 1, d);
        return false, p + 1, marks', calls', d;
      }
      MarksExtend(marks', Hand(c.slice, o.flush, ch).0, o.mark, data, p);
      if o.mark.At? {
        marks' := PutMark(marks', o.mark.kind, p);
      }
      return true, p + 1, marks', calls', d;
    }

    /** `COUNT_HEADER_SIZE`: false if the limit is passed. */
    method Count(n: nat) returns (ok: bool)
      requires nread + n < UINT32_LIMIT
      modifies `nread, `errno
      ensures nread == old(nread) + n
      ensures ok <==> nread <= MAX_HEADER_SIZE
      ensures errno == if ok then old(errno) else HEADER_OVERFLOW
    {
      nread := (nread + n) % UINT32_LIMIT;
      ok := nread <= MAX_HEADER_SIZE;
      if !ok {
        errno := HEADER_OVERFLOW;
      }
    }

    /** The bytes of a field name, up to the colon. */
    method FieldBytes(data: string, p: nat, marks: MarkSet, calls: seq<Event>, ghost c0: Core, ghost c: Core)
      returns (more: bool, n: nat, marks': MarkSet, calls': seq<Event>, ghost d: Core)
      requires Begun(c0, data, p, marks, calls, c)
      requires state == Head(HeaderField)
      requires |data| < UINT32_LIMIT - MAX_HEADER_SIZE
      modifies this
      ensures more ==> p < n && Sync(c0, data, n, marks', calls', d)
      ensures !more ==> Ended(c0, data, n, calls')
    {
      hide Run, CoreInv, Step, IsToken, Within, FlushCalls, FlushMark, LetterRun, LimitRun, Limit, Reaches, Finish;
      marks', calls' := marks, calls;
      LettersAreMarked(c);
      n, d := ScanField(data, p, c);
      if errno != OK {
        ReachesRefusal(c0, data, calls, p, c, d, n);
        return false, n, marks', calls', d;
      }
      LettersDone(c, d, data, p, n);
      ReachesLetters(c0, data, calls, p, c, n, d);
      MarksWithin(marks, c, data, p, n);
      MarksFlush(marks, d.slice, Field, data, n);
      LimitReached(c0, data, calls, n, d);
      var ok := Count(n - p);
      if !ok {
        NoticedBehind(c0, data, calls, n, d);
        return false, n, marks', calls', d;
      }
      if n == |data| {
        return true, n, marks', calls', d;
      }
      more, n, marks', calls', d := ColonByte(data, n, marks, calls, c0, d);
    }

    /** The byte behind a field name, which has to be a colon. */
    method ColonByte(data: string, p: nat, marks: MarkSet, calls: seq<Event>, ghost c0: Core, ghost c: Core)
      returns (more: bool, n: nat, marks': MarkSet, calls': seq<Event>, ghost d: Core)
      requires p < |data| && errno == OK && !IsToken(data[p])
      requires Going(c) && CoreInv(c) && !c.over && c.p.state == Head(HeaderField) && c.p == View()
      requires c.slice.Open? && c.slice.kind == Field && Marks(marks, c.slice, data, p)
      requires nread == c.nread + 1 <= MAX_HEADER_SIZE
      requires Reaches(c0, data, calls, p, c)
      modifies this
      ensures more ==> n == p + 1 && Sync(c0, data, n, marks', calls', d)
      ensures !more ==> Ended(c0, data, n, calls')
    {
      hide Run, CoreInv, Step, IsToken, Reaches, Limit;
      marks', calls', n := marks, calls, p;
      MarksFlush(marks, c.slice, Field, data, p);
      StepAfterField(c, data[p]);
      StepInv(c, data[p]);
      BehindIsUnlimited(c, data, p);
      ReachesOne(c0, data, calls, p, c);
      d := Step(c, data[p]).c;
      if data[p] != ':' {
        assert calls + [] == calls;
        errno := INVALID_HEADER_TOKEN;
        return false, n, marks', calls', d;
      }
      state := Head(HeaderValueDiscardWs);
      calls' := calls' + FlushCalls(marks', Field, data, p);
      marks' := FlushMark(marks', Field);
      return true, n + 1, marks', calls', d;
    }

    /** The bytes of a header value, up to the end of its line. */
    method ValueBytes(data: string, p: nat, marks: MarkSet, calls: seq<Event>, ghost c0: Core, ghost c: Core)
      returns (more: bool, n: nat, marks': MarkSet, calls': seq<Event>, ghost d: Core)
      requires Begun(c0, data, p, marks, calls, c)
      requires state == Head(HeaderValue)
      requires |data| < UINT32_LIMIT - MAX_HEADER_SIZE
      modifies this
      ensures more ==> p < n && Sync(c0, data, n, marks', calls', d)
      ensures !more ==> Ended(c0, data, n, calls')
    {
      hide Run, CoreInv, Step, Within, FlushCalls, FlushMark, LetterRun, NoLineEnd, LimitRun, Limit, Reaches, Finish;
      marks', calls' := marks, calls;
      LettersAreMarked(c);
      ghost var lost;
      n, d, lost := ScanValue(data, p, c);
      if errno != OK {
        ReachesRefusal(c0, data, calls, p, c, d, n);
        return false, n, marks', calls', d;
      }
      if lost {
        ReachesLost(c0, data, calls, p, c);
      } else {
        LettersDone(c, d, data, p, n);
        ReachesLetters(c0, data, calls, p, c, n, d);
        MarksWithin(marks, c, data, p, n);
        MarksFlush(marks, d.slice, Value, data, n);
        LimitReached(c0, data, calls, n, d);
      }
      if n < |data| && data[n] == CR {
        ValueIsTold(c0, data, calls, n, d);
        state := Head(HeaderAlmostDone);
        calls' := calls' + FlushCalls(marks', Value, data, n);
        marks' := FlushMark(marks', Value);
      }
      var ok := Count(n - p);
      if !ok || n == |data| {
        if !ok && !lost {
          NoticedBehind(c0, data, calls, n, d);
        }
        return ok, n, marks', calls', d;
      }
      more, n, marks', calls', d := LineEndByte(data, n, marks', calls, calls', c0, d);
    }

    /** The CR or LF behind a value; an LF is looked at again in the next state. */
    method LineEndByte(data: string, p: nat, marks: MarkSet, ghost calls: seq<Event>, told: seq<Event>,
                       ghost c0: Core, ghost c: Core)
      returns (more: bool, n: nat, marks': MarkSet, calls': seq<Event>, ghost d: Core)
      requires p < |data| && errno == OK && (data[p] == CR || data[p] == LF)
      requires Going(c) && CoreInv(c) && !c.over && c.p.state == Head(HeaderValue)
      requires nread == c.nread + 1 <= MAX_HEADER_SIZE
      requires Reaches(c0, data, calls, p, c)
      requires data[p] == LF ==> View() == c.p && Marks(marks, c.slice, data, p) && told == calls
      requires data[p] == CR ==>
        && View() == c.p.(state := Head(HeaderAlmostDone)) && marks == NO_MARKS
        && told == calls + [Data(Value, c.slice.bytes)]
      modifies this
      ensures more && n == p + 1 && Sync(c0, data, n, marks', calls', d)
    {
      hide Run, Inv, Step, Reaches, Limit;
      marks', calls', n := marks, told, p + 1;
      StepAfterValue(c, data[p]);
      StepInv(c, data[p]);
      BehindIsUnlimited(c, data, p);
      ReachesOne(c0, data, calls, p, c);
      d := Step(c, data[p]).c;
      if data[p] == LF {
        state := Head(HeaderAlmostDone);
        MarksFlush(marks, c.slice, Value, data, p);
        calls' := calls' + FlushCalls(marks', Value, data, p);
        marks' := FlushMark(marks', Value);
        state := Head(HeaderValueLws);
      }
      more := true;
    }

    /** The bytes of a body that are there, or those that it still wants. */
    method BodyBytes(data: string, p: nat, marks: MarkSet, calls: seq<Event>, ghost c0: Core, ghost c: Core)
      returns (more: bool, n: nat, marks': MarkSet, calls': seq<Event>, ghost d: Core)
      requires Begun(c0, data, p, marks, calls, c)
      requires Bodily(c)
      modifies this
      ensures more ==> p < n && Sync(c0, data, n, marks', calls', d)
      ensures !more ==> Ended(c0, data, n, calls')
    {
      hide Run, CoreInv, Step, InBody, Reaches, Limit;
      calls' := calls;
      marks' := PutMark(marks, Body, p);
      BodyLength(c);
      if state == Content(BodyIdentityEof) {
        JumpBody(c0, data, calls, p, c, |data| - p, marks);
        d := InBody(c, data[p..p + (|data| - p)]);
        return true, |data|, marks', calls', d;
      }
      assert contentLength != 0 && contentLength != NO_LENGTH;
      var toRead := if contentLength < |data| - p then contentLength else |data| - p;
      contentLength := contentLength - toRead;
      if contentLength > 0 {
        JumpBody(c0, data, calls, p, c, toRead, marks);
        d := InBody(c, data[p..p + toRead]);
        return true, p + toRead, marks', calls', d;
      }
      JumpBody(c0, data, calls, p, c, toRead - 1, marks);
      n := p + toRead - 1;
      d := InBody(c, data[p..n]);
      BodySlice(d);
      MarksExtend(if toRead > 1 then marks' else marks, d.slice, At(Body), data, n);
      more, n, marks', calls', d := LastBodyByte(data, n, marks', calls', c0, d);
    }

    /** The last byte of a body, or of a chunk, which is looked at a second time. */
    method LastBodyByte(data: string, p: nat, marks: MarkSet, calls: seq<Event>, ghost c0: Core, ghost c: Core)
      returns (more: bool, n: nat, marks': MarkSet, calls': seq<Event>, ghost d: Core)
      requires p < |data| && errno == OK
      requires Bodily(c) && c.p.state != Content(BodyIdentityEof) && CoreInv(c) && !c.over
      requires c.p.contentLength == 1 && View() == c.p.(contentLength := 0)
      requires nread == c.nread <= MAX_HEADER_SIZE
      requires Marks(marks, Extend(c.slice, At(Body), data[p]), data, p + 1)
      requires Reaches(c0, data, calls, p, c)
      modifies this
      ensures more ==> n == p + 1 && Sync(c0, data, n, marks', calls', d)
      ensures !more ==> Ended(c0, data, n, calls')
    {
      hide Run, CoreInv, Step, InBody, NewMessage, FlushCalls, FlushMark, Reaches, Limit;
      marks', calls', n := marks, calls, p + 1;
      StepLastOfBody(c, data[p]);
      StepInv(c, data[p]);
      BodyIsUnlimited(c, data, p);
      ReachesOne(c0, data, calls, p, c);
      d := Step(c, data[p]).c;
      if state == Chunk(ChunkData) {
        assert calls + [] == calls;
        state := Chunk(ChunkDataAlmostDone);
        return true, n, marks', calls', d;
      }
      state := Content(MessageDone);
      BodySlice(c);
      MarksFlush(marks', Extend(c.slice, At(Body), data[p]), Body, data, n);
      calls' := calls' + FlushCalls(marks', Body, data, n);
      marks' := FlushMark(marks', Body);
      NewMessageIgnoresState(c.p.(contentLength := 0), Content(MessageDone));
      state := NewMessage(View());
      calls' := calls' + [MessageComplete];
      ghost var bytes := Extend(c.slice, At(Body), data[p]).bytes;
      assert calls' == calls + [Data(Body, bytes), MessageComplete];
      if upgrade {
        ReachesHalted(c0, data, calls', n, d);
      }
      return !upgrade, n, marks', calls', d;
    }

    /** One turn of the loop: the limit, and then the state. */
    method Turn(data: string, p: nat, marks: MarkSet, calls: seq<Event>, ghost c0: Core, ghost c: Core)
      returns (more: bool, n: nat, marks': MarkSet, calls': seq<Event>, ghost d: Core)
      requires Sync(c0, data, p, marks, calls, c) && p < |data|
      requires |data| < UINT32_LIMIT - MAX_HEADER_SIZE
      modifies this
      ensures more ==> p < n <= |data| && Sync(c0, data, n, marks', calls', d)
      ensures !more ==> Ended(c0, data, n, calls')
    {
      hide Run, CoreInv, Marks, Reaches, Limit;
      if ParsingHeader(state) {
        LimitReachedAtTop(c0, data, calls, p, c);
        var ok := Count(1);
        if !ok {
          NoticedBehind(c0, data, calls, p, c);
          return false, p, marks, calls, c;
        }
      }
      match state {
        case Head(HeaderField) => more, n, marks', calls', d := FieldBytes(data, p, marks, calls, c0, c);
        case Head(HeaderValue) => more, n, marks', calls', d := ValueBytes(data, p, marks, calls, c0, c);
        case Content(_) =>
          NotMessageDone(c);
          more, n, marks', calls', d := BodyBytes(data, p, marks, calls, c0, c);
        case Chunk(ChunkData) => more, n, marks', calls', d := BodyBytes(data, p, marks, calls, c0, c);
        case _ => more, n, marks', calls', d := PlainByte(data, p, marks, calls, c0, c);
      }
    }

    /** What a call with some input is to leave, and to return. */
    ghost predicate Meets(p0: Parser, n0: nat, data: string, n: nat, calls: seq<Event>)
      reads this
    {
      var r := Call(p0, n0, data);
      && n <= |data|
      && (errno == OK <==> Succeeds(p0, n0, data))
      && (errno == OK ==> View() == r.c.p && nread == r.c.nread && calls == r.events && n == r.used)
      && (errno == OK && !r.c.halted ==> n == |data|)
      && (errno != OK && errno != HEADER_OVERFLOW ==>
            errno == r.c.p.errno && calls == r.events && n == r.used < |data|)
      && (errno == HEADER_OVERFLOW ==> r.c.over && calls <= r.events)
      && (var x := Limit(Begin(p0, n0), data);
          && (errno == HEADER_OVERFLOW <==> x.Noticed?)
          && (x.Noticed? ==> n == x.n && calls == x.told && View() == x.p.(errno := HEADER_OVERFLOW)))
    }

    lemma EndedMeets(p0: Parser, n0: nat, data: string, n: nat, calls: seq<Event>)
      requires Ended(Begin(p0, n0), data, n, calls) && p0.errno == OK
      ensures Meets(p0, n0, data, n, calls) && Valid()
    {
      hide Run, Inv, Limit;
      if errno != OK && errno != HEADER_OVERFLOW {
        RefusedIsUnused(Begin(p0, n0), data);
      }
    }

    /** The loop over the input, and the callbacks for a mark that is left. */
    method ExecuteBytes(data: string) returns (n: nat, calls: seq<Event>)
      requires Valid() && errno == OK && data != ""
      requires |data| < UINT32_LIMIT - MAX_HEADER_SIZE
      modifies this
      ensures Valid() && Meets(old(View()), old(nread), data, n, calls)
    {
      hide Sync, Ended, Meets;
      ghost var c0 := Begin(View(), nread);
      ghost var c := c0;
      calls, n := [], 0;
      var marks := if Marked(View()).At? then SetMark(NO_MARKS, Marked(View()).kind, 0) else NO_MARKS;
      SyncStarts(data);
      while n < |data|
        invariant n <= |data| && Sync(c0, data, n, marks, calls, c)
      {
        var more;
        more, n, marks, calls, c := Turn(data, n, marks, calls, c0, c);
        if !more {
          EndedMeets(old(View()), old(nread), data, n, calls);
          return n, calls;
        }
      }
      SyncMeets(old(View()), old(nread), data, marks, calls, c);
      calls := calls
        + (FlushCalls(marks, Field, data, n) + FlushCalls(marks, Value, data, n)
           + FlushCalls(marks, Url, data, n) + FlushCalls(marks, Body, data, n)
           + FlushCalls(marks, Status(status), data, n));
    }

    /**
      `http_parser_execute`: `n` bytes are parsed, and `calls` are the callbacks made, in order.

      The result is that of the byte machine, unless the header limit is hit, which the jumps
      may notice later than the bytes would.
     */
    method Execute(data: string) returns (n: nat, calls: seq<Event>)
      requires Valid()
      requires |data| < UINT32_LIMIT - MAX_HEADER_SIZE
      modifies this
      ensures Valid()
      ensures old(errno) != OK ==> n == 0 && calls == [] && View() == old(View()) && nread == old(nread)
      ensures old(errno) == OK && data == "" ==>
        var r := CallEof(old(View()), old(nread));
        View() == r.c.p && nread == r.c.nread && calls == r.events && n == r.used
      ensures old(errno) == OK && data != "" ==> Meets(old(View()), old(nread), data, n, calls)
    {
      if errno != OK {
        return 0, [];
      }
      if |data| == 0 {
        if state == Content(BodyIdentityEof) {
          return 0, [MessageComplete];
        } else if state.Idle? {
          return 0, [];
        } else {
          errno := INVALID_EOF_STATE;
          return 1, [];
        }
      }
      n, calls := ExecuteBytes(data);
    }

    lemma SyncStarts(data: string)
      requires Valid() && errno == OK
      ensures
        var p := View();
        Sync(Begin(p, nread), data, 0, if Marked(p).At? then SetMark(NO_MARKS, Marked(p).kind, 0) else NO_MARKS, [],
             Begin(p, nread))
    {
      hide Run, Inv, Limit;
      BeginInv(View(), nread);
      assert data[0..] == data && data[0..0] == "";
      LaterNothing(Limit(Begin(View(), nread), data));
    }

    lemma SyncMeets(p0: Parser, n0: nat, data: string, marks: MarkSet, calls: seq<Event>, c: Core)
      requires Sync(Begin(p0, n0), data, |data|, marks, calls, c)
      ensures Meets(p0, n0, data, |data|, calls + Rest(c.slice)) && Valid()
      ensures
        && marks.url <= |data| && marks.status <= |data| && marks.field <= |data|
        && marks.value <= |data| && marks.body <= |data|
        && FlushCalls(marks, Field, data, |data|) + FlushCalls(marks, Value, data, |data|)
           + FlushCalls(marks, Url, data, |data|) + FlushCalls(marks, Body, data, |data|)
           + FlushCalls(marks, Status(status), data, |data|) == Rest(c.slice)
    {
      hide Inv, Step;
      StatusSlice(c);
      MarksAtEnd(marks, c.slice, data, status);
      assert data[|data|..] == "";
      assert Limit(Begin(p0, n0), data).Unnoticed? by { UnnoticedAtEnd(Begin(p0, n0), data, calls, c); }
      hide Limit;
      assert calls + [] == calls;
    }
  }

  lemma NewMessageIgnoresState(p: Parser, s: State)
    ensures NewMessage(p.(state := s)) == NewMessage(p)
  {
  }

  lemma NotMessageDone(c: Core)
    requires CoreInv(c)
    ensures c.p.state.Content? ==> c.p.state == Content(BodyIdentity) || c.p.state == Content(BodyIdentityEof)
  {
  }

  lemma LimitReachedAtTop(c0: Core, data: string, calls: seq<Event>, n: nat, c: Core)
    requires n < |data| && Reaches(c0, data, calls, n, c)
    requires Going(c) && ParsingHeader(c.p.state)
    ensures c.nread + 1 > MAX_HEADER_SIZE ==> Finish(Run(c0, data)).c.over
    ensures calls <= Run(c0, data).events
  {
    hide Transition;
    if c.nread + 1 > MAX_HEADER_SIZE {
      RunOne(c, data, n);
      OverIsSticky(Step(c, data[n]).c, data[n + 1..]);
    }
  }

  lemma StatusSlice(c: Core)
    requires CoreInv(c)
    ensures c.slice.Open? && c.slice.kind.Status? ==> c.slice.kind == Status(c.p.status)
  {
  }

  lemma MarksAtEnd(m: MarkSet, slice: Slice, data: string, code: nat)
    requires Marks(m, slice, data, |data|)
    requires slice.Open? && slice.kind.Status? ==> slice.kind == Status(code)
    ensures m.url <= |data| && m.status <= |data| && m.field <= |data| && m.value <= |data| && m.body <= |data|
    ensures
      FlushCalls(m, Field, data, |data|) + FlushCalls(m, Value, data, |data|) + FlushCalls(m, Url, data, |data|)
      + FlushCalls(m, Body, data, |data|) + FlushCalls(m, Status(code), data, |data|) == Rest(slice)
  {
  }

  lemma LettersAreMarked(c: Core)
    requires CoreInv(c) && InLetters(c.p.state)
    ensures c.slice.Open?
  {
  }

  lemma LettersDone(c: Core, d: Core, data: string, start: nat, p: nat)
    requires LetterRun(c, d, data, start, p) && c.slice.Open? && !c.inside && !c.over && CoreInv(c)
    ensures d.slice.Open? && d.slice.kind == (if d.p.state == Head(HeaderField) then Field else Value)
    ensures d.nread == c.nread + (p - start) && d.inside == (p > start)
    ensures d.over ==> p > start && d.nread > MAX_HEADER_SIZE
    ensures CoreInv(d) && Going(d) && d.p.state == c.p.state
    ensures d.slice == Within(c, data[start..p]).slice
    ensures Run(c, data[start..]) == After([], p - start, Run(d, data[p..]))
  {
    hide Run;
  }

  lemma StepAfterValue(c: Core, ch: char)
    requires CoreInv(c) && Going(c) && c.p.state == Head(HeaderValue) && (ch == CR || ch == LF)
    ensures Step(c, ch) == StepOut(
      Core(c.p.(state := if ch == CR then Head(HeaderAlmostDone) else Head(HeaderValueLws)), c.nread + 1, Closed,
           false, false, c.over || c.nread + 1 > MAX_HEADER_SIZE, false),
      [Data(Value, c.slice.bytes)])
  {
  }

  lemma ValueIsTold(c0: Core, data: string, calls: seq<Event>, n: nat, d: Core)
    requires n < |data| && Reaches(c0, data, calls, n, d)
    requires CoreInv(d) && Going(d) && d.p.state == Head(HeaderValue) && d.slice.Open? && data[n] == CR
    ensures calls + [Data(Value, d.slice.bytes)] <= Run(c0, data).events
  {
    hide Run, CoreInv, Step;
    StepAfterValue(d, CR);
    RunOne(d, data, n);
    var rest := Run(Step(d, CR).c, data[n + 1..]).events;
    assert calls + ([Data(Value, d.slice.bytes)] + rest) == calls + [Data(Value, d.slice.bytes)] + rest;
  }

  lemma BodyInv(c: Core, bytes: string)
    requires CoreInv(c) && Bodily(c)
    requires c.p.state != Content(BodyIdentityEof) ==> |bytes| < c.p.contentLength
    ensures CoreInv(InBody(c, bytes)) && Bodily(InBody(c, bytes))
    ensures InBody(c, bytes).nread == c.nread && InBody(c, bytes).over == c.over
  {
  }

  lemma BodyLength(c: Core)
    requires CoreInv(c) && Bodily(c)
    ensures c.p.state != Content(BodyIdentityEof) ==> 0 < c.p.contentLength < NO_LENGTH
  {
  }

  /** The jump over `k` bytes of a body, in the middle of a call. */
  lemma JumpBody(c0: Core, data: string, calls: seq<Event>, p: nat, c: Core, k: nat, marks: MarkSet)
    requires p + k <= |data| && Bodily(c) && CoreInv(c)
    requires Reaches(c0, data, calls, p, c)
    requires c.p.state != Content(BodyIdentityEof) ==> k < c.p.contentLength
    requires Marks(marks, c.slice, data, p)
    ensures
      var d := InBody(c, data[p..p + k]);
      && Reaches(c0, data, calls, p + k, d)
      && CoreInv(d) && Bodily(d) && d.nread == c.nread && d.over == c.over
      && d.p == (if c.p.state == Content(BodyIdentityEof) then c.p
                 else c.p.(contentLength := c.p.contentLength - k))
      && Marks(if k > 0 then PutMark(marks, Body, p) else marks, d.slice, data, p + k)
  {
    hide Run, CoreInv, Limit;
    assert data[p..][..k] == data[p..p + k] && data[p..][k..] == data[p + k..];
    SkipBody(c, data[p..], k);
    BodyHasNoLimit(c, data[p..], k);
    LaterTwice(calls, p, [], k, Limit(InBody(c, data[p..p + k]), data[p + k..]));
    assert calls + [] == calls;
    BodyInv(c, data[p..p + k]);
    BodySlice(c);
    MarksGrown(marks, c.slice, data, p, k);
  }

  lemma BodySlice(c: Core)
    requires CoreInv(c) && Bodily(c)
    ensures c.slice.Open? ==> c.slice.kind == Body
  {
  }

  lemma MarksGrown(marks: MarkSet, slice: Slice, data: string, p: nat, k: nat)
    requires p + k <= |data| && Marks(marks, slice, data, p)
    requires slice.Open? ==> slice.kind == Body
    ensures Marks(if k > 0 then PutMark(marks, Body, p) else marks, Grown(slice, Body, data[p..p + k]), data, p + k)
  {
    if slice.Open? {
      var at := MarkOf(marks, Body);
      assert data[at..p + k] == data[at..p] + data[p..p + k];
    }
  }

  /** The byte with which a body, or a chunk, has all its bytes. */
  lemma StepLastOfBody(c: Core, ch: char)
    requires CoreInv(c) && Bodily(c) && c.p.contentLength == 1 && c.p.state != Content(BodyIdentityEof)
    ensures
      var slice := Extend(c.slice, At(Body), ch);
      var p := c.p.(contentLength := 0);
      Step(c, ch) ==
        if c.p.state == Chunk(ChunkData) then
          StepOut(c.(p := p.(state := Chunk(ChunkDataAlmostDone)), slice := slice), [])
        else
          StepOut(c.(p := p.(state := NewMessage(p)), slice := Closed, halted := p.upgrade),
                  [Data(Body, slice.bytes), MessageComplete])
  {
  }

  lemma MarksWithin(m: MarkSet, c: Core, data: string, p: nat, q: nat)
    requires p <= q <= |data| && Marks(m, c.slice, data, p) && c.slice.Open?
    ensures Marks(m, Within(c, data[p..q]).slice, data, q)
  {
    var at := MarkOf(m, c.slice.kind);
    assert data[at..q] == data[at..p] + data[p..q];
  }

  lemma LimitReached(c0: Core, data: string, calls: seq<Event>, n: nat, d: Core)
    requires n <= |data| && Reaches(c0, data, calls, n, d)
    requires Going(d) && InLetters(d.p.state) && (n == |data| ==> d.inside)
    ensures d.nread + 1 > MAX_HEADER_SIZE ==> Finish(Run(c0, data)).c.over
    ensures calls <= Run(c0, data).events
  {
    hide Transition;
    if d.nread + 1 > MAX_HEADER_SIZE && n < |data| {
      RunOne(d, data, n);
      OverIsSticky(Step(d, data[n]).c, data[n + 1..]);
    }
  }

  lemma StepAfterField(c: Core, ch: char)
    requires CoreInv(c) && Going(c) && c.p.state == Head(HeaderField) && !IsToken(ch)
    ensures
      if ch == ':' then
        Step(c, ch) == StepOut(
          Core(c.p.(state := Head(HeaderValueDiscardWs)), c.nread + 1, Closed, false, false,
               c.over || c.nread + 1 > MAX_HEADER_SIZE, false),
          [Data(Field, c.slice.bytes)])
      else Step(c, ch).c.p == c.p.(errno := INVALID_HEADER_TOKEN) && Step(c, ch).events == []
  {
  }

  lemma PlainTransition(c: Core, ch: char)
    requires CoreInv(c) && c.p.state != Head(HeaderValue) && !Bodily(c) && Going(c) && !c.skipping && !c.inside
    ensures !Transition(c.p, false, ch).flush.Through? && !Transition(c.p, false, ch).skipping
  {
    hide Transition;
    TransitionInv(c.p, false, ch);
  }
}
