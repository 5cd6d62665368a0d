/**
  The byte machine: `Transition` with the header limit and the marked bytes around it.

  `Call` is what one call of `http_parser_execute` is to do, byte by byte: no jump, no inner
  loop, no position in a buffer.
 */
module Machine {
  import opened Chars
  import opened ParserTypes
  import opened Transitions

  /** The marked bytes that are not handed over yet. */
  datatype Slice = Closed | Open(kind: Kind, bytes: string)

  /**
    The parser within one call.
    - `nread`: the bytes counted against the header limit;
    - `skipping`: the rest of the header value may be jumped over;
    - `inside`: the last byte was consumed inside a field name or value;
    - `over`: the header limit has been exceeded at some byte;
    - `halted`: the call returned early, for an upgrade.
   */
  datatype Core = Core(
    p: Parser, nread: nat, slice: Slice, skipping: bool, inside: bool, over: bool, halted: bool)

  predicate Going(c: Core) {
    c.p.errno == OK && !c.halted
  }

  datatype StepOut = StepOut(c: Core, events: seq<Event>)

  /** The callbacks for the marked bytes, and what stays marked. */
  function Hand(slice: Slice, flush: Flush, ch: char): (Slice, seq<Event>) {
    match flush
    case Keep => (slice, [])
    case Before(kind) =>
      if slice.Open? && slice.kind == kind then (Closed, [Data(kind, slice.bytes)]) else (slice, [])
    case Through(kind) =>
      if slice.Open? && slice.kind == kind then (Closed, [Data(kind, slice.bytes + [ch])])
      else (slice, [Data(kind, [ch])])
  }

  /** The marked bytes once the byte `ch` is done. */
  function Extend(slice: Slice, mark: Mark, ch: char): Slice {
    match slice
    case Open(kind, bytes) => Open(kind, bytes + [ch])
    case Closed => if mark.At? then Open(mark.kind, [ch]) else Closed
  }

  /** `COUNT_HEADER_SIZE(1)` at the top of the loop. */
  function Counted(c: Core): nat {
    if ParsingHeader(c.p.state) then c.nread + 1 else c.nread
  }

  /** The states whose bytes a loop within the loop takes. */
  predicate InLetters(s: State) {
    s == Head(HeaderField) || s == Head(HeaderValue)
  }

  predicate Inside(before: State, after: State) {
    before == after && InLetters(before)
  }

  function Step(c: Core, ch: char): StepOut {
    var o := Transition(c.p, c.skipping, ch);
    var (slice, events) := Hand(c.slice, o.flush, ch);
    StepOut(
      Core(o.p,
           if o.reset then 0 else Counted(c),
           if o.p.errno == OK then Extend(slice, o.mark, ch) else slice,
           o.skipping,
           Inside(c.p.state, o.p.state),
           c.over || (ParsingHeader(c.p.state) && Counted(c) > MAX_HEADER_SIZE),
           o.halt),
      events + o.notes)
  }

  /** `used` counts the bytes consumed: a byte that is refused is not. */
  datatype RunOut = RunOut(c: Core, events: seq<Event>, used: nat)

  function Run(c: Core, data: string): (r: RunOut)
    ensures r.used <= |data|
    decreases |data|
  {
    if data == [] || !Going(c) then RunOut(c, [], 0)
    else
      var o := Step(c, data[0]);
      var r := Run(o.c, data[1..]);
      RunOut(r.c, o.events + r.events, (if o.c.p.errno == OK then 1 else 0) + r.used)
  }

  /** The states in which bytes are marked, so that a call starts with a mark in them. */
  function Marked(p: Parser): Mark {
    match p.state
    case Line(ReqUrl(_)) => At(Url)
    case Line(ResStatus(StatusText)) => At(Status(p.status))
    case Head(HeaderField) => At(Field)
    case Head(HeaderValue) => At(Value)
    case _ => NoMark
  }

  function Resume(p: Parser): Slice {
    match Marked(p)
    case At(kind) => Open(kind, "")
    case NoMark => Closed
  }

  function Begin(p: Parser, nread: nat): Core {
    Core(p, nread, Resume(p), false, false, false, false)
  }

  function Rest(slice: Slice): seq<Event> {
    if slice.Open? then [Data(slice.kind, slice.bytes)] else []
  }

  /**
    The end of a call that ran out of input: the marked bytes are handed over, and a field
    name or value that is cut there counts one byte too many.
   */
  function Finish(r: RunOut): RunOut {
    if !Going(r.c) then r
    else
      var n := r.c.nread + (if r.c.inside then 1 else 0);
      RunOut(r.c.(nread := n, slice := Closed, over := r.c.over || n > MAX_HEADER_SIZE),
             r.events + Rest(r.c.slice), r.used)
  }

  /** One call with some input. */
  function Call(p: Parser, nread: nat, data: string): RunOut {
    Finish(Run(Begin(p, nread), data))
  }

  /** A call that meets no error and stays within the header limit. */
  predicate Succeeds(p: Parser, nread: nat, data: string) {
    var r := Call(p, nread, data);
    r.c.p.errno == OK && !r.c.over
  }

  /** One call without input, which says that the input has ended. */
  function CallEof(p: Parser, nread: nat): RunOut {
    var c := Begin(p, nread);
    match p.state
    case Content(BodyIdentityEof) => RunOut(c, [MessageComplete], 0)
    case Idle(_) => RunOut(c, [], 0)
    case _ => RunOut(c.(p := p.(errno := INVALID_EOF_STATE)), [], 1)
  }

  /** A byte that is allowed in a value, if it stands in one. */
  predicate CleanByte(p: Parser, ch: char) {
    p.state == Head(HeaderValue) ==> IsHeaderChar(ch)
  }

  /** All bytes that the machine takes in values are allowed there. */
  predicate Clean(c: Core, data: string)
    decreases |data|
  {
    data == [] || !Going(c) || (CleanByte(c.p, data[0]) && Clean(Step(c, data[0]).c, data[1..]))
  }

  // ---- Runs compose ----

  lemma {:induction false} RunAppend(c: Core, a: string, b: string)
    ensures
      var x := Run(c, a);
      var y := Run(x.c, b);
      Run(c, a + b) == RunOut(y.c, x.events + y.events, x.used + y.used)
    decreases |a|
  {
    hide Step;
    if a == [] || !Going(c) {
      assert a == [] ==> a + b == b;
    } else {
      var o := Step(c, a[0]);
      assert (a + b)[1..] == a[1..] + b;
      RunAppend(o.c, a[1..], b);
      var x := Run(o.c, a[1..]);
      var y := Run(x.c, b);
      assert o.events + (x.events + y.events) == (o.events + x.events) + y.events;
    }
  }

  lemma RunNothing(c: Core)
    ensures Run(c, "") == RunOut(c, [], 0)
  {
  }

  lemma RunStopped(c: Core, data: string)
    ensures !Going(c) ==> Run(c, data) == RunOut(c, [], 0)
  {
  }

  /** The header limit, once exceeded, stays exceeded. */
  lemma {:induction false} OverIsSticky(c: Core, data: string)
    requires c.over
    ensures Run(c, data).c.over
    decreases |data|
  {
    if data != [] && Going(c) {
      OverIsSticky(Step(c, data[0]).c, data[1..]);
    }
  }

  /** Input that fits the header limit does not exceed it. */
  lemma {:induction false} ShortIsNotOver(c: Core, data: string)
    requires !c.over && c.nread + |data| <= MAX_HEADER_SIZE
    ensures !Run(c, data).c.over && Run(c, data).c.nread <= c.nread + |data|
    decreases |data|
  {
    hide Transition;
    if data != [] && Going(c) {
      ShortIsNotOver(Step(c, data[0]).c, data[1..]);
    }
  }

  /** A run that is refused leaves the refused byte unused. */
  lemma {:induction false} RefusedIsUnused(c: Core, data: string)
    requires c.p.errno == OK && Run(c, data).c.p.errno != OK
    ensures Run(c, data).used < |data|
    decreases |data|
  {
    hide Step;
    if data != [] && Going(c) {
      var d := Step(c, data[0]).c;
      RunStopped(d, data[1..]);
      if d.p.errno == OK {
        RefusedIsUnused(d, data[1..]);
      }
    }
  }

  lemma {:induction false} CleanAppend(c: Core, a: string, b: string)
    ensures Clean(c, a + b) <==> Clean(c, a) && Clean(Run(c, a).c, b)
    decreases |a|
  {
    hide Step;
    if a == "" {
      assert a + b == b;
    } else if Going(c) {
      assert (a + b)[1..] == a[1..] + b;
      CleanAppend(Step(c, a[0]).c, a[1..], b);
    }
  }
}
