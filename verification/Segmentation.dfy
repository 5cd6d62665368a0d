/**
  Segmentation: how the input is cut into calls does not matter.

  The jumps of a call see more of the input when it comes in one piece. What they skip, what
  they count and what they hand over is compared here, byte by byte.
 */
module Segmentation {
  import opened Chars
  import opened ParserTypes
  import opened Transitions
  import opened Machine
  import opened Invariant
  import opened Traces

  /**
    `c`, with the trace `t` behind it, is in a call that began later than that of `d`, `u`.
    It has skipped no more, and has counted at most `k` bytes more.
   */
  predicate Alike(k: nat, t: seq<Event>, c: Core, u: seq<Event>, d: Core) {
    && CoreInv(c) && CoreInv(d)
    && c.p == d.p && c.halted == d.halted
    && d.nread <= c.nread <= d.nread + k
    && (d.over ==> c.over)
    && (c.skipping ==> d.skipping)
    && Show(t, c.slice) == Show(u, d.slice)
  }

  /** Being inside a jump only makes the parser take more. */
  lemma SkippingTakesMore(p: Parser, s: bool, t: bool, ch: char)
    requires s ==> t
    requires Transition(p, s, ch).p.errno == OK || CleanByte(p, ch)
    ensures Transition(p, s, ch) == Transition(p, t, ch)
  {
    hide OnHead, OnLine, OnIdle, OnContent, OnChunk, OnSpecialValue, OnHeaderAlmostDone;
  }

  lemma FlowIsOrderly(p: Parser, slice: Slice, o: Outcome)
    requires SliceFits(p, slice) && MarksFlow(p, o)
    ensures Orderly(slice, o)
  {
  }

  lemma SameMarks(p: Parser, s: Slice, t: Slice, o: Outcome, ch: char)
    requires SliceFits(p, s) && SliceFits(p, t) && MarksFlow(p, o)
    ensures
      var e := Extend(Hand(s, o.flush, ch).0, o.mark, ch);
      var f := Extend(Hand(t, o.flush, ch).0, o.mark, ch);
      e.Open? == f.Open? && (e.Open? ==> e.kind == f.kind)
  {
  }

  /** One byte keeps the two cores alike, if either of them takes it. */
  lemma StepAlike(k: nat, t: seq<Event>, c: Core, u: seq<Event>, d: Core, ch: char)
    requires Alike(k, t, c, u, d) && Going(c)
    requires Step(c, ch).c.p.errno == OK || (Step(d, ch).c.p.errno == OK && CleanByte(d.p, ch))
    ensures Step(c, ch).c.p.errno == OK && Step(d, ch).c.p.errno == OK
    ensures
      var x := Step(c, ch);
      var y := Step(d, ch);
      && Alike(k, JoinAll(t, x.events), x.c, JoinAll(u, y.events), y.c)
      && x.c.inside == y.c.inside
  {
    hide Transition, Inv, MarksFlow;
    SkippingTakesMore(c.p, c.skipping, d.skipping, ch);
    var o := Transition(c.p, c.skipping, ch);
    TransitionInv(c.p, c.skipping, ch);
    StepInv(c, ch);
    StepInv(d, ch);
    FlowIsOrderly(c.p, c.slice, o);
    FlowIsOrderly(d.p, d.slice, o);
    SameMarks(c.p, c.slice, d.slice, o, ch);
    StepShows(t, c.slice, o, ch);
    StepShows(u, d.slice, o, ch);
  }

  /** So do all the bytes of a piece. */
  lemma {:induction false} RunAlike(k: nat, t: seq<Event>, c: Core, u: seq<Event>, d: Core, data: string)
    requires Alike(k, t, c, u, d)
    requires Run(c, data).c.p.errno == OK || (Run(d, data).c.p.errno == OK && Clean(d, data))
    ensures
      var x := Run(c, data);
      var y := Run(d, data);
      && x.c.p.errno == OK && y.c.p.errno == OK && x.used == y.used
      && Alike(k, JoinAll(t, x.events), x.c, JoinAll(u, y.events), y.c)
      && (data != "" && Going(c) ==> x.c.inside == y.c.inside)
    decreases |data|
  {
    hide Step, Inv;
    if data != [] && Going(c) {
      var ch, rest := data[0], data[1..];
      var x, y := Step(c, ch), Step(d, ch);
      RunStopped(x.c, rest);
      RunStopped(y.c, rest);
      StepAlike(k, t, c, u, d, ch);
      RunAlike(k, JoinAll(t, x.events), x.c, JoinAll(u, y.events), y.c, rest);
      JoinAllAppend(t, x.events, Run(x.c, rest).events);
      JoinAllAppend(u, y.events, Run(y.c, rest).events);
      if rest == "" || !Going(x.c) {
        RunStopped(x.c, rest);
        RunStopped(y.c, rest);
      }
    }
  }

  // ---- Pieces ----

  function Concat(pieces: seq<string>): string {
    if pieces == [] then "" else pieces[0] + Concat(pieces[1..])
  }

  /** `ok`: every call succeeded and took all its input; `halted`: the last one left for an upgrade. */
  datatype FeedOut = FeedOut(p: Parser, nread: nat, events: seq<Event>, ok: bool, halted: bool)

  /** One call after the other. */
  function Feed(p: Parser, nread: nat, pieces: seq<string>): FeedOut
    decreases |pieces|
  {
    if pieces == [] then FeedOut(p, nread, [], true, false)
    else
      var r := Call(p, nread, pieces[0]);
      var ok := Succeeds(p, nread, pieces[0]) && r.used == |pieces[0]| && (r.c.halted ==> |pieces| == 1);
      if !ok || r.c.halted then FeedOut(r.c.p, r.c.nread, r.events, ok, r.c.halted)
      else
        var f := Feed(r.c.p, r.c.nread, pieces[1..]);
        FeedOut(f.p, f.nread, r.events + f.events, f.ok, f.halted)
  }

  predicate NonEmpty(pieces: seq<string>) {
    forall i | 0 <= i < |pieces| :: pieces[i] != ""
  }

  /** A call takes all its input unless it halts before the end or refuses a byte. */
  lemma {:induction false} TakesAll(c: Core, data: string)
    requires Run(c, data).c.p.errno == OK && !Run(c, data).c.halted
    ensures Run(c, data).used == |data|
    decreases |data|
  {
    hide Step;
    if data != [] && Going(c) {
      RunStopped(Step(c, data[0]).c, data[1..]);
      TakesAll(Step(c, data[0]).c, data[1..]);
    }
  }

  /** Where a call ends, a mark is handed over; the next one starts with an empty one. */
  lemma ShowResumed(t: seq<Event>, p: Parser, slice: Slice)
    requires SliceFits(p, slice)
    ensures Show(JoinAll(t, Rest(slice)), Resume(p)) == Show(t, slice)
  {
    if slice.Open? {
      JoinOne(t, Data(slice.kind, slice.bytes));
      JoinTwice(t, slice.kind, slice.bytes, "");
      assert slice.bytes + "" == slice.bytes;
    }
  }

  /** The cut between two calls keeps the cores alike, at the price of one byte in `nread`. */
  lemma CutAlike(k: nat, t: seq<Event>, c: Core, u: seq<Event>, d: Core)
    requires Alike(k, t, c, u, d) && Going(c) && !Finish(RunOut(c, [], 0)).c.over
    ensures
      var n := Finish(RunOut(c, [], 0)).c.nread;
      Alike(k + 1, JoinAll(t, Rest(c.slice)), Begin(c.p, n), u, d)
  {
    ShowResumed(t, c.p, c.slice);
  }

  /** What calls one by one come to, against one call that is already under way. */
  predicate FeedMatches(k: nat, t: seq<Event>, f: FeedOut, u: seq<Event>, r: RunOut, data: string) {
    && r.c.p == f.p && r.c.p.errno == OK && r.used == |data| && r.c.halted == f.halted
    && !Finish(r).c.over && Finish(r).c.nread <= f.nread <= Finish(r).c.nread + k
    && JoinAll(u, Finish(r).events) == JoinAll(t, f.events)
  }

  /** The last piece. */
  lemma LastMatches(k: nat, t: seq<Event>, x: RunOut, u: seq<Event>, y: RunOut, data: string)
    requires x.c.p.errno == OK && !Finish(x).c.over && x.c.inside == y.c.inside
    requires x.used == y.used == |data|
    requires Alike(k, JoinAll(t, x.events), x.c, JoinAll(u, y.events), y.c)
    ensures
      var z := Finish(x);
      FeedMatches(k, t, FeedOut(z.c.p, z.c.nread, z.events, true, z.c.halted), u, y, data)
  {
    hide Inv;
    JoinAllAppend(t, x.events, Rest(x.c.slice));
    JoinAllAppend(u, y.events, Rest(y.c.slice));
    if x.c.slice.Open? {
      JoinOne(JoinAll(t, x.events), Data(x.c.slice.kind, x.c.slice.bytes));
    }
    if y.c.slice.Open? {
      JoinOne(JoinAll(u, y.events), Data(y.c.slice.kind, y.c.slice.bytes));
    }
  }

  lemma FinishAppend(events: seq<Event>, used: nat, z: RunOut)
    ensures
      var r := RunOut(z.c, events + z.events, used + z.used);
      Finish(r) == RunOut(Finish(z).c, events + Finish(z).events, used + z.used)
  {
    assert events + (z.events + Rest(z.c.slice)) == events + z.events + Rest(z.c.slice);
  }

  lemma {:induction false} FeedAlike(
    k: nat, t: seq<Event>, p: Parser, n: nat, u: seq<Event>, d: Core, pieces: seq<string>)
    requires Alike(k, t, Begin(p, n), u, d) && p.errno == OK
    requires pieces != [] && NonEmpty(pieces)
    requires Feed(p, n, pieces).ok
    ensures FeedMatches(k + |pieces| - 1, t, Feed(p, n, pieces), u, Run(d, Concat(pieces)), Concat(pieces))
    decreases |pieces|
  {
    hide Run, Inv, Step;
    var c, data, rest := Begin(p, n), pieces[0], pieces[1..];
    var x, y := Run(c, data), Run(d, data);
    RunAlike(k, t, c, u, d, data);
    if rest == [] {
      assert data + Concat(rest) == data;
      assert Finish(x).events + [] == Finish(x).events;
      LastMatches(k, t, x, u, y, data);
    } else {
      RunAppend(d, data, Concat(rest));
      var t', u' := JoinAll(t, x.events), JoinAll(u, y.events);
      CutAlike(k, t', x.c, u', y.c);
      var t'' := JoinAll(t', Rest(x.c.slice));
      FeedAlike(k + 1, t'', x.c.p, Finish(x).c.nread, u', y.c, rest);
      JoinAllAppend(t, x.events, Rest(x.c.slice));
      var f := Feed(x.c.p, Finish(x).c.nread, rest);
      var z := Run(y.c, Concat(rest));
      JoinAllAppend(t, Finish(x).events, f.events);
      FinishAppend(y.events, y.used, z);
      JoinAllAppend(u, y.events, Finish(z).events);
    }
  }

  /** A parser a call may begin with. */
  predicate Ready(p: Parser, n: nat) {
    Inv(p) && p.errno == OK && (p.state == Chunk(ChunkSizeStart) ==> n == 0)
  }

  lemma InitIsReady(t: ParserType)
    ensures Ready(Init(t), 0)
  {
    InitInv(t);
    hide Inv;
  }

  /** One call that succeeds and takes all of its input. */
  predicate TakesWhole(p: Parser, n: nat, data: string) {
    Succeeds(p, n, data) && Call(p, n, data).used == |data|
  }

  /**
    Segmentation independence: what can be fed piece by piece can be fed at once. The parser is
    the same, the callbacks are the same once their slices are joined, and `nread` is smaller by
    less than the number of pieces.
   */
  lemma OneCallDoesAll(p: Parser, n: nat, pieces: seq<string>)
    requires Ready(p, n) && pieces != [] && NonEmpty(pieces)
    requires Feed(p, n, pieces).ok
    ensures TakesWhole(p, n, Concat(pieces))
    ensures
      var f := Feed(p, n, pieces);
      var r := Call(p, n, Concat(pieces));
      && r.c.p == f.p && r.c.halted == f.halted
      && Normal(r.events) == Normal(f.events)
      && r.c.nread <= f.nread < r.c.nread + |pieces|
  {
    hide Run, Inv;
    BeginInv(p, n);
    FeedAlike(0, [], p, n, [], Begin(p, n), pieces);
  }

  // ---- Every run of calls ----

  datatype Between = Between(p: Parser, n: nat)

  /**
    One call after the other, whatever they come to: an empty input says that the input has ended,
    a call may follow one that left for an upgrade, and after an error a call does nothing.
   */
  function Drive(p: Parser, n: nat, calls: seq<string>): Between
    decreases |calls|
  {
    if calls == [] || p.errno != OK then Between(p, n)
    else
      var r := if calls[0] == "" then CallEof(p, n) else Call(p, n, calls[0]);
      Drive(if r.c.over then r.c.p.(errno := HEADER_OVERFLOW) else r.c.p, r.c.nread, calls[1..])
  }

  lemma CallLeavesReady(p: Parser, n: nat, data: string)
    requires Ready(p, n)
    ensures
      var r := if data == "" then CallEof(p, n) else Call(p, n, data);
      r.c.p.errno == OK ==> Ready(r.c.p, r.c.nread)
  {
    hide Run, Inv, SliceFits;
    BeginInv(p, n);
    RunInv(Begin(p, n), data);
  }

  /** Every call that leaves no error leaves a parser that is ready for another one. */
  lemma {:induction false} DriveIsReady(p: Parser, n: nat, calls: seq<string>)
    requires p.errno == OK ==> Ready(p, n)
    ensures
      var f := Drive(p, n, calls);
      f.p.errno == OK ==> Ready(f.p, f.n)
    decreases |calls|
  {
    hide Ready, Call, CallEof;
    if calls != [] && p.errno == OK {
      CallLeavesReady(p, n, calls[0]);
      var r := if calls[0] == "" then CallEof(p, n) else Call(p, n, calls[0]);
      DriveIsReady(if r.c.over then r.c.p.(errno := HEADER_OVERFLOW) else r.c.p, r.c.nread, calls[1..]);
    }
  }

  /** From the start, after any calls at all and any bytes of another one, the assertions hold. */
  lemma AssertsAlwaysHold(t: ParserType, calls: seq<string>, data: string)
    ensures
      var f := Drive(Init(t), 0, calls);
      var c := Run(Begin(f.p, f.n), data).c;
      c.p.errno == OK ==> AssertsHold(c)
  {
    hide Run, Drive, AssertsHold, Inv;
    InitIsReady(t);
    DriveIsReady(Init(t), 0, calls);
    var f := Drive(Init(t), 0, calls);
    RunStopped(Begin(f.p, f.n), data);
    if Run(Begin(f.p, f.n), data).c.p.errno == OK {
      BeginInv(f.p, f.n);
      RunInv(Begin(f.p, f.n), data);
      AssertsFollow(Run(Begin(f.p, f.n), data).c);
    }
  }

  // ---- The header limit ----

  /** The bytes of headers since the count last began anew, in one call and without its cuts. */
  function HeaderBytes(before: nat, c: Core, data: string): nat
    decreases |data|
  {
    if data == "" || !Going(c) then before
    else
      var o := Transition(c.p, c.skipping, data[0]);
      HeaderBytes(if o.reset then 0 else if ParsingHeader(c.p.state) then before + 1 else before,
                  Step(c, data[0]).c, data[1..])
  }

  lemma {:induction false} RunCountsHeaderBytes(c: Core, data: string)
    ensures Run(c, data).c.nread == HeaderBytes(c.nread, c, data)
    decreases |data|
  {
    hide Transition;
    if data != "" && Going(c) {
      RunCountsHeaderBytes(Step(c, data[0]).c, data[1..]);
    }
  }

  /**
    The header size bound: after calls without error, `nread` is at least the number of header
    bytes since it last began anew and exceeds it by at most one for each call; it is within the limit.
   */
  lemma HeaderBound(p: Parser, n: nat, pieces: seq<string>)
    requires Ready(p, n) && pieces != [] && NonEmpty(pieces) && Feed(p, n, pieces).ok
    ensures
      var exact := HeaderBytes(n, Begin(p, n), Concat(pieces));
      var f := Feed(p, n, pieces);
      exact <= f.nread <= exact + |pieces|
    ensures !Feed(p, n, pieces).halted ==> Feed(p, n, pieces).nread <= MAX_HEADER_SIZE
  {
    hide Run, Inv, Ready;
    OneCallDoesAll(p, n, pieces);
    RunCountsHeaderBytes(Begin(p, n), Concat(pieces));
    FedWithinLimit(p, n, pieces);
  }

  lemma {:induction false} FedWithinLimit(p: Parser, n: nat, pieces: seq<string>)
    requires pieces != [] && Feed(p, n, pieces).ok
    ensures !Feed(p, n, pieces).halted ==> Feed(p, n, pieces).nread <= MAX_HEADER_SIZE
    decreases |pieces|
  {
    hide Run;
    var r := Call(p, n, pieces[0]);
    if |pieces| > 1 && !r.c.halted {
      FedWithinLimit(r.c.p, r.c.nread, pieces[1..]);
    }
  }

  // ---- The converse ----

  /** No call of the row exceeds the header limit. */
  predicate NoneIsOver(p: Parser, n: nat, pieces: seq<string>)
    decreases |pieces|
  {
    pieces == [] ||
    var r := Call(p, n, pieces[0]);
    !r.c.over && NoneIsOver(r.c.p, r.c.nread, pieces[1..])
  }

  lemma ConcatNonEmpty(pieces: seq<string>)
    requires NonEmpty(pieces)
    ensures pieces != [] ==> Concat(pieces) != ""
  {
  }

  lemma {:induction false} PiecesTaken(
    k: nat, t: seq<Event>, p: Parser, n: nat, u: seq<Event>, d: Core, pieces: seq<string>)
    requires Alike(k, t, Begin(p, n), u, d) && p.errno == OK && NonEmpty(pieces)
    requires Run(d, Concat(pieces)).c.p.errno == OK && Run(d, Concat(pieces)).used == |Concat(pieces)|
    requires Clean(d, Concat(pieces)) && NoneIsOver(p, n, pieces)
    ensures Feed(p, n, pieces).ok
    decreases |pieces|
  {
    hide Run, Inv, Step;
    if pieces != [] {
      var c, data, rest := Begin(p, n), pieces[0], pieces[1..];
      var x, y := Run(c, data), Run(d, data);
      RunAppend(d, data, Concat(rest));
      CleanAppend(d, data, Concat(rest));
      RunStopped(y.c, Concat(rest));
      RunAlike(k, t, c, u, d, data);
      if Going(x.c) {
        var t', u' := JoinAll(t, x.events), JoinAll(u, y.events);
        CutAlike(k, t', x.c, u', y.c);
        PiecesTaken(k + 1, JoinAll(t', Rest(x.c.slice)), x.c.p, Finish(x).c.nread, u', y.c, rest);
      } else {
        RunStopped(y.c, Concat(rest));
        ConcatNonEmpty(rest);
      }
    }
  }

  /**
    Where all bytes in header values are allowed there, and the pieces stay within the header
    limit, the input can be fed in pieces exactly when it can be fed at once.
   */
  lemma CutsDoNotMatter(p: Parser, n: nat, pieces: seq<string>)
    requires Ready(p, n) && pieces != [] && NonEmpty(pieces)
    requires Clean(Begin(p, n), Concat(pieces)) && NoneIsOver(p, n, pieces)
    ensures Feed(p, n, pieces).ok <==> TakesWhole(p, n, Concat(pieces))
  {
    hide Run, Inv;
    BeginInv(p, n);
    if Feed(p, n, pieces).ok {
      OneCallDoesAll(p, n, pieces);
    }
    if TakesWhole(p, n, Concat(pieces)) {
      PiecesTaken(0, [], p, n, [], Begin(p, n), pieces);
    }
  }

  /** A byte of a value that says nothing to the parser. */
  lemma GeneralByteIs(p: Parser, skipping: bool, ch: char)
    requires p.state == Head(HeaderValue) && p.hstate.General? && ch != CR && ch != LF
    ensures
      var o := Transition(p, skipping, ch);
      if skipping || IsHeaderChar(ch) then o == Stay(p).(skipping := true) else o.p.errno == INVALID_HEADER_TOKEN
  {
  }

  lemma GeneralStep(c: Core, ch: char)
    requires Going(c) && c.p.state == Head(HeaderValue) && c.p.hstate.General? && ch != CR && ch != LF
    requires c.skipping || IsHeaderChar(ch)
    ensures
      var o := Step(c, ch);
      && o.events == [] && o.c.p == c.p && o.c.skipping && !o.c.halted && o.c.nread == c.nread + 1
      && (!c.over && c.nread < MAX_HEADER_SIZE ==> !o.c.over)
    ensures Run(c, [ch]) == RunOut(Step(c, ch).c, [], 1)
  {
    GeneralByteIs(c.p, c.skipping, ch);
    hide Transition;
    assert [ch][1..] == "";
    RunNothing(Step(c, ch).c);
  }

  lemma ControlIsRefused(c: Core, ch: char)
    requires Going(c) && c.p.state == Head(HeaderValue) && c.p.hstate.General? && !c.skipping && !IsHeaderChar(ch)
    ensures Run(c, [ch]).c.p.errno != OK
  {
    GeneralByteIs(c.p, c.skipping, ch);
    hide Transition;
    assert [ch][1..] == "";
    RunStopped(Step(c, ch).c, "");
  }

  /**
    Without that condition cuts do matter: in one call only the first byte of the rest of an unknown
    header's value is looked at, and the jump passes over a control byte that a cut would bring to light.
   */
  lemma JumpHidesControlBytes(p: Parser, n: nat, ch: char, control: char)
    requires Ready(p, n) && p.state == Head(HeaderValue) && p.hstate.General? && n + 3 <= MAX_HEADER_SIZE
    requires IsHeaderChar(ch) && ch != CR && ch != LF && !IsHeaderChar(control)
    ensures TakesWhole(p, n, [ch] + [control])
    ensures !Feed(p, n, [[ch], [control]]).ok
  {
    hide Step, Run, IsHeaderChar, Inv;
    var c := Begin(p, n);
    LineEndsAreHeaderChars(control);
    GeneralStep(c, ch);
    GeneralStep(Step(c, ch).c, control);
    RunAppend(c, [ch], [control]);
    var m := Call(p, n, [ch]).c.nread;
    ControlIsRefused(Begin(p, m), control);
    assert [[ch], [control]][1..] == [[control]];
    assert !Feed(p, m, [[control]]).ok by { RefusedIsNotOk(p, m, [control]); }
  }

  lemma RefusedIsNotOk(p: Parser, n: nat, data: string)
    requires Run(Begin(p, n), data).c.p.errno != OK
    ensures !Feed(p, n, [data]).ok
  {
    hide Run;
  }

  lemma LineEndsAreHeaderChars(ch: char)
    requires !IsHeaderChar(ch)
    ensures ch != CR && ch != LF
  {
  }

  // ---- Exactly when cuts matter ----

  /** The first byte that is not allowed where it stands. */
  lemma {:induction false} FirstDirty(c: Core, data: string) returns (k: nat)
    requires !Clean(c, data)
    ensures k < |data| && Going(Run(c, data[..k]).c) && !CleanByte(Run(c, data[..k]).c.p, data[k])
    decreases |data|
  {
    hide Step;
    if CleanByte(c.p, data[0]) {
      var i := FirstDirty(Step(c, data[0]).c, data[1..]);
      k := i + 1;
      assert data[..k][1..] == data[1..][..i];
    } else {
      k := 0;
    }
  }

  /** A call that begins with such a byte refuses it. */
  lemma DirtyIsRefused(c: Core, data: string)
    requires Going(c) && !c.skipping && data != "" && !CleanByte(c.p, data[0])
    ensures Run(c, data).c.p.errno != OK
  {
    RefusedByte(c.p, data[0]);
    hide Transition;
    RunStopped(Step(c, data[0]).c, data[1..]);
  }

  lemma RefusedByte(p: Parser, ch: char)
    requires !CleanByte(p, ch)
    ensures Transition(p, false, ch).p.errno != OK
  {
    LineEndsAreHeaderChars(ch);
    hide OnSpecialValue;
  }

  lemma TwoAreNotOver(p: Parser, n: nat, a: string, b: string)
    requires n + |a| + |b| + 2 <= MAX_HEADER_SIZE
    ensures NoneIsOver(p, n, [a, b])
  {
    hide Run;
    ShortIsNotOver(Begin(p, n), a);
    var r := Call(p, n, a);
    ShortIsNotOver(Begin(r.c.p, r.c.nread), b);
    assert [a, b][1..] == [b] && [b][1..] == [];
    assert NoneIsOver(r.c.p, r.c.nread, [b]);
  }

  lemma ConcatTwo(a: string, b: string)
    ensures Concat([a, b]) == a + b
  {
    assert [a, b][1..] == [b] && [b][1..] == [];
    assert Concat([b]) == b + Concat([]) == b;
  }

  lemma TwoAreFed(p: Parser, n: nat, a: string, b: string)
    requires Feed(p, n, [a, b]).ok
    ensures
      var r := Call(p, n, a);
      Run(Begin(r.c.p, r.c.nread), b).c.p.errno == OK
  {
    hide Run;
    assert [a, b][1..] == [b];
    var r := Call(p, n, a);
    if Run(Begin(r.c.p, r.c.nread), b).c.p.errno != OK {
      RefusedIsNotOk(r.c.p, r.c.nread, b);
    }
  }

  /** Input that one call takes can be cut anywhere exactly if all of its bytes in values are allowed there. */
  lemma CutsMatterExactly(p: Parser, n: nat, data: string)
    requires Ready(p, n) && TakesWhole(p, n, data) && n + |data| + 2 <= MAX_HEADER_SIZE
    ensures Clean(Begin(p, n), data) <==> forall k | 0 < k < |data| :: Feed(p, n, [data[..k], data[k..]]).ok
  {
    hide Run, Inv, Step, Feed, Succeeds, TakesWhole, NoneIsOver, Clean;
    if Clean(Begin(p, n), data) {
      forall k | 0 < k < |data| ensures Feed(p, n, [data[..k], data[k..]]).ok {
        CleanCutIsFed(p, n, data, k);
      }
    } else {
      var k := DirtyCutIsRefused(p, n, data);
    }
  }

  lemma CleanCutIsFed(p: Parser, n: nat, data: string, k: nat)
    requires Ready(p, n) && TakesWhole(p, n, data) && n + |data| + 2 <= MAX_HEADER_SIZE
    requires Clean(Begin(p, n), data) && 0 < k < |data|
    ensures Feed(p, n, [data[..k], data[k..]]).ok
  {
    hide Run, Inv, Feed, NoneIsOver, Clean, TakesWhole;
    var pieces := [data[..k], data[k..]];
    ConcatTwo(data[..k], data[k..]);
    assert data[..k] + data[k..] == data;
    TwoAreNotOver(p, n, data[..k], data[k..]);
    CutsDoNotMatter(p, n, pieces);
  }

  lemma DirtyCutIsRefused(p: Parser, n: nat, data: string) returns (k: nat)
    requires Ready(p, n) && TakesWhole(p, n, data) && !Clean(Begin(p, n), data)
    ensures 0 < k < |data| && !Feed(p, n, [data[..k], data[k..]]).ok
  {
    hide Run, Inv, Step, Feed, Clean;
    var c := Begin(p, n);
    k := FirstDirty(c, data);
    var a, b := data[..k], data[k..];
    if k == 0 {
      assert a == "";
      RunNothing(c);
      DirtyIsRefused(c, data);
    } else {
      var r := Call(p, n, a);
      DirtyIsRefused(Begin(r.c.p, r.c.nread), b);
      if Feed(p, n, [a, b]).ok {
        TwoAreFed(p, n, a, b);
      }
    }
  }

  // ---- What is appended does not see the cuts ----

  /** The bytes of all slices of one kind. */
  function BytesOf(kind: Kind, events: seq<Event>): string {
    if events == [] then ""
    else
      var e := events[|events| - 1];
      BytesOf(kind, events[..|events| - 1]) + if e.Data? && e.kind == kind then e.bytes else ""
  }

  lemma JoinBytes(kind: Kind, t: seq<Event>, e: Event)
    ensures BytesOf(kind, Join(t, e)) == BytesOf(kind, t + [e])
  {
    var u := t + [e];
    assert u[..|u| - 1] == t;
    var v := Join(t, e);
    if v != u {
      var w := t[..|t| - 1];
      assert v[..|v| - 1] == w;
      assert BytesOf(kind, w) + t[|t| - 1].bytes + e.bytes == BytesOf(kind, w) + (t[|t| - 1].bytes + e.bytes);
    }
  }

  lemma BytesMore(kind: Kind, t: seq<Event>, e: Event)
    ensures BytesOf(kind, t + [e]) == BytesOf(kind, t) + if e.Data? && e.kind == kind then e.bytes else ""
  {
    assert (t + [e])[..|t|] == t;
  }

  lemma {:induction false} JoinAllBytes(kind: Kind, t: seq<Event>, u: seq<Event>, events: seq<Event>)
    requires BytesOf(kind, t) == BytesOf(kind, u)
    ensures BytesOf(kind, JoinAll(t, events)) == BytesOf(kind, u + events)
    decreases |events|
  {
    hide BytesOf, Join;
    if events == [] {
      assert u + events == u;
    } else {
      var e := events[0];
      JoinBytes(kind, t, e);
      BytesMore(kind, t, e);
      BytesMore(kind, u, e);
      assert u + events == u + [e] + events[1..];
      JoinAllBytes(kind, Join(t, e), u + [e], events[1..]);
    }
  }

  /** The URL and the body that the wrappers append are the same however the input is cut. */
  lemma BytesDoNotSeeCuts(p: Parser, n: nat, pieces: seq<string>, kind: Kind)
    requires Ready(p, n) && pieces != [] && NonEmpty(pieces)
    requires Feed(p, n, pieces).ok
    ensures BytesOf(kind, Feed(p, n, pieces).events) == BytesOf(kind, Call(p, n, Concat(pieces)).events)
  {
    hide Call, Feed, Ready;
    OneCallDoesAll(p, n, pieces);
    var a, b := Feed(p, n, pieces).events, Call(p, n, Concat(pieces)).events;
    JoinAllBytes(kind, [], [], a);
    JoinAllBytes(kind, [], [], b);
    assert [] + a == a && [] + b == b;
  }
}
