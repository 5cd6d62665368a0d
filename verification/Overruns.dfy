/** Input that is taken whole and refused all the same: the header limit is noticed at the end of the buffer. */
module Overruns {
  import opened Chars
  import opened ParserTypes
  import opened Transitions
  import opened Machine
  import opened Invariant
  import opened Limits
  import opened Segmentation
  import opened Runs
  import opened FieldNames
  import opened Lines
  import opened HttpParsers
  import opened Callbacks
  import opened Packets
  import opened Requests
  import opened RequestParsers
  import opened Deliveries

  /**
    All of `data` belongs to the name or the value in which `c` is; or all does up to a byte of an
    unknown value from where no end of the line is in sight.
   */
  predicate RunsOut(c: Core, data: string)
    decreases |data|
  {
    || data == ""
    || (Going(c) && Jumps(c, data))
    || (var o := Step(c, data[0]);
        Going(c) && o.c.p.errno == OK && o.c.inside && RunsOut(o.c, data[1..]))
  }

  /** In a name or a value whose next byte is the first that the call looks at, and within the limit. */
  predicate StartsLetters(c: Core) {
    Going(c) && InLetters(c.p.state) && !c.inside && !c.over && c.nread < MAX_HEADER_SIZE
  }

  /** Behind `k` bytes a name or a value begins that runs out, and passes the limit. */
  predicate OverrunsFrom(c: Core, data: string, k: nat)
    requires k < |data|
  {
    var d := Run(c, data[..k]).c;
    StartsLetters(d) && RunsOut(d, data[k..]) && d.nread + (|data| - k) + 1 > MAX_HEADER_SIZE
  }

  predicate Overruns(c: Core, data: string) {
    exists k | 0 <= k < |data| :: OverrunsFrom(c, data, k)
  }

  /** The limit is noticed at the end of the buffer. */
  predicate NoticedAtEnd(c: Core, data: string) {
    Limit(c, data).Noticed? && Limit(c, data).n == |data|
  }

  // ---- Letters ----

  lemma LetterStays(c: Core, ch: char)
    requires InLetters(c.p.state) && Going(c) && Step(c, ch).c.p.errno == OK
    ensures
      var d := Step(c, ch).c;
      && (d.inside <==> !Leaves(c.p, ch))
      && (d.inside ==> d.p.state == c.p.state && d.nread == c.nread + 1 && Step(c, ch).events == [] && Going(d))
  {
    hide OnSpecialValue, IsHeaderChar, FieldLetter, IsToken, TokenOf, CountsFieldLetters;
    SpecialShape(c.p, ch);
  }

  lemma InsideIsLetters(c: Core, ch: char)
    ensures Step(c, ch).c.inside ==> InLetters(c.p.state) && Step(c, ch).c.p.state == c.p.state
  {
    hide Transition;
  }

  // ---- What runs out is noticed at the end ----

  lemma {:induction false} RunsOutIsNoticed(c: Core, data: string)
    requires RunsOut(c, data) && Going(c) && InLetters(c.p.state)
    requires c.inside || (data != "" && c.nread < MAX_HEADER_SIZE)
    requires c.nread + |data| + 1 > MAX_HEADER_SIZE
    ensures NoticedAtEnd(c, data)
    decreases |data|
  {
    hide Step, Jumps, IsHeaderChar, NoLineEnd;
    if data != "" {
      if Jumps(c, data) {
        JumpDoesNotLeave(c, data);
      } else {
        LetterStays(c, data[0]);
        RunsOutIsNoticed(Step(c, data[0]).c, data[1..]);
      }
    }
  }

  lemma JumpDoesNotLeave(c: Core, data: string)
    requires Jumps(c, data)
    ensures !Leaves(c.p, data[0]) && data[0] != CR && data[0] != LF
  {
    assert data[..MAX_HEADER_SIZE][0] == data[0];
    hide IsHeaderChar;
  }

  /** A jump that comes before: the machine is still inside of the value, or above the limit. */
  lemma JumpsOver(c: Core, data: string, k: nat)
    requires CoreInv(c) && Going(c) && Jumps(c, data) && 0 < k <= |data| && Going(Run(c, data[..k]).c)
    ensures Run(c, data[..k]).c.inside || Run(c, data[..k]).c.over
  {
    hide Run, Step, Inv, IsHeaderChar, NoLineEnd, SliceFits, Jumps;
    JumpDoesNotLeave(c, data);
    JumpIsGeneral(c, data);
    StepGeneral(c, data[0]);
    var d := Step(c, data[0]).c;
    var rest := data[1..k];
    assert data[..k][1..] == rest && data[..k][0] == data[0];
    RunOne(c, data[..k], 0);
    assert data[..k][0..] == data[..k];
    WindowRest(data, if k <= MAX_HEADER_SIZE then k else MAX_HEADER_SIZE);
    if k <= MAX_HEADER_SIZE {
      assert rest[..k - 1] == rest && rest[k - 1..] == "";
      SkipValue(d, rest, k - 1);
      RunNothing(Within(d, rest));
    } else {
      assert rest[..MAX_HEADER_SIZE - 1] == data[1..MAX_HEADER_SIZE];
      SkipTooMuch(d, rest);
    }
  }

  lemma JumpIsGeneral(c: Core, data: string)
    requires Jumps(c, data) && CoreInv(c)
    ensures c.p.state == Head(HeaderValue) && c.p.hstate.General? && !c.skipping && |data| > MAX_HEADER_SIZE
    ensures NoLineEnd(data[..MAX_HEADER_SIZE]) && IsHeaderChar(data[0]) && c.slice.Open?
  {
    hide IsHeaderChar, NoLineEnd;
  }

  lemma WindowRest(data: string, k: nat)
    requires |data| > MAX_HEADER_SIZE && NoLineEnd(data[..MAX_HEADER_SIZE]) && 0 < k <= MAX_HEADER_SIZE
    ensures NoLineEnd(data[1..k])
  {
    forall ch | ch in data[1..k] ensures ch in data[..MAX_HEADER_SIZE] {
      var i :| 0 <= i < |data[1..k]| && data[1..k][i] == ch;
      assert data[..MAX_HEADER_SIZE][i + 1] == ch;
    }
  }

  /** What is within the limit between two names and values has not been noticed before. */
  lemma {:induction false} WithinIsUnnoticed(c: Core, data: string, k: nat)
    requires CoreInv(c) && k <= |data|
    requires
      var d := Run(c, data[..k]).c;
      Going(d) && !d.over && !d.inside
    ensures Limit(c, data) == Later(Run(c, data[..k]).events, k, Limit(Run(c, data[..k]).c, data[k..]))
    decreases k
  {
    hide Step, Inv, Exceeds, Jumps, SliceFits;
    if k == 0 {
      assert data[..0] == "" && data[0..] == data;
      RunNothing(c);
      LaterNothing(Limit(c, data));
    } else {
      var a := data[..k];
      assert a[0] == data[0] && a[1..] == data[1..][..k - 1] && data[1..][k - 1..] == data[k..];
      RunStopped(c, a);
      var o := Step(c, data[0]);
      RunStopped(o.c, a[1..]);
      StepInv(c, data[0]);
      if Exceeds(c, data[0]) {
        ExceedsIsOver(c, data[0]);
        OverIsSticky(o.c, a[1..]);
        assert false;
      }
      if Jumps(c, data) {
        JumpsOver(c, data, k);
        assert false;
      }
      WithinIsUnnoticed(o.c, data[1..], k - 1);
      LaterTwice(o.events, 1, Run(o.c, a[1..]).events, k - 1, Limit(Run(c, a).c, data[k..]));
    }
  }

  lemma ExceedsIsOver(c: Core, ch: char)
    requires Exceeds(c, ch)
    ensures Step(c, ch).c.over
  {
    hide Transition;
  }

  // ---- What is noticed at the end runs out ----

  /** Only inside a name or a value can the limit be passed and not noticed yet. */
  predicate OverFits(c: Core) {
    c.over ==> c.inside && c.nread > MAX_HEADER_SIZE
  }

  lemma StepOverFits(c: Core, ch: char)
    requires CoreInv(c) && Going(c) && OverFits(c) && !Exceeds(c, ch) && Step(c, ch).c.p.errno == OK
    ensures OverFits(Step(c, ch).c)
  {
    hide Transition, Inv, SliceFits;
    if c.inside {
      LetterStays(c, ch);
    }
  }

  /** The name or value in which `c` is runs out, or one does that begins later. */
  predicate RunsOutSomewhere(c: Core, data: string) {
    || (c.inside && RunsOut(c, data) && c.nread + |data| + 1 > MAX_HEADER_SIZE)
    || Overruns(c, data)
  }

  lemma {:induction false} NoticedRunsOut(c: Core, data: string)
    requires CoreInv(c) && OverFits(c) && NoticedAtEnd(c, data)
    ensures RunsOutSomewhere(c, data)
    decreases |data|
  {
    hide Step, Inv, SliceFits, Exceeds, Jumps, RunsOut, Run;
    if data == "" {
      assert RunsOut(c, "") by { NothingRunsOut(c); }
    } else if Jumps(c, data) && !Exceeds(c, data[0]) {
      JumpRunsOut(c, data);
    } else {
      StepOverFits(c, data[0]);
      StepInv(c, data[0]);
      NoticedRunsOut(Step(c, data[0]).c, data[1..]);
      OneMoreRunsOut(c, data);
    }
  }

  lemma NothingRunsOut(c: Core)
    ensures RunsOut(c, "")
  {
  }

  lemma RunsOutNow(c: Core, data: string)
    requires data != "" && StartsLetters(c) && RunsOut(c, data) && c.nread + |data| + 1 > MAX_HEADER_SIZE
    ensures Overruns(c, data)
  {
    hide RunsOut, Run;
    assert data[..0] == "" && data[0..] == data;
    RunNothing(c);
    assert OverrunsFrom(c, data, 0);
  }

  lemma JumpRunsOut(c: Core, data: string)
    requires CoreInv(c) && OverFits(c) && Going(c) && Jumps(c, data) && !Exceeds(c, data[0])
    ensures RunsOutSomewhere(c, data)
  {
    hide Inv, SliceFits, Run;
    assert RunsOut(c, data);
    hide RunsOut;
    JumpIsGeneral(c, data);
    hide Jumps;
    if !c.inside {
      RunsOutNow(c, data);
    }
  }

  lemma OneMoreRunsOut(c: Core, data: string)
    requires CoreInv(c) && OverFits(c) && Going(c) && data != "" && !Exceeds(c, data[0]) && !Jumps(c, data)
    requires Step(c, data[0]).c.p.errno == OK && RunsOutSomewhere(Step(c, data[0]).c, data[1..])
    ensures RunsOutSomewhere(c, data)
  {
    hide Step, Inv, SliceFits, Run, Jumps;
    var d, rest := Step(c, data[0]).c, data[1..];
    if d.inside && RunsOut(d, rest) && d.nread + |rest| + 1 > MAX_HEADER_SIZE {
      InsideIsLetters(c, data[0]);
      LetterStays(c, data[0]);
      assert RunsOut(c, data);
      hide RunsOut;
      if !c.inside {
        RunsOutNow(c, data);
      }
    } else {
      hide RunsOut;
      var k :| 0 <= k < |rest| && OverrunsFrom(d, rest, k);
      LaterOverruns(c, data, k);
    }
  }

  lemma LaterOverruns(c: Core, data: string, k: nat)
    requires Going(c) && data != "" && k < |data| - 1 && Step(c, data[0]).c.p.errno == OK
    requires OverrunsFrom(Step(c, data[0]).c, data[1..], k)
    ensures Overruns(c, data)
  {
    hide Step, RunsOut;
    assert data[..k + 1][1..] == data[1..][..k] && data[1..][k..] == data[k + 1..];
    assert Run(c, data[..k + 1]).c == Run(Step(c, data[0]).c, data[1..][..k]).c;
    assert OverrunsFrom(c, data, k + 1);
  }

  // ---- Exactly when ----

  /**
    A call notices the limit at the end of its input exactly if a name or a value, begun within the
    limit, runs to that end, or to where no end of its line is in sight, and passes the limit.
   */
  lemma NoticedAtEndIff(c: Core, data: string)
    requires CoreInv(c) && !c.over && !c.inside
    ensures NoticedAtEnd(c, data) <==> Overruns(c, data)
  {
    hide Run, Inv, SliceFits, RunsOut, Limit;
    if NoticedAtEnd(c, data) {
      NoticedRunsOut(c, data);
    }
    if Overruns(c, data) {
      var k :| 0 <= k < |data| && OverrunsFrom(c, data, k);
      var d := Run(c, data[..k]).c;
      RunInv(c, data[..k]);
      WithinIsUnnoticed(c, data, k);
      RunsOutIsNoticed(d, data[k..]);
    }
  }

  /**
    So a call returns the whole length of its input with an error exactly for such input; and for
    the caller who compares only the length, it is not refused.
   */
  lemma TakenWholeAndRefused(o: HttpParser, p: Parser, n: nat, data: string, k: nat, calls: seq<Event>)
    requires Ready(p, n) && data != "" && o.Meets(p, n, data, k, calls)
    ensures o.errno != OK && k == |data| <==> Overruns(Begin(p, n), data)
  {
    hide Run, Inv, SliceFits, RunsOut, Limit, Overruns, Call, Succeeds;
    BeginInv(p, n);
    NoticedAtEndIff(Begin(p, n), data);
  }

  // ---- Such input can be met ----

  const FIRST_LINE := "GET / HTTP/1.1\r\n"

  function Letters(m: nat): string {
    seq(m, i => 'a')
  }

  lemma LetterA()
    ensures IsToken('a') && TokenOf('a') == 'a' && !Leaves(Init(REQUEST).(state := Head(HeaderField)), 'a')
  {
  }

  lemma GeneralLetter(c: Core)
    requires Going(c) && c.p.state == Head(HeaderField) && c.p.hstate.General?
    ensures
      var d := Step(c, 'a').c;
      d.p == c.p && d.inside && Going(d) && Step(c, 'a').events == []
  {
    LetterA();
  }

  lemma {:induction false} LettersRunOut(c: Core, m: nat)
    requires Going(c) && c.p.state == Head(HeaderField) && c.p.hstate.General?
    ensures RunsOut(c, Letters(m))
    decreases m
  {
    hide Step, Jumps;
    if m > 0 {
      assert Letters(m)[1..] == Letters(m - 1) && Letters(m)[0] == 'a';
      GeneralLetter(c);
      LettersRunOut(Step(c, 'a').c, m - 1);
    }
  }

  lemma NameOfA()
    ensures IsName("a") && LowerName("a") == "a" && !NamesLength("a") && NameState("a").General?
  {
    assert "a"[0] != "connection"[0] && "a"[0] != "content-length"[0] && "a"[0] != "proxy-connection"[0];
    assert "a"[0] != "transfer-encoding"[0] && "a"[0] != "upgrade"[0];
  }

  /** A request line and the first letter of a name. */
  lemma NameIsReached(c: Core)
    requires Going(c) && c.p.state == Idle(StartReq) && c.slice.Closed? && c.nread == 0 && !c.over
    ensures
      var r := Run(c, FIRST_LINE + "a");
      && StartsLetters(r.c) && r.c.p.state == Head(HeaderField) && r.c.p.hstate.General? && r.c.nread == 17
      && r.events == [MessageBegin] + [Data(Url, "/")] && r.c.p.upgrade == c.p.upgrade
  {
    hide Run, MethodName, IsUrlFrom, NameState, NameIndex, NamesLength, LowerName, IsName;
    FirstLineIs();
    NameOfA();
    RequestLineIsRead(c, GET, "/", 1, 1);
    var begin := [MessageBegin] + [Data(Url, "/")];
    var d := Run(c, FIRST_LINE).c;
    StartIsAField(d.p);
    NameIsMarked(d, "a");
    var e := Run(d, "a").c;
    ReadsHeadBoth(c, FIRST_LINE, d.p, Closed, begin, "a", e.p, e.slice, []);
    assert begin + [] == begin;
    FirstLetterIsOutside(d);
  }

  lemma FirstLetterIsOutside(d: Core)
    requires Going(d) && d.p.state == Head(HeaderFieldStart)
    ensures !Run(d, "a").c.inside
  {
    hide Transition;
    assert "a"[1..] == "";
    RunNothing(Step(d, 'a').c);
  }

  /** Where the limit is noticed in such letters, the parser is as it was. */
  lemma {:induction false} LettersKeep(c: Core, m: nat)
    requires Going(c) && c.p.state == Head(HeaderField) && c.p.hstate.General?
    ensures
      var x := Limit(c, Letters(m));
      x.Noticed? ==> x.p == c.p && x.told == []
    decreases m
  {
    hide Step, Jumps, Exceeds, HandsOver;
    if m > 0 {
      assert Letters(m)[1..] == Letters(m - 1) && Letters(m)[0] == 'a';
      NoJumpInName(c, Letters(m));
      GeneralLetter(c);
      LettersKeep(Step(c, 'a').c, m - 1);
    }
  }

  lemma NoJumpInName(c: Core, data: string)
    requires c.p.state == Head(HeaderField)
    ensures !Jumps(c, data) && (data != "" ==> !HandsOver(c, data[0]))
  {
    hide IsHeaderChar, NoLineEnd;
  }

  /** Such as a long name, not yet at its end. */
  lemma LongNameOverruns(m: nat)
    requires m >= MAX_HEADER_SIZE - 16
    ensures
      var c, data := Begin(Init(REQUEST), 0), FIRST_LINE + Letters(m);
      && Overruns(c, data)
      && (var x := Limit(c, data);
          x.Noticed? ==> x.told == [MessageBegin] + [Data(Url, "/")] && !x.p.upgrade)
  {
    hide Run, RunsOut, Limit, Inv, SliceFits;
    var c := Begin(Init(REQUEST), 0);
    NameIsReached(c);
    var data := FIRST_LINE + Letters(m);
    assert data[..17] == FIRST_LINE + "a" && data[17..] == Letters(m - 1);
    var d := Run(c, FIRST_LINE + "a").c;
    LettersRunOut(d, m - 1);
    assert OverrunsFrom(c, data, 17);
    InitIsReady(REQUEST);
    BeginInv(Init(REQUEST), 0);
    WithinIsUnnoticed(c, data, 17);
    LettersKeep(d, m - 1);
  }

  /**
    The server's parser takes it for the beginning of a request: it waits for the rest of it, with a
    parser that will take nothing more.
   */
  method CarryLongName(m: nat) returns (result: Verdict, errno: Errno)
    requires MAX_HEADER_SIZE - 16 <= m < UINT32_LIMIT - 2 * MAX_HEADER_SIZE
    ensures result == Indeterminate && errno == HEADER_OVERFLOW
  {
    hide Run, Inv, RunsOut, Limit, Overruns, Call, Succeeds, HeardAll;
    var data := FIRST_LINE + Letters(m);
    var receiver := new HttpRequestParser();
    ghost var n, calls;
    result, n, calls := receiver.Parse(data);
    errno := receiver.parser.errno;
    InitIsReady(REQUEST);
    LongNameOverruns(m);
    TakenWholeAndRefused(receiver.parser, Init(REQUEST), 0, data, n, calls);
  }
}
