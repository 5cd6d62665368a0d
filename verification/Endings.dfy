/** The end of the input: whether a message is open then, by what has been told, and what becomes of it. */
module Endings {
  import opened Chars
  import opened ParserTypes
  import opened Transitions
  import opened Machine
  import opened Invariant
  import opened Traces
  import opened Segmentation

  /** Whether a message has been begun and not completed, after one more callback. */
  function OpenAfter(open: bool, e: Event): bool {
    if e == MessageBegin then true else if e == MessageComplete then false else open
  }

  function OpenAfterAll(open: bool, events: seq<Event>): bool
    decreases |events|
  {
    if events == [] then open else OpenAfterAll(OpenAfter(open, events[0]), events[1..])
  }

  lemma {:induction false} OpenAppend(open: bool, a: seq<Event>, b: seq<Event>)
    ensures OpenAfterAll(open, a + b) == OpenAfterAll(OpenAfterAll(open, a), b)
    decreases |a|
  {
    if a == [] {
      assert a + b == b;
    } else {
      assert (a + b)[1..] == a[1..] + b;
      OpenAppend(OpenAfter(open, a[0]), a[1..], b);
    }
  }

  lemma OpenOne(open: bool, e: Event)
    ensures OpenAfterAll(open, [e]) == OpenAfter(open, e)
  {
    assert [e][1..] == [];
  }

  /** Slices say nothing of it. */
  lemma OpenJoin(open: bool, t: seq<Event>, e: Event)
    ensures OpenAfterAll(open, Join(t, e)) == OpenAfter(OpenAfterAll(open, t), e)
  {
    if Join(t, e) == t + [e] {
      OpenAppend(open, t, [e]);
      OpenOne(OpenAfterAll(open, t), e);
    } else {
      var u, f := t[..|t| - 1], t[|t| - 1];
      assert t == u + [f];
      OpenAppend(open, u, [f]);
      OpenOne(OpenAfterAll(open, u), f);
      var g := Data(e.kind, f.bytes + e.bytes);
      OpenAppend(open, u, [g]);
      OpenOne(OpenAfterAll(open, u), g);
    }
  }

  lemma {:induction false} OpenJoinAll(open: bool, t: seq<Event>, events: seq<Event>)
    ensures OpenAfterAll(open, JoinAll(t, events)) == OpenAfterAll(OpenAfterAll(open, t), events)
    decreases |events|
  {
    hide Join;
    if events != [] {
      OpenJoin(open, t, events[0]);
      OpenJoinAll(open, Join(t, events[0]), events[1..]);
    }
  }

  /** Between messages none is open; a parser of replies tells one begun at each line end in front of it. */
  predicate Fits(p: Parser, open: bool) {
    if p.state == Idle(StartRes) then true else p.state.Idle? <==> !open
  }

  /** What one byte may tell of beginnings and ends. */
  predicate Turns(p: Parser, o: Outcome) {
    o.p.errno == OK ==>
      if MessageComplete in o.notes then
        && o.p.state.Idle? && o.notes[|o.notes| - 1] == MessageComplete
      else if MessageBegin in o.notes then
        && o.notes == [MessageBegin] && (!o.p.state.Idle? || o.p.state == Idle(StartRes))
      else (p.state.Idle? <==> o.p.state.Idle?) && (o.p.state == Idle(StartRes) <==> p.state == Idle(StartRes))
  }

  lemma IdleTurns(p: Parser, s: IdleState, ch: char)
    requires p.state == Idle(s)
    ensures Turns(p, OnIdle(p, s, ch))
  {
    hide FirstGuess;
  }

  lemma LineTurns(p: Parser, s: LineState, ch: char)
    requires p.state == Line(s)
    ensures Turns(p, OnLine(p, s, ch))
  {
    hide ParseUrlChar, NextGuess, MethodName, OnResVersion, OnReqVersion, OnStatus;
    VersionTurns(p, ch);
  }

  lemma VersionTurns(p: Parser, ch: char)
    requires p.state.Line?
    ensures forall v :: p.state == Line(ResVersion(v)) ==> Turns(p, OnResVersion(p, v, ch))
    ensures forall v :: p.state == Line(ReqVersion(v)) ==> Turns(p, OnReqVersion(p, v, ch))
    ensures forall t :: p.state == Line(ResStatus(t)) ==> Turns(p, OnStatus(p, t, ch))
  {
  }

  lemma DoneTurns(p: Parser, ch: char, before: seq<Event>)
    requires p.state.Head? && MessageComplete !in before && MessageBegin !in before
    ensures Turns(p, OnHeadersDone(p, ch, before))
  {
    hide ShouldKeepAlive, NeedsEof;
  }

  lemma EndTurns(p: Parser, ch: char, before: seq<Event>)
    requires p.state.Head? && MessageComplete !in before && MessageBegin !in before
    ensures Turns(p, OnHeadersAlmostDone(p, ch, before)) && Turns(p, OnHeadersDone(p, ch, before))
  {
    DoneTurns(p, ch, before);
    var up := (p.flags.upgrade && p.flags.connUpgrade) || p.verb == CONNECT;
    DoneTurns(p.(state := Head(HeadersDone), upgrade := up), ch, before + [HeadersComplete(p.major, p.minor)]);
    hide OnHeadersDone, ShouldKeepAlive;
  }

  lemma FieldTurns(p: Parser, ch: char, before: seq<Event>)
    requires p.state.Head? && MessageComplete !in before && MessageBegin !in before
    ensures Turns(p, OnFieldStart(p, ch, before))
  {
    EndTurns(p, ch, before);
    hide OnHeadersAlmostDone, IsToken, TokenOf;
  }

  lemma HeadTurns(p: Parser, s: HeadState, ch: char)
    requires p.state == Head(s) && !s.HeaderValue?
    ensures Turns(p, OnHead(p, s, ch))
  {
    hide OnFieldStart, OnHeadersAlmostDone, OnHeadersDone, EndOfLine, IsToken, TokenOf, FieldLetter, Lower, TokenStart;
    EndTurns(p, ch, []);
    FieldTurns(p, ch, []);
    LineEndIsHead(p);
    FieldTurns(EndOfLine(p), ch, []);
    FieldTurns(EndOfLine(p), ch, [Data(Value, "")]);
  }

  lemma LineEndIsHead(p: Parser)
    ensures EndOfLine(p).state == p.state && EndOfLine(p).errno == p.errno
  {
  }

  lemma ValueTurns(p: Parser, skipping: bool, ch: char)
    requires p.state == Head(HeaderValue)
    ensures Turns(p, OnValue(p, skipping, ch))
  {
    hide IsHeaderChar, NameFor, Lower, IsToken, TokenStart, EndOfToken;
  }

  lemma BodyTurns(p: Parser, ch: char)
    ensures forall s :: p.state == Content(s) ==> Turns(p, OnContent(p, s, ch))
    ensures forall s :: p.state == Chunk(s) ==> Turns(p, OnChunk(p, s, ch))
  {
    hide Unhex, ShouldKeepAlive;
  }

  lemma TransitionTurns(p: Parser, skipping: bool, ch: char)
    ensures Turns(p, Transition(p, skipping, ch))
  {
    hide OnIdle, OnLine, OnHead, OnValue, OnContent, OnChunk, Turns;
    match p.state
    case Idle(s) => IdleTurns(p, s, ch);
    case Line(s) => LineTurns(p, s, ch);
    case Head(s) => if s.HeaderValue? { ValueTurns(p, skipping, ch); } else { HeadTurns(p, s, ch); }
    case Content(_) => BodyTurns(p, ch);
    case Chunk(_) => BodyTurns(p, ch);
  }

  lemma {:induction false} NoTurn(open: bool, events: seq<Event>)
    requires MessageBegin !in events && MessageComplete !in events
    ensures OpenAfterAll(open, events) == open
    decreases |events|
  {
    if events != [] {
      assert events[0] in events && forall e <- events[1..] :: e in events;
      NoTurn(OpenAfter(open, events[0]), events[1..]);
    }
  }

  lemma StepFits(c: Core, ch: char, open: bool)
    requires Fits(c.p, open) && c.p.errno == OK
    ensures
      var o := Step(c, ch);
      o.c.p.errno == OK ==> Fits(o.c.p, OpenAfterAll(open, o.events))
  {
    hide Transition;
    TransitionTurns(c.p, c.skipping, ch);
    var o := Transition(c.p, c.skipping, ch);
    var (s, told) := Hand(c.slice, o.flush, ch);
    NoTurn(open, told);
    OpenAppend(open, told, o.notes);
    if o.p.errno != OK {
    } else if MessageComplete in o.notes {
      var k := |o.notes| - 1;
      assert o.notes == o.notes[..k] + [MessageComplete];
      OpenAppend(open, o.notes[..k], [MessageComplete]);
      OpenOne(OpenAfterAll(open, o.notes[..k]), MessageComplete);
    } else if MessageBegin in o.notes {
      OpenOne(open, MessageBegin);
    } else {
      NoTurn(open, o.notes);
    }
  }

  lemma {:induction false} RunFits(c: Core, data: string, open: bool)
    requires Fits(c.p, open) && c.p.errno == OK
    ensures
      var r := Run(c, data);
      r.c.p.errno == OK ==> Fits(r.c.p, OpenAfterAll(open, r.events))
    decreases |data|
  {
    hide Step, Fits;
    if data != [] && Going(c) {
      var o := Step(c, data[0]);
      StepFits(c, data[0], open);
      RunStopped(o.c, data[1..]);
      OpenAppend(open, o.events, Run(o.c, data[1..]).events);
      if o.c.p.errno == OK {
        RunFits(o.c, data[1..], OpenAfterAll(open, o.events));
      }
    }
  }

  lemma CallFits(p: Parser, n: nat, data: string)
    requires Ready(p, n) && p.state.Idle? && Succeeds(p, n, data)
    ensures Fits(Call(p, n, data).c.p, OpenAfterAll(false, Call(p, n, data).events))
  {
    hide Run, Inv, Fits;
    assert Fits(p, false) by { IdleFits(p); }
    var c := Begin(p, n);
    RunFits(c, data, false);
    var r := Run(c, data);
    OpenAppend(false, r.events, Rest(r.c.slice));
    NoTurn(OpenAfterAll(false, r.events), Rest(r.c.slice));
    assert r.c.p.errno == OK;
  }

  lemma IdleFits(p: Parser)
    requires p.state.Idle?
    ensures Fits(p, false)
  {
  }

  /**
    The end of the input, after any calls from the start of a message. If no message is open it is accepted,
    and nothing is told. If one is open it is refused, unless the body lasts until the end: then it completes
    the message. A parser of replies also accepts it in front of a message, where only line ends have come.
   */
  lemma EndIsAccepted(p: Parser, n: nat, pieces: seq<string>)
    requires Ready(p, n) && p.state.Idle? && NonEmpty(pieces) && Feed(p, n, pieces).ok
    ensures
      var f := Feed(p, n, pieces);
      var open := OpenAfterAll(false, f.events);
      var r := CallEof(f.p, f.nread);
      && (!open ==> r.c.p == f.p && r.events == [] && r.used == 0)
      && (open && f.p.state == Idle(StartRes) ==> r.c.p == f.p && r.events == [])
      && (open && f.p.state == Content(BodyIdentityEof) ==> r.c.p == f.p && r.events == [MessageComplete])
      && (open && f.p.state != Idle(StartRes) && f.p.state != Content(BodyIdentityEof) ==>
            r.c.p.errno == INVALID_EOF_STATE && r.events == [] && r.used == 1)
  {
    hide Call, Feed, Succeeds, Ready, OpenAfterAll;
    if pieces != [] {
      OneCallDoesAll(p, n, pieces);
      var f, r := Feed(p, n, pieces), Call(p, n, Concat(pieces));
      CallFits(p, n, Concat(pieces));
      OpenJoinAll(false, [], f.events);
      OpenJoinAll(false, [], r.events);
      OpenNothing();
    } else {
      OpenNothing();
      FeedsNothing(p, n);
    }
  }

  lemma OpenNothing()
    ensures OpenAfterAll(false, []) == false
  {
  }

  lemma FeedsNothing(p: Parser, n: nat)
    ensures Feed(p, n, []).p == p && Feed(p, n, []).events == []
  {
  }
}
