/** What a session does behind each event, field by field, and what it has sent behind a whole run of them. */
module Services {
  import opened Callbacks
  import opened Packets
  import opened Sessions
  import opened Lines
  import opened Headers

  /** A session whose socket has been accepted: registered, reading, and watched by one wait. */
  const STARTED :=
    Session(true, false, false, true, false, 1, 0, 0, false, "", [], false, false)

  /** The page for a request that is no good, as it goes over the line. */
  const BAD_TEXT :=
    "HTTP/1.0 400 Bad Request\r\n" + "Content-Length: 89\r\n" + "Content-Type: text/html\r\n"
    + "Content-Length: 89\r\n\r\n"
    + "<html><head><title>Bad Request</title></head><body><h1>400 Bad Request</h1></body></html>"

  lemma StartIsStarted()
    ensures BeginRead(NEW_SESSION.(registered := true)) == STARTED
  {
  }

  // ---- The refusing reply ----

  lemma SmallNumbers()
    ensures Text(89) == "89" && Text(400) == "400"
  {
    assert Text(8) == "8" && Text(4) == "4";
    assert Text(89) == Text(8) + "9";
    assert Text(40) == Text(4) + "0" && Text(400) == Text(40) + "0";
    assert "8" + "9" == "89" && "4" + "0" == "40" && "40" + "0" == "400";
  }

  lemma TwoLines(a: Header, b: Header)
    ensures PrintAll([a, b]) == Print(a) + Print(b)
  {
    assert [a, b][1..] == [b] && [b][1..] == [];
    assert PrintAll([b]) == Print(b) + "";
    hide Print;
  }

  lemma BadIsPrinted()
    ensures StockReply(400, BAD_PAGE).Printed() == BAD_TEXT
  {
    hide Text, PrintAll;
    SmallNumbers();
    assert |BAD_PAGE| == 89;
    assert StatusLine(400) == "HTTP/1.0 " + "400" + " " + "Bad Request" + "\r\n";
    var line := "HTTP/1.0 400 Bad Request\r\n";
    assert "HTTP/1.0 " + "400" + " " + "Bad Request" + "\r\n" == line;
    var a, b := Header("Content-Length", "89"), Header("Content-Type", "text/html");
    TwoLines(a, b);
    assert Print(a) == "Content-Length: 89\r\n" && Print(b) == "Content-Type: text/html\r\n";
    LengthAndBodyIs(BAD_PAGE);
    var c := "Content-Length: 89\r\n\r\n";
    assert "Content-Length: " + "89" + "\r\n\r\n" == c;
    JoinsParts(line, Print(a), Print(b), c, BAD_PAGE);
  }

  lemma JoinsParts(line: string, a: string, b: string, c: string, d: string)
    ensures line + (a + b) + (c + d) == line + a + b + c + d
  {
  }

  // ---- One event ----

  /** A session that has begun to write `text`. */
  predicate Sends(s: Session, t: Session, text: string) {
    t == s.(reading := false, writing := true, waiting := 1, asked := 0, moved := t.moved, stopped := t.stopped,
            text := text, sent := [text])
  }

  /** What each outcome of a read leads to. */
  lemma ReadLeads(s: Session, got: ReadResult)
    requires IsSafe(s) && s.reading
    ensures
      var t := Next(s, ReadDone(got));
      match got
      case Received(Good, Later) => t == s.(reading := false, waiting := 1, asked := 1, moved := true) && t.sent == []
      case Received(Good, Now(r)) =>
        && t.moved && t.stopped == s.stopped
        && if s.stopped then t == s.(reading := false, waiting := 1, moved := true) && t.sent == []
           else Sends(s, t, r.Printed())
      case Received(Bad, _) => t.stopped && !t.moved && t.asked == 0 && Sends(s, t, BAD_TEXT)
      case Received(Indeterminate, _) => t == s.(waiting := 1) && t.reading && t.sent == []
      case ReadFailed => t == s.(reading := false, waiting := 0, registered := false, shut := true)
      case ReadAborted => t == s.(reading := false, waiting := 0)
  {
    BadIsPrinted();
    hide StockReply, Reply.Printed;
  }

  /** And every other event. */
  lemma EventLeads(s: Session, e: SessionEvent)
    requires IsSafe(s) && Enabled(s, e) && !e.ReadDone?
    ensures
      var t := Next(s, e);
      match e
      case ReadDone(_) => true
      case WriteDone(WriteAborted) => t == s.(writing := false, waiting := 0)
      case WriteDone(_) => t == s.(writing := false, waiting := 0, registered := false, shut := true)
      case TimerExpires => t == s.(waiting := s.waiting - 1, expired := s.expired + 1)
      case WaitRuns => t == s.(expired := s.expired - 1, stopped := true, registered := false, shut := true)
      case Replies(r) =>
        && t.moved && t.stopped == s.stopped
        && if s.stopped then t == s.(asked := 0) && t.sent == [] else Sends(s, t, r.Printed())
      case AllStopped => t == if s.registered then s.(registered := false, shut := true) else s
  {
    hide Reply.Printed;
  }

  // ---- Whole runs ----

  predicate IsBad(e: SessionEvent) {
    e.ReadDone? && e.got.Received? && e.got.verdict.Bad?
  }

  predicate IsGood(e: SessionEvent) {
    e.ReadDone? && e.got.Received? && e.got.verdict.Good?
  }

  /** The handler answers with `r`: at once, or later. */
  predicate Answers(e: SessionEvent, r: Reply) {
    e == Replies(r) || (IsGood(e) && e.got.answer == Now(r))
  }

  predicate Refused(events: seq<SessionEvent>) {
    exists e <- events :: IsBad(e)
  }

  predicate Accepted(events: seq<SessionEvent>) {
    exists e <- events :: IsGood(e)
  }

  predicate Answered(events: seq<SessionEvent>, r: Reply) {
    exists e <- events :: Answers(e, r)
  }

  predicate TimedOut(events: seq<SessionEvent>) {
    WaitRuns in events
  }

  /** What a run from the start has come to. */
  ghost predicate Story(events: seq<SessionEvent>, t: Session) {
    && (t.moved <==> Accepted(events))
    && (t.stopped <==> Refused(events) || TimedOut(events))
    && !(Accepted(events) && Refused(events))
    && (t.reading ==> !Accepted(events) && !Refused(events))
    && (t.asked > 0 ==> forall r :: !Answered(events, r))
    && (forall r :: Answered(events, r) ==> Accepted(events))
    && (Refused(events) ==> t.sent == [BAD_TEXT])
    && (t.sent != [] && !Refused(events) ==> exists r :: Answered(events, r) && t.sent == [r.Printed()])
    && (forall r :: Answered(events, r) && !TimedOut(events) ==> t.sent == [r.Printed()])
  }

  lemma MoreOf(events: seq<SessionEvent>, e: SessionEvent)
    ensures
      var all := events + [e];
      && (Refused(all) <==> Refused(events) || IsBad(e))
      && (Accepted(all) <==> Accepted(events) || IsGood(e))
      && (TimedOut(all) <==> TimedOut(events) || e == WaitRuns)
      && forall r :: Answered(all, r) <==> Answered(events, r) || Answers(e, r)
  {
    var all := events + [e];
    assert e in all && (forall x <- events :: x in all) && (forall x <- all :: x in events || x == e);
    hide IsBad, IsGood, Answers;
    forall r
      ensures Answered(all, r) <==> Answered(events, r) || Answers(e, r)
    {
      if Answered(events, r) { var x :| x in events && Answers(x, r); assert x in all; }
    }
  }

  lemma StoryOfRead(events: seq<SessionEvent>, t: Session, got: ReadResult)
    requires IsSafe(t) && t.reading && Story(events, t)
    ensures Story(events + [ReadDone(got)], Next(t, ReadDone(got)))
  {
    MoreOf(events, ReadDone(got));
    ReadLeads(t, got);
    hide Next, Refused, Accepted, Answered, TimedOut, Reply.Printed, IsSafe;
  }

  lemma StoryOfReply(events: seq<SessionEvent>, t: Session, r: Reply)
    requires IsSafe(t) && t.asked > 0 && Story(events, t)
    ensures Story(events + [Replies(r)], Next(t, Replies(r)))
  {
    MoreOf(events, Replies(r));
    EventLeads(t, Replies(r));
    hide Next, Refused, Accepted, Answered, TimedOut, Reply.Printed;
  }

  lemma StoryOfOther(events: seq<SessionEvent>, t: Session, e: SessionEvent)
    requires IsSafe(t) && Enabled(t, e) && Story(events, t) && !e.ReadDone? && !e.Replies?
    ensures Story(events + [e], Next(t, e))
  {
    MoreOf(events, e);
    EventLeads(t, e);
    hide Next, Refused, Accepted, Answered, TimedOut, Reply.Printed, IsSafe;
  }

  lemma StoryGoesOn(events: seq<SessionEvent>, t: Session, e: SessionEvent)
    requires IsSafe(t) && Enabled(t, e) && Story(events, t)
    ensures Story(events + [e], Next(t, e))
  {
    hide Story, Next, IsSafe;
    match e
    case ReadDone(got) => StoryOfRead(events, t, got);
    case Replies(r) => StoryOfReply(events, t, r);
    case _ => StoryOfOther(events, t, e);
  }

  lemma {:induction false} RunAppends(s: Session, events: seq<SessionEvent>, e: SessionEvent)
    ensures MayHappen(s, events + [e]) <==> MayHappen(s, events) && Enabled(AfterEvents(s, events), e)
    ensures AfterEvents(s, events + [e]) == Next(AfterEvents(s, events), e)
    decreases |events|
  {
    hide Next, Enabled;
    if events == [] {
      assert [] + [e] == [e] && [e][1..] == [];
      OneEvent(s, e);
    } else {
      assert (events + [e])[1..] == events[1..] + [e];
      RunAppends(Next(s, events[0]), events[1..], e);
    }
  }

  lemma OneEvent(s: Session, e: SessionEvent)
    ensures MayHappen(s, [e]) <==> Enabled(s, e)
    ensures AfterEvents(s, [e]) == Next(s, e)
  {
    assert [e][1..] == [];
    hide Next, Enabled;
    assert MayHappen(Next(s, e), []) && AfterEvents(Next(s, e), []) == Next(s, e);
  }

  lemma StoryBegins()
    ensures Story([], STARTED) && IsSafe(STARTED) && IsWatched(STARTED)
  {
  }

  /**
    Whatever events come in whatever order, from the start of a session: the request is handed out exactly
    behind a good verdict; the page of error 400 is sent exactly behind a bad one; any other text that is
    sent is the reply that the handler has given to a good request, and that reply is sent unless a wait ran.
   */
  lemma {:induction false} SentHasACause(events: seq<SessionEvent>)
    requires MayHappen(STARTED, events)
    ensures IsSafe(AfterEvents(STARTED, events)) && Story(events, AfterEvents(STARTED, events))
    decreases |events|
  {
    hide IsSafe, Next, Enabled, Story;
    if events == [] {
      StoryBegins();
    } else {
      var n := |events| - 1;
      var before, e := events[..n], events[n];
      assert events == before + [e];
      RunAppends(STARTED, before, e);
      SentHasACause(before);
      var t := AfterEvents(STARTED, before);
      NextIsSafe(t, e);
      StoryGoesOn(before, t, e);
    }
  }
}
