/** Requests and replies as any sender may print them, alone and one behind the other in one call. */
module Messages {
  import opened Chars
  import opened ParserTypes
  import opened Transitions
  import opened Machine
  import opened Invariant
  import opened Runs
  import opened Lines
  import opened Methods
  import opened Connections
  import opened Chunks
  import opened Heads
  import opened Exchanges
  import opened HttpParsers
  import opened Requests
  import opened Pipelining
  import opened Segmentation

  datatype Sending =
    | RequestSent(verb: Method, uri: string, major: nat, minor: nat, lines: seq<HeadLine>, load: Load)
    | ReplySent(status: nat, reason: string, major: nat, minor: nat, lines: seq<HeadLine>, load: Load)

  function FirstLine(s: Sending): string {
    match s
    case RequestSent(verb, uri, major, minor, _, _) =>
      MethodName(verb) + " " + (uri + " " + ("HTTP/" + Text(major) + "." + Text(minor) + "\r\n"))
    case ReplySent(status, reason, major, minor, _, _) =>
      "HTTP/" + Text(major) + "." + Text(minor) + " " + Text(status) + " " + reason + "\r\n"
  }

  function TextOf(s: Sending): string {
    FirstLine(s) + RestText(s.lines, s.load)
  }

  /** The bytes that count against the header limit. */
  function HeadSize(s: Sending): nat {
    |FirstLine(s)| + |PrintLines(s.lines)| + 2
  }

  predicate IsTunnel(s: Sending) {
    s.RequestSent? && s.verb == CONNECT
  }

  /** A reply whose body, if no length is given, lasts until the input ends. */
  predicate IsOpenEnded(s: Sending) {
    s.ReplySent? && !(100 <= s.status < 200) && s.status != 204 && s.status != 304
  }

  predicate IsSending(t: ParserType, s: Sending) {
    && Announce(IsTunnel(s), IsOpenEnded(s), s.lines, s.load)
    && s.major <= 999 && s.minor <= 999
    && match s
       case RequestSent(verb, uri, major, _, _, _) => t.REQUEST? && IsUrlFrom(UrlStart(verb), uri) && major > 0
       case ReplySent(status, reason, _, _, _, _) =>
         t.RESPONSE? && status <= 999 && reason != "" && CR !in reason && LF !in reason
  }

  /** Another protocol takes over behind this message. */
  predicate Upgrades(s: Sending) {
    IsTunnel(s) || AskBoth(s.lines)
  }

  /** The connection stays open behind it. */
  predicate Stays(s: Sending) {
    StaysOpen(s.major, s.minor, IsOpenEnded(s), s.lines)
  }

  function BeginTold(s: Sending): seq<Event> {
    [MessageBegin] + [if s.RequestSent? then Data(Url, s.uri) else Data(Status(s.status), s.reason)]
  }

  /** All callbacks for a message. */
  function ToldOf(s: Sending): seq<Event> {
    BeginTold(s) + (LineReports(s.lines) + [HeadersComplete(s.major, s.minor)] + LoadTold(s.load))
  }

  /** The bytes that are counted already when the next message begins. */
  function LeftCounted(s: Sending): nat {
    if s.load.InChunks? then 2 else 0
  }

  lemma FirstLineIsRead(c: Core, t: ParserType, s: Sending)
    requires Going(c) && Awaits(c.p, t) && c.slice.Closed? && IsSending(t, s)
    ensures
      var q := Run(c, FirstLine(s)).c.p;
      && ReadsHead(c, FirstLine(s), q, Closed, BeginTold(s))
      && q.state == Head(HeaderFieldStart) && q.flags == NO_FLAGS && q.contentLength == NO_LENGTH
      && q.ptype == t && q.major == s.major && q.minor == s.minor
      && (q.verb == CONNECT <==> IsTunnel(s)) && IsEndless(q) == IsOpenEnded(s)
      && (s.RequestSent? ==> q.verb == s.verb) && (s.ReplySent? ==> q.status == s.status && q.verb == c.p.verb)
  {
    hide Run, Text, MethodName, IsUrlFrom, Announce, Inv;
    match s
    case RequestSent(verb, uri, major, minor, _, _) => RequestLineIsRead(c, verb, uri, major, minor);
    case ReplySent(status, reason, major, minor, _, _) => StatusLineIsRead(c, major, minor, status, reason);
  }

  /** A whole message, from where one may begin, and what becomes of the connection. */
  ghost predicate ReadsWhole(c: Core, t: ParserType, s: Sending) {
    var text := TextOf(s);
    var r := Run(c, text);
    && CoreInv(r.c) && r.c.p.errno == OK && r.c.p.ptype == t
    && r.c.p.upgrade == r.c.halted == Upgrades(s)
    && (if !Stays(s) then r.c.p.state == Idle(Dead)
        else if t.REQUEST? then r.c.p.state == Idle(StartReq) else r.c.p.state == Idle(StartRes))
    && (if s.RequestSent? then r.c.p.verb == s.verb else r.c.p.verb == c.p.verb)
    && r.c.slice.Closed? && !r.c.inside && !r.c.skipping && r.c.nread == LeftCounted(s)
    && (!c.over && c.nread + HeadSize(s) <= MAX_HEADER_SIZE ==> !r.c.over)
    && r.events == ToldOf(s) && r.used == |text| && Clean(c, text)
  }

  lemma MessageIsRead(c: Core, t: ParserType, s: Sending)
    requires CoreInv(c) && Going(c) && Awaits(c.p, t) && IsSending(t, s)
    ensures ReadsWhole(c, t, s)
  {
    hide Run, CoreInv, Inv, Announce, Clean, FirstLine, RestText, IsUrlFrom, PrintLines, LineReports, LoadTold,
         AskBoth, StaysOpen, BeginTold, IsEndless;
    IdleIsClosed(c);
    FirstLineIsRead(c, t, s);
    RunInv(c, FirstLine(s));
    var d := Run(c, FirstLine(s)).c;
    RestIsRead(d, s.lines, s.load);
    RunInv(c, TextOf(s));
    RunAppend(c, FirstLine(s), RestText(s.lines, s.load));
    CleanAppend(c, FirstLine(s), RestText(s.lines, s.load));
    IdleIsClosed(Run(c, TextOf(s)).c);
  }

  /** Behind it the parser awaits another one exactly if the connection stays open, and no other protocol takes over. */
  lemma WholeAwaits(c: Core, t: ParserType, s: Sending)
    requires Awaits(c.p, t) && ReadsWhole(c, t, s) && IsSending(t, s)
    ensures Awaits(Run(c, TextOf(s)).c.p, t) <==> Stays(s) && !Upgrades(s)
  {
    hide Run, Inv, Clean, TextOf, ToldOf, Stays, Upgrades, Announce, HeadSize;
  }

  /** One message in one call to a parser that has just been initialised. */
  lemma OneIsTold(t: ParserType, s: Sending)
    requires !t.BOTH? && IsSending(t, s) && HeadSize(s) <= 81920
    ensures
      var out := Call(Init(t), 0, TextOf(s));
      && TakesWhole(Init(t), 0, TextOf(s)) && out.events == ToldOf(s)
      && out.c.p.upgrade == out.c.halted == Upgrades(s)
      && (s.RequestSent? ==> out.c.p.verb == s.verb)
  {
    hide Run, Inv, CoreInv, Awaits, TextOf, ToldOf, IsSending, Stays, Upgrades, HeadSize;
    InitAwaits(t, 0);
    BeginInv(Init(t), 0);
    IdleIsGoing(t);
    MessageIsRead(Begin(Init(t), 0), t, s);
    assert ToldOf(s) + [] == ToldOf(s);
  }

  // ---- One behind the other ----

  function TextsOf(list: seq<Sending>): string {
    if list == [] then "" else TextOf(list[0]) + TextsOf(list[1..])
  }

  function ToldOfAll(list: seq<Sending>): seq<Event> {
    if list == [] then [] else ToldOf(list[0]) + ToldOfAll(list[1..])
  }

  /** Messages within the header limit; behind each but the last the connection stays open. */
  predicate IsDialogue(t: ParserType, n: nat, list: seq<Sending>)
    decreases |list|
  {
    list == []
    || (&& IsSending(t, list[0]) && n + HeadSize(list[0]) <= 81920
        && (|list| > 1 ==> Stays(list[0]) && !Upgrades(list[0]))
        && IsDialogue(t, LeftCounted(list[0]), list[1..]))
  }

  lemma {:induction false} AllAreRead(c: Core, t: ParserType, list: seq<Sending>)
    requires CoreInv(c) && Going(c) && Awaits(c.p, t) && !c.over && list != [] && IsDialogue(t, c.nread, list)
    ensures
      var r, last := Run(c, TextsOf(list)), list[|list| - 1];
      && r.events == ToldOfAll(list) && r.used == |TextsOf(list)| && Clean(c, TextsOf(list))
      && r.c.p.errno == OK && !r.c.over && r.c.slice.Closed? && !r.c.inside && r.c.nread == LeftCounted(last)
      && r.c.p.upgrade == r.c.halted == Upgrades(last)
      && (Awaits(r.c.p, t) <==> Stays(last) && !Upgrades(last)) && r.c.p.state.Idle?
    decreases |list|
  {
    hide Run, CoreInv, Awaits, Clean, TextOf, ToldOf, Stays, Upgrades, IsSending, HeadSize;
    var s, rest := list[0], list[1..];
    MessageIsRead(c, t, s);
    WholeAwaits(c, t, s);
    var d := Run(c, TextOf(s)).c;
    RunAppend(c, TextOf(s), TextsOf(rest));
    CleanAppend(c, TextOf(s), TextsOf(rest));
    RunNothing(d);
    if rest == [] {
      assert TextOf(s) + "" == TextOf(s);
      assert ToldOf(s) + [] == ToldOf(s);
    } else {
      AllAreRead(d, t, rest);
    }
  }

  /**
    Any number of requests, or of replies, in one call: all of them are taken, and told one by one. The call
    leaves for another protocol exactly if the last of them asks for one; another message is awaited exactly
    if the last of them keeps the connection open.
   */
  lemma DialogueIsTold(t: ParserType, list: seq<Sending>)
    requires !t.BOTH? && list != [] && IsDialogue(t, 0, list)
    ensures
      var out, last := Call(Init(t), 0, TextsOf(list)), list[|list| - 1];
      && TakesWhole(Init(t), 0, TextsOf(list)) && out.events == ToldOfAll(list)
      && out.c.p.upgrade == out.c.halted == Upgrades(last)
      && (Awaits(out.c.p, t) <==> Stays(last) && !Upgrades(last))
  {
    hide Run, Inv, CoreInv, Awaits, TextsOf, ToldOfAll, IsDialogue, Stays, Upgrades;
    InitAwaits(t, 0);
    BeginInv(Init(t), 0);
    var c := Begin(Init(t), 0);
    IdleIsGoing(t);
    AllAreRead(c, t, list);
    assert ToldOfAll(list) + [] == ToldOfAll(list);
  }

  lemma IdleIsGoing(t: ParserType)
    ensures Going(Begin(Init(t), 0)) && !Begin(Init(t), 0).over && Begin(Init(t), 0).nread == 0
    ensures Begin(Init(t), 0).p == Init(t)
  {
  }

  /**
    What comes behind the last message: nothing of it is read if the message asks for another protocol;
    if the message closes the connection only line ends may follow, and nothing more is told.
   */
  lemma NothingBehindTheLast(t: ParserType, s: Sending, more: string)
    requires !t.BOTH? && IsDialogue(t, 0, [s]) && (Upgrades(s) || !Stays(s))
    ensures
      var out := Call(Init(t), 0, TextOf(s) + more);
      && out.events == ToldOf(s)
      && if Upgrades(s) then out.used == |TextOf(s)| && out.c.p.errno == OK && out.c.p.upgrade
         else if forall ch <- more :: ch == CR || ch == LF then out.c.p.errno == OK && out.used == |TextOf(s)| + |more|
         else out.c.p.errno == CLOSED_CONNECTION
  {
    hide Run, Inv, CoreInv, Awaits, TextOf, ToldOf, IsSending, Stays, Upgrades, HeadSize;
    InitAwaits(t, 0);
    BeginInv(Init(t), 0);
    IdleIsGoing(t);
    assert [s][0] == s;
    var c := Begin(Init(t), 0);
    MessageIsRead(c, t, s);
    RunAppend(c, TextOf(s), more);
    var d := Run(c, TextOf(s)).c;
    assert ToldOf(s) + [] == ToldOf(s);
    if Upgrades(s) {
      RunStopped(d, more);
    } else {
      DeadIsSilent(d, more);
      if forall ch <- more :: ch == CR || ch == LF {
        DeadTakes(d, more);
      }
      assert Rest(Closed) == [];
    }
  }

  /** A dead connection takes all line ends. */
  lemma {:induction false} DeadTakes(c: Core, data: string)
    requires c.p.state == Idle(Dead) && Going(c) && forall ch <- data :: ch == CR || ch == LF
    ensures Run(c, data).used == |data|
    decreases |data|
  {
    if data != [] {
      assert data[0] in data && forall ch <- data[1..] :: ch in data;
      DeadTakes(Step(c, data[0]).c, data[1..]);
    }
  }
}
