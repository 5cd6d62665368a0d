/**
  The server's session as an event machine: reads, writes, timer waits, replies and `stop_all`
  may come in any order. Handlers run one at a time.
 */
module Sessions {
  import opened Callbacks
  import opened Packets

  /**
    One session.
    - `registered`: it is in the set of the session manager;
    - `shut`: its socket has been shut down; `stopped`: `m_stopped`;
    - `reading`, `writing`: a read into `m_buffer`, a write of `text` (`m_reply_str`) is in flight;
    - `waiting`: timer waits that are neither expired nor cancelled; `expired`: waits that have
      expired, whose handlers are still to run;
    - `asked`: times the request handler may still reply; `moved`: `move_req` has been called;
    - `sent`: the texts whose writing has begun;
    - `timerClash`: a wait was found where `expires_from_now` expects none;
    - `ioClash`: a read or write was begun while another one was in flight.
   */
  datatype Session = Session(
    registered: bool, shut: bool, stopped: bool, reading: bool, writing: bool, waiting: nat, expired: nat,
    asked: nat, moved: bool, text: string, sent: seq<string>, timerClash: bool, ioClash: bool)

  const NEW_SESSION := Session(false, false, false, false, false, 0, 0, 0, false, "", [], false, false)

  const BAD_PAGE :=
    "<html><head><title>Bad Request</title></head><body><h1>400 Bad Request</h1></body></html>"

  /** What the request handler does before it returns: it replies, or leaves that for later. */
  datatype Answer = Later | Now(reply: Reply)

  datatype ReadResult = ReadFailed | ReadAborted | Received(verdict: Verdict, answer: Answer)
  datatype WriteResult = WriteFailed | WriteAborted | Written

  /** What may happen to a session that has been started. */
  datatype SessionEvent =
    | ReadDone(got: ReadResult)
    | WriteDone(put: WriteResult)
    | TimerExpires
    | WaitRuns
    | Replies(reply: Reply)
    | AllStopped

  predicate Enabled(s: Session, e: SessionEvent) {
    match e
    case ReadDone(_) => s.reading
    case WriteDone(_) => s.writing
    case TimerExpires => s.waiting > 0
    case WaitRuns => s.expired > 0
    case Replies(_) => s.asked > 0
    case AllStopped => true
  }

  /** `http_session_manager::stop`. */
  function Stopped(s: Session): Session {
    s.(registered := false, shut := true)
  }

  /** `do_read`. */
  function BeginRead(s: Session): Session {
    if s.waiting != 0 then Stopped(s.(waiting := 0, timerClash := true))
    else s.(waiting := 1, reading := true, ioClash := s.ioClash || s.reading || s.writing)
  }

  /** `do_write` of a reply; the timer is cancelled first. */
  function BeginWrite(s: Session, reply: Reply): Session {
    s.(waiting := 1, writing := true, text := reply.Printed(), sent := s.sent + [reply.Printed()],
       ioClash := s.ioClash || s.reading || s.writing)
  }

  /** `on_reply`. */
  function TakeReply(s: Session, reply: Reply): Session {
    var t := s.(asked := if s.asked > 0 then s.asked - 1 else 0);
    if s.stopped then t else BeginWrite(t, reply)
  }

  /** `handle_request`. */
  function Handle(s: Session, answer: Answer): Session {
    var t := s.(waiting := 1, moved := true, asked := s.asked + 1);
    match answer
    case Later => t
    case Now(reply) => TakeReply(t, reply)
  }

  /** The handler of a read. */
  function AfterRead(s: Session, got: ReadResult): Session {
    var t := s.(reading := false, waiting := 0);
    match got
    case ReadFailed => Stopped(t)
    case ReadAborted => t
    case Received(Good, answer) => Handle(t, answer)
    case Received(Bad, _) => BeginWrite(t.(stopped := true), StockReply(400, BAD_PAGE))
    case Received(Indeterminate, _) => BeginRead(t)
  }

  function Next(s: Session, e: SessionEvent): Session {
    match e
    case ReadDone(got) => AfterRead(s, got)
    case WriteDone(put) =>
      var t := s.(writing := false, waiting := 0);
      if put.WriteAborted? then t else Stopped(t)
    case TimerExpires => s.(waiting := if s.waiting > 0 then s.waiting - 1 else 0, expired := s.expired + 1)
    case WaitRuns => Stopped(s.(expired := if s.expired > 0 then s.expired - 1 else 0, stopped := true))
    case Replies(reply) => TakeReply(s, reply)
    case AllStopped => if s.registered then Stopped(s) else s
  }

  // ---- The invariant ----

  /** No read or write is aborted: the socket is never closed while one is in flight. */
  predicate IsAbort(e: SessionEvent) {
    e == ReadDone(ReadAborted) || e == WriteDone(WriteAborted)
  }

  /** What holds between any two events, whatever happens. */
  predicate IsSafe(s: Session) {
    && !s.timerClash && !s.ioClash
    && s.waiting <= 1
    && !(s.reading && s.writing)
    && (s.reading ==> !s.moved && s.asked == 0 && s.sent == [])
    && s.asked <= 1
    && (s.asked > 0 ==> s.moved && !s.writing && s.sent == [])
    && |s.sent| <= 1
    && (s.writing ==> s.sent == [s.text])
  }

  /** Nobody is forgotten: a registered session has a wait that will end it. */
  predicate IsWatched(s: Session) {
    s.registered ==> s.waiting + s.expired > 0
  }

  lemma StartIsSafe()
    ensures
      var s := BeginRead(NEW_SESSION.(registered := true));
      IsSafe(s) && IsWatched(s) && s.reading
  {
  }

  lemma NextIsSafe(s: Session, e: SessionEvent)
    requires IsSafe(s) && Enabled(s, e)
    ensures IsSafe(Next(s, e))
    ensures IsWatched(s) && !IsAbort(e) ==> IsWatched(Next(s, e))
  {
  }

  /** A run of events, each of which may happen when it does. */
  predicate MayHappen(s: Session, events: seq<SessionEvent>)
    decreases |events|
  {
    events == [] || (Enabled(s, events[0]) && MayHappen(Next(s, events[0]), events[1..]))
  }

  function AfterEvents(s: Session, events: seq<SessionEvent>): Session
    decreases |events|
  {
    if events == [] then s else AfterEvents(Next(s, events[0]), events[1..])
  }

  lemma {:induction false} RunIsSafe(s: Session, events: seq<SessionEvent>)
    requires IsSafe(s) && MayHappen(s, events)
    ensures IsSafe(AfterEvents(s, events))
    ensures IsWatched(s) && (forall e <- events :: !IsAbort(e)) ==> IsWatched(AfterEvents(s, events))
    decreases |events|
  {
    hide IsSafe, IsWatched, Next;
    if events != [] {
      NextIsSafe(s, events[0]);
      assert events[0] in events && forall e <- events[1..] :: e in events;
      RunIsSafe(Next(s, events[0]), events[1..]);
    }
  }

  /**
    Exactly which event loses sight of a session: an aborted completion while it is registered and
    no wait has expired. Then nothing but the end of the server can still happen to it.
   */
  lemma AbortStrands(s: Session, e: SessionEvent)
    requires IsSafe(s) && IsWatched(s) && Enabled(s, e)
    ensures IsWatched(Next(s, e)) <==> !(IsAbort(e) && s.registered && s.expired == 0)
    ensures !IsWatched(Next(s, e)) ==> forall f | Enabled(Next(s, e), f) :: f == AllStopped
  {
  }

  /** So a run that loses sight of a session has met an aborted completion. */
  lemma {:induction false} RunStrands(s: Session, events: seq<SessionEvent>)
    requires IsSafe(s) && IsWatched(s) && MayHappen(s, events) && !IsWatched(AfterEvents(s, events))
    ensures exists e <- events :: IsAbort(e)
    decreases |events|
  {
    hide IsSafe, IsWatched, Next, IsAbort;
    if events != [] {
      NextIsSafe(s, events[0]);
      if !IsAbort(events[0]) {
        RunStrands(Next(s, events[0]), events[1..]);
      }
    }
  }

  /** A reply that was not asked for does no harm exactly if it is dropped, or nothing is under way or written. */
  lemma UnaskedReply(s: Session, reply: Reply)
    requires IsSafe(s) && s.asked == 0
    ensures IsSafe(Next(s, Replies(reply))) <==> s.stopped || (!s.reading && !s.writing && s.sent == [])
  {
  }

  // ---- The objects ----

  /** `http_session_manager`. */
  class HttpSessionManager {
    var sessions: set<HttpServerSession>

    constructor ()
      ensures sessions == {}
    {
      sessions := {};
    }

    method Start(c: HttpServerSession)
      requires c.manager == this
      modifies this, c
      ensures c.View() == BeginRead(old(c.View()).(registered := true))
      ensures sessions - {c} == old(sessions) - {c}
    {
      sessions := sessions + {c};
      c.Start();
      assert old(sessions) + {c} - {c} == old(sessions) - {c};
    }

    method Stop(c: HttpServerSession)
      requires c.manager == this
      modifies this, c`shut
      ensures c.View() == Stopped(old(c.View()))
      ensures sessions == old(sessions) - {c}
    {
      sessions := sessions - {c};
      c.Stop();
    }

    /** The set is emptied first; then the sessions that were in it are stopped. */
    method StopAll()
      requires forall c <- sessions :: c.manager == this
      modifies this, sessions`shut
      ensures sessions == {}
      ensures forall c <- old(sessions) :: c.View() == Next(old(c.View()), AllStopped)
    {
      var copies := sessions;
      sessions := {};
      ghost var done: set<HttpServerSession> := {};
      while copies != {}
        invariant sessions == {}
        invariant done + copies == old(sessions)
        invariant forall c <- done :: c.shut
        decreases |copies|
      {
        var c :| c in copies;
        c.Stop();
        done := done + {c};
        copies := copies - {c};
      }
    }
  }

  /** `http_server_session`. */
  class HttpServerSession {
    const manager: HttpSessionManager
    var shut: bool
    var stopped: bool
    var reading: bool
    var writing: bool
    var waiting: nat
    var expired: nat
    var asked: nat
    var moved: bool
    var reply: Reply
    var replyText: string
    ghost var sent: seq<string>
    ghost var timerClash: bool
    ghost var ioClash: bool

    ghost function View(): Session
      reads this, manager
    {
      Session(this in manager.sessions, shut, stopped, reading, writing, waiting, expired, asked, moved,
              replyText, sent, timerClash, ioClash)
    }

    constructor (m: HttpSessionManager)
      ensures manager == m
      ensures View() == NEW_SESSION.(registered := this in m.sessions)
    {
      manager := m;
      shut, stopped, reading, writing, waiting, expired, asked, moved := false, false, false, false, 0, 0, 0, false;
      reply, replyText, sent, timerClash, ioClash := Reply(0, [], ""), "", [], false, false;
    }

    /** Where the rest of the set of sessions is left alone. */
    twostate predicate OthersStay()
      reads manager
    {
      manager.sessions - {this} == old(manager.sessions) - {this}
    }

    method Start()
      modifies this, manager
      ensures View() == BeginRead(old(View())) && OthersStay()
    {
      DoRead();
    }

    method Stop()
      modifies `shut
      ensures shut
    {
      shut := true;
    }

    /** `m_con_timer.cancel()`. */
    method Cancel()
      modifies `waiting
      ensures waiting == 0
    {
      waiting := 0;
    }

    /** `m_con_timer.expires_from_now(...)`: how many waits were cancelled. */
    method ExpiresFromNow() returns (cancelled: nat)
      modifies `waiting
      ensures cancelled == old(waiting) && waiting == 0
    {
      cancelled := waiting;
      waiting := 0;
    }

    /** `m_con_timer.async_wait(...)`. */
    method AsyncWait()
      modifies `waiting
      ensures waiting == old(waiting) + 1
    {
      waiting := waiting + 1;
    }

    method DoRead()
      modifies this, manager
      ensures View() == BeginRead(old(View())) && OthersStay()
    {
      var cancelled := ExpiresFromNow();
      if cancelled != 0 {
        timerClash := true;
        manager.Stop(this);
        return;
      }
      AsyncWait();
      ioClash := ioClash || reading || writing;
      reading := true;
    }

    method DoWrite()
      modifies this
      ensures View() == BeginWrite(old(View()), old(reply))
    {
      hide Reply.Printed;
      Cancel();
      var cancelled := ExpiresFromNow();
      // Nothing is left to cancel, so the early return that follows in the source is never taken.
      assert cancelled == 0;
      AsyncWait();
      replyText := reply.ToString();
      ioClash := ioClash || reading || writing;
      sent := sent + [replyText];
      writing := true;
    }

    method OnReply(r: Reply)
      modifies this
      ensures View() == TakeReply(old(View()), r)
    {
      if asked > 0 {
        asked := asked - 1;
      }
      if stopped {
        return;
      }
      Cancel();
      reply := r;
      DoWrite();
    }

    method OnTimeout()
      modifies this, manager
      ensures View() == Stopped(old(View()).(stopped := true)) && OthersStay()
    {
      stopped := true;
      manager.Stop(this);
    }

    /** The request handler is called; it may reply at once. */
    method HandleRequest(answer: Answer)
      modifies this
      ensures View() == Handle(old(View()), answer)
    {
      Cancel();
      moved := true;
      var cancelled := ExpiresFromNow();
      assert cancelled == 0;
      AsyncWait();
      asked := asked + 1;
      match answer {
        case Later =>
        case Now(r) => OnReply(r);
      }
    }

    /** A request that is no good is answered by a stock reply. */
    method RefuseRequest()
      modifies this
      ensures View() == BeginWrite(old(View()).(stopped := true), StockReply(400, BAD_PAGE))
    {
      stopped := true;
      reply := StockReply(400, BAD_PAGE);
      DoWrite();
    }

    /** The handler of a read. */
    method OnRead(got: ReadResult)
      requires reading
      modifies this, manager
      ensures View() == AfterRead(old(View()), got) && OthersStay()
    {
      hide StockReply, Reply.Printed;
      reading := false;
      Cancel();
      match got {
        case Received(Good, answer) => HandleRequest(answer);
        case Received(Bad, _) =>
          RefuseRequest();
        case Received(Indeterminate, _) => DoRead();
        case ReadFailed => manager.Stop(this);
        case ReadAborted =>
      }
    }

    /** The handler of a write. */
    method OnWritten(put: WriteResult)
      requires writing
      modifies this, manager
      ensures View() == Next(old(View()), WriteDone(put)) && OthersStay()
    {
      writing := false;
      Cancel();
      if !put.WriteAborted? {
        manager.Stop(this);
      }
    }

    /** An event of this session: it does what the event machine does, and keeps its invariant. */
    method Dispatch(e: SessionEvent)
      requires Enabled(View(), e) && !e.AllStopped? && IsSafe(View())
      modifies this, manager
      ensures View() == Next(old(View()), e) && OthersStay()
      ensures IsSafe(View())
      ensures old(IsWatched(View())) && !IsAbort(e) ==> IsWatched(View())
    {
      NextIsSafe(View(), e);
      hide IsSafe, IsWatched;
      match e {
        case ReadDone(got) => OnRead(got);
        case WriteDone(put) => OnWritten(put);
        case TimerExpires => waiting, expired := waiting - 1, expired + 1;
        case WaitRuns =>
          expired := expired - 1;
          OnTimeout();
        case Replies(r) => OnReply(r);
      }
    }
  }
}
