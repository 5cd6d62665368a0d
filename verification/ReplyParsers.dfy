/** `http_reply_parser`: a reply rebuilt from the callbacks. */
module ReplyParsers {
  import opened Chars
  import opened ParserTypes
  import opened Machine
  import opened Invariant
  import opened Segmentation
  import opened Headers
  import opened HttpParsers
  import opened Callbacks
  import opened Packets

  const NO_REPLY := Reply(0, [], "")

  /** A reply after one more callback. */
  function Heard(r: Reply, e: Event): Reply {
    match e
    case Data(Status(code), _) => r.(status := code)
    case Data(Body, bytes) => r.(content := r.content + bytes)
    case Data(Field, bytes) => r.(headers := r.headers + [Header(bytes, "")])
    case Data(Value, bytes) => r.(headers := WithValue(r.headers, bytes))
    case _ => r
  }

  function HeardAll(r: Reply, events: seq<Event>): Reply
    decreases |events|
  {
    if events == [] then r else HeardAll(Heard(r, events[0]), events[1..])
  }

  lemma {:induction false} HeardAppend(r: Reply, a: seq<Event>, b: seq<Event>)
    ensures HeardAll(r, a + b) == HeardAll(HeardAll(r, a), b)
    decreases |a|
  {
    if a == [] {
      assert a + b == b;
    } else {
      assert (a + b)[1..] == a[1..] + b;
      HeardAppend(Heard(r, a[0]), a[1..], b);
    }
  }

  lemma HeardOne(r: Reply, e: Event)
    ensures HeardAll(r, [e]) == Heard(r, e)
  {
    assert [e][1..] == [];
  }

  /** The content of a reply is the bytes reported for it. */
  lemma {:induction false} HeardBytes(r: Reply, events: seq<Event>)
    ensures HeardAll(r, events).content == r.content + BytesOf(Body, events)
    decreases |events|
  {
    if events != [] {
      var n := |events| - 1;
      assert events == events[..n] + [events[n]];
      HeardBytes(r, events[..n]);
      HeardAppend(r, events[..n], [events[n]]);
      HeardOne(HeardAll(r, events[..n]), events[n]);
    }
  }

  /** Headers that are reported whole are appended. */
  lemma {:induction false} HeardReports(r: Reply, headers: seq<Header>)
    ensures HeardAll(r, Reports(headers)) == r.(headers := r.headers + headers)
    decreases |headers|
  {
    if headers == [] {
      assert r.headers + headers == r.headers;
    } else {
      var h, rest := headers[0], headers[1..];
      var x, y := Data(Field, h.name), Data(Value, h.value);
      HeardAppend(r, [x, y], Reports(rest));
      assert [x, y][1..] == [y];
      var q := Heard(r, x);
      assert q.headers[..|q.headers| - 1] == r.headers;
      HeardOne(q, y);
      assert Heard(q, y).headers == r.headers + [h];
      HeardReports(Heard(q, y), rest);
      assert r.headers + [h] + rest == r.headers + headers;
    }
  }

  class HttpReplyParser {
    const parser: HttpParser
    var reply: Reply
    var complete: bool

    /** A value that may still come has a header to go to. */
    ghost predicate Valid()
      reads this, parser
    {
      && parser.Valid()
      && (parser.errno == OK && ValuePending(parser.View()) ==> reply.headers != [])
    }

    constructor ()
      ensures Valid() && fresh(parser)
      ensures parser.View() == Init(RESPONSE) && parser.nread == 0 && reply == NO_REPLY && !complete
    {
      parser := new HttpParser(RESPONSE);
      reply, complete := NO_REPLY, false;
    }

    method OnStatus(code: nat)
      modifies `reply
      ensures forall bytes :: reply == Heard(old(reply), Data(Status(code), bytes))
    {
      reply := reply.(status := code);
    }

    method OnBody(bytes: string)
      modifies `reply
      ensures reply == Heard(old(reply), Data(Body, bytes))
    {
      reply := reply.(content := reply.content + bytes);
    }

    method OnHeaderField(bytes: string)
      modifies `reply
      ensures reply == Heard(old(reply), Data(Field, bytes))
    {
      reply := reply.(headers := reply.headers + [Header(bytes, "")]);
    }

    /** `headers.back()` is there. */
    method OnHeaderValue(bytes: string)
      requires reply.headers != []
      modifies `reply
      ensures reply == Heard(old(reply), Data(Value, bytes))
    {
      var last := |reply.headers| - 1;
      reply := reply.(headers := reply.headers[last := reply.headers[last].(value := bytes)]);
    }

    method OnMessageComplete()
      modifies `complete
      ensures complete
    {
      complete := true;
    }

    /** The callbacks that are set; the others do nothing. */
    method Dispatch(e: Event)
      requires IsValued(e) ==> reply.headers != []
      modifies `reply, `complete
      ensures reply == Heard(old(reply), e) && complete == (old(complete) || e == MessageComplete)
    {
      match e {
        case Data(Status(code), _) => OnStatus(code);
        case Data(Body, bytes) => OnBody(bytes);
        case Data(Field, bytes) => OnHeaderField(bytes);
        case Data(Value, bytes) => OnHeaderValue(bytes);
        case MessageComplete => OnMessageComplete();
        case _ =>
      }
    }

    /** The callbacks of one call, in their order. */
    method DispatchAll(calls: seq<Event>)
      requires NamesFirst(reply.headers != [], calls)
      modifies `reply, `complete
      ensures reply == HeardAll(old(reply), calls) && complete == (old(complete) || MessageComplete in calls)
      ensures old(reply.headers) != [] || SomeNamed(calls) ==> reply.headers != []
    {
      hide Heard;
      var i := 0;
      while i < |calls|
        invariant i <= |calls|
        invariant reply == HeardAll(old(reply), calls[..i])
        invariant complete == (old(complete) || MessageComplete in calls[..i])
        invariant old(reply.headers) != [] || SomeNamed(calls[..i]) ==> reply.headers != []
      {
        var e := calls[i];
        assert calls[..i + 1] == calls[..i] + [e];
        ghost var r := reply;
        if IsValued(e) {
          NamedBefore(old(reply.headers) != [], calls, i);
        }
        Dispatch(e);
        HeardAppend(old(reply), calls[..i], [e]);
        HeardOne(r, e);
        SomeNamedAppend(calls[..i], [e]);
        HeardKeepsHeaders(r, e);
        i := i + 1;
      }
      assert calls[..i] == calls;
    }

    /** `http_reply_parser::parse`: `calls` are the callbacks that were made. */
    method Parse(data: string) returns (result: Verdict, ghost n: nat, ghost calls: seq<Event>)
      requires Valid() && |data| < UINT32_LIMIT - MAX_HEADER_SIZE
      modifies this, parser
      ensures Valid()
      ensures reply == HeardAll(old(reply), calls) && complete == (old(complete) || MessageComplete in calls)
      ensures result ==
        if parser.upgrade || n != |data| then Bad else if complete then Good else Indeterminate
      ensures old(parser.errno) == OK && data != "" ==>
        parser.Meets(old(parser.View()), old(parser.nread), data, n, calls)
      ensures old(parser.errno) == OK && data == "" ==>
        var r := CallEof(old(parser.View()), old(parser.nread));
        parser.View() == r.c.p && calls == r.events && n == r.used
      ensures old(parser.errno) != OK ==> n == 0 && calls == [] && parser.View() == old(parser.View())
    {
      hide HeardAll, ValuePending, Inv;
      var parsed, told := parser.Execute(data);
      n, calls := parsed, told;
      if old(parser.errno) == OK && data != "" {
        CallTellsInOrder(old(parser.View()), old(parser.nread), data, reply.headers != [], calls);
      } else {
        EofTells(old(parser.View()), old(parser.nread));
      }
      DispatchAll(told);
      if parser.upgrade {
        return Bad, n, calls;
      }
      if parsed != |data| {
        return Bad, n, calls;
      }
      if complete {
        return Good, n, calls;
      } else {
        return Indeterminate, n, calls;
      }
    }
  }

  lemma HeardKeepsHeaders(r: Reply, e: Event)
    ensures r.headers != [] || SomeNamed([e]) ==> Heard(r, e).headers != []
  {
  }
}
