/** `http_request_parser`: a request rebuilt from the callbacks. */
module RequestParsers {
  import opened Chars
  import opened ParserTypes
  import opened Machine
  import opened Invariant
  import opened Segmentation
  import opened Headers
  import opened HttpParsers
  import opened Callbacks
  import opened Packets

  const NO_REQUEST := Request("", "", 0, 0, [], "")

  /** A request after one more callback. */
  function Heard(r: Request, e: Event): Request {
    match e
    case Data(Url, bytes) => r.(uri := r.uri + bytes)
    case Data(Body, bytes) => r.(body := r.body + bytes)
    case Data(Field, bytes) => r.(headers := r.headers + [Header(bytes, "")])
    case Data(Value, bytes) => r.(headers := WithValue(r.headers, bytes))
    case HeadersComplete(major, minor) => r.(major := major, minor := minor)
    case _ => r
  }

  function HeardAll(r: Request, events: seq<Event>): Request
    decreases |events|
  {
    if events == [] then r else HeardAll(Heard(r, events[0]), events[1..])
  }

  lemma {:induction false} HeardAppend(r: Request, a: seq<Event>, b: seq<Event>)
    ensures HeardAll(r, a + b) == HeardAll(HeardAll(r, a), b)
    decreases |a|
  {
    if a == [] {
      assert a + b == b;
    } else {
      assert (a + b)[1..] == a[1..] + b;
      HeardAppend(Heard(r, a[0]), a[1..], b);
    }
  }

  lemma HeardOne(r: Request, e: Event)
    ensures HeardAll(r, [e]) == Heard(r, e)
  {
    assert [e][1..] == [];
  }

  /** The URI and the body of a request are the bytes reported for them. */
  lemma {:induction false} HeardBytes(r: Request, events: seq<Event>)
    ensures HeardAll(r, events).uri == r.uri + BytesOf(Url, events)
    ensures HeardAll(r, events).body == r.body + BytesOf(Body, events)
    ensures HeardAll(r, events).verb == r.verb
    decreases |events|
  {
    if events != [] {
      var n := |events| - 1;
      assert events == events[..n] + [events[n]];
      HeardBytes(r, events[..n]);
      HeardAppend(r, events[..n], [events[n]]);
      HeardOne(HeardAll(r, events[..n]), events[n]);
    }
  }

  /** Headers that are reported whole are appended. */
  lemma {:induction false} HeardReports(r: Request, headers: seq<Header>)
    ensures HeardAll(r, Reports(headers)) == r.(headers := r.headers + headers)
    decreases |headers|
  {
    if headers == [] {
      assert r.headers + headers == r.headers;
    } else {
      var h, rest := headers[0], headers[1..];
      var x, y := Data(Field, h.name), Data(Value, h.value);
      HeardAppend(r, [x, y], Reports(rest));
      assert [x, y][1..] == [y];
      var q := Heard(r, x);
      assert q.headers[..|q.headers| - 1] == r.headers;
      HeardOne(q, y);
      assert Heard(q, y).headers == r.headers + [h];
      HeardReports(Heard(q, y), rest);
      assert r.headers + [h] + rest == r.headers + headers;
    }
  }

  class HttpRequestParser {
    const parser: HttpParser
    var req: Request
    var complete: bool

    /** A value that may still come has a header to go to. */
    ghost predicate Valid()
      reads this, parser
    {
      && parser.Valid()
      && (parser.errno == OK && ValuePending(parser.View()) ==> req.headers != [])
    }

    constructor ()
      ensures Valid() && fresh(parser)
      ensures parser.View() == Init(REQUEST) && parser.nread == 0 && req == NO_REQUEST && !complete
    {
      parser := new HttpParser(REQUEST);
      req, complete := NO_REQUEST, false;
    }

    method OnUrl(bytes: string)
      modifies `req
      ensures req == Heard(old(req), Data(Url, bytes))
    {
      req := req.(uri := req.uri + bytes);
    }

    method OnBody(bytes: string)
      modifies `req
      ensures req == Heard(old(req), Data(Body, bytes))
    {
      req := req.(body := req.body + bytes);
    }

    method OnHeaderField(bytes: string)
      modifies `req
      ensures req == Heard(old(req), Data(Field, bytes))
    {
      req := req.(headers := req.headers + [Header(bytes, "")]);
    }

    /** `headers.back()` is there. */
    method OnHeaderValue(bytes: string)
      requires req.headers != []
      modifies `req
      ensures req == Heard(old(req), Data(Value, bytes))
    {
      var last := |req.headers| - 1;
      req := req.(headers := req.headers[last := req.headers[last].(value := bytes)]);
    }

    method OnHeadersComplete(major: nat, minor: nat)
      modifies `req
      ensures req == Heard(old(req), HeadersComplete(major, minor))
    {
      req := req.(major := major, minor := minor);
    }

    method OnMessageComplete()
      modifies `complete
      ensures complete
    {
      complete := true;
    }

    /** The callbacks that are set; the others do nothing. */
    method Dispatch(e: Event)
      requires IsValued(e) ==> req.headers != []
      modifies `req, `complete
      ensures req == Heard(old(req), e) && complete == (old(complete) || e == MessageComplete)
    {
      match e {
        case Data(Url, bytes) => OnUrl(bytes);
        case Data(Body, bytes) => OnBody(bytes);
        case Data(Field, bytes) => OnHeaderField(bytes);
        case Data(Value, bytes) => OnHeaderValue(bytes);
        case HeadersComplete(major, minor) => OnHeadersComplete(major, minor);
        case MessageComplete => OnMessageComplete();
        case _ =>
      }
    }

    /** The callbacks of one call, in their order. */
    method DispatchAll(calls: seq<Event>)
      requires NamesFirst(req.headers != [], calls)
      modifies `req, `complete
      ensures req == HeardAll(old(req), calls) && complete == (old(complete) || MessageComplete in calls)
      ensures old(req.headers) != [] || SomeNamed(calls) ==> req.headers != []
    {
      hide Heard;
      var i := 0;
      while i < |calls|
        invariant i <= |calls|
        invariant req == HeardAll(old(req), calls[..i])
        invariant complete == (old(complete) || MessageComplete in calls[..i])
        invariant old(req.headers) != [] || SomeNamed(calls[..i]) ==> req.headers != []
      {
        var e := calls[i];
        assert calls[..i + 1] == calls[..i] + [e];
        ghost var r := req;
        if IsValued(e) {
          NamedBefore(old(req.headers) != [], calls, i);
        }
        Dispatch(e);
        HeardAppend(old(req), calls[..i], [e]);
        HeardOne(r, e);
        SomeNamedAppend(calls[..i], [e]);
        HeardKeepsHeaders(r, e);
        i := i + 1;
      }
      assert calls[..i] == calls;
    }

    /** `http_request_parser::parse`: `calls` are the callbacks that were made. */
    method Parse(data: string) returns (result: Verdict, ghost n: nat, ghost calls: seq<Event>)
      requires Valid() && |data| < UINT32_LIMIT - MAX_HEADER_SIZE
      modifies this, parser
      ensures Valid()
      ensures req == HeardAll(old(req), calls) && complete == (old(complete) || MessageComplete in calls)
      ensures result ==
        if parser.upgrade || n != |data| then Bad else if complete then Good else Indeterminate
      ensures old(parser.errno) == OK && data != "" ==>
        parser.Meets(old(parser.View()), old(parser.nread), data, n, calls)
      ensures old(parser.errno) == OK && data == "" ==>
        var r := CallEof(old(parser.View()), old(parser.nread));
        parser.View() == r.c.p && calls == r.events && n == r.used
      ensures old(parser.errno) != OK ==> n == 0 && calls == [] && parser.View() == old(parser.View())
    {
      hide HeardAll, ValuePending, Inv;
      var parsed, told := parser.Execute(data);
      n, calls := parsed, told;
      if old(parser.errno) == OK && data != "" {
        CallTellsInOrder(old(parser.View()), old(parser.nread), data, req.headers != [], calls);
      } else {
        EofTells(old(parser.View()), old(parser.nread));
      }
      DispatchAll(told);
      if parser.upgrade {
        return Bad, n, calls;
      }
      if parsed != |data| {
        return Bad, n, calls;
      }
      if complete {
        return Good, n, calls;
      } else {
        return Indeterminate, n, calls;
      }
    }

    /** `http_request_parser::move_req`: what is left behind is unspecified. */
    method MoveReq() returns (dest: Request)
      modifies `req
      ensures dest == old(req)
      ensures old(Valid()) && !ValuePending(parser.View()) ==> Valid()
    {
      dest := req;
      req := *;
    }
  }

  lemma HeardKeepsHeaders(r: Request, e: Event)
    ensures r.headers != [] || SomeNamed([e]) ==> Heard(r, e).headers != []
  {
  }
}
