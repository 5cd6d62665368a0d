/** Requests and replies as values, their printers, and the splitter of URIs. */
module Packets {
  import opened Chars
  import opened Segmentation
  import opened Lengths
  import opened Lines
  import opened Headers
  import opened HttpParsers

  /** A number as a stream prints it. */
  function SignedText(n: int): string {
    if n < 0 then "-" + Text(-n) else Text(n)
  }

  /** It is the decimal of the number, behind a minus sign if the number is negative. */
  lemma SignedIsDecimal(n: int)
    ensures
      var s := SignedText(n);
      var digits := if n < 0 then s[1..] else s;
      && (n < 0 ==> s != "" && s[0] == '-') && (n > 0 ==> s[0] != '0') && (n == 0 ==> s == "0")
      && IsLengthText(digits) && ' ' !in digits && Decimal(0, digits) == if n < 0 then -n else n
  {
    TextIsDecimal(if n < 0 then -n else n);
    NoSpaces(Text(if n < 0 then -n else n));
    if n < 0 {
      assert ("-" + Text(-n))[1..] == Text(-n);
    }
  }

  /** What both printers write behind the other headers. */
  function LengthAndBody(body: string): string {
    Print(Header("Content-Length", Text(|body|))) + "\r\n" + body
  }

  lemma {:induction false} PrintAllAppend(a: seq<Header>, b: seq<Header>)
    ensures PrintAll(a + b) == PrintAll(a) + PrintAll(b)
    decreases |a|
  {
    if a == [] {
      assert a + b == b;
    } else {
      assert (a + b)[1..] == a[1..] + b;
      PrintAllAppend(a[1..], b);
    }
  }

  lemma PrintNone()
    ensures PrintAll([]) == ""
  {
  }

  lemma PrintIs(h: Header)
    ensures Print(h) == h.name + ": " + h.value + "\r\n"
  {
  }

  lemma LengthAndBodyIs(body: string)
    ensures LengthAndBody(body) == "Content-Length: " + Text(|body|) + "\r\n\r\n" + body
  {
    hide Text;
    LengthLine(Text(|body|));
    LinesEnd("Content-Length: " + Text(|body|));
  }

  lemma LengthLine(v: string)
    ensures Print(Header("Content-Length", v)) == "Content-Length: " + v + "\r\n"
  {
  }

  lemma LinesEnd(line: string)
    ensures line + "\r\n" + "\r\n" == line + "\r\n\r\n"
  {
  }

  lemma PrintAllTo(headers: seq<Header>, i: nat)
    requires i < |headers|
    ensures PrintAll(headers[..i + 1]) == PrintAll(headers[..i]) + Print(headers[i])
  {
    assert headers[..i + 1] == headers[..i] + [headers[i]];
    PrintAllAppend(headers[..i], [headers[i]]);
    assert [headers[i]][1..] == [];
    assert PrintAll([headers[i]]) == Print(headers[i]);
  }

  datatype Request = Request(
    verb: string, uri: string, major: int, minor: int, headers: seq<Header>, body: string)
  {
    /** The headers of a printed request: two before its own, and two behind. */
    function Sent(host: string): seq<Header> {
      [Header("Host", host), Header("Accept", "*/*")] + headers
    }

    function Line(): string {
      verb + " " + uri + " HTTP/" + SignedText(major) + "." + SignedText(minor) + "\r\n"
    }

    /** All of the printed request. */
    function Printed(host: string): string {
      Line() + PrintAll(Sent(host)) + Print(Header("Connection", "close")) + LengthAndBody(body)
    }

    /** `request::to_string`; the port is not printed. */
    method ToString(host: string, port: string) returns (text: string)
      ensures text == Printed(host)
    {
      hide Text, SignedText, PrintAll, Print, LengthAndBody, Line;
      text := verb + " " + uri + " HTTP/" + SignedText(major) + "." + SignedText(minor) + "\r\n";
      LineIs(text);
      text := text + ("Host: " + host + "\r\n");
      text := text + "Accept: */*\r\n";
      ghost var start := text;
      var i := 0;
      PrintNone();
      while i < |headers|
        invariant i <= |headers|
        invariant text == start + PrintAll(headers[..i])
      {
        var h := headers[i];
        PrintAllTo(headers, i);
        text := text + (h.name + ": " + h.value + "\r\n");
        PrintIs(h);
        i := i + 1;
      }
      assert headers[..i] == headers;
      SentIsPrinted(host);
      assert text == Line() + PrintAll(Sent(host));
      text := text + "Connection: close\r\n";
      PrintIs(Header("Connection", "close"));
      ghost var head := text;
      text := text + ("Content-Length: " + Text(|body|) + "\r\n\r\n");
      text := text + body;
      LengthAndBodyIs(body);
      assert text == head + LengthAndBody(body);
    }

    lemma LineIs(text: string)
      requires text == verb + " " + uri + " HTTP/" + SignedText(major) + "." + SignedText(minor) + "\r\n"
      ensures text == Line()
    {
    }

    lemma SentIsPrinted(host: string)
      ensures PrintAll(Sent(host)) == ("Host: " + host + "\r\n") + "Accept: */*\r\n" + PrintAll(headers)
    {
      var a, b := Header("Host", host), Header("Accept", "*/*");
      assert Sent(host)[1..] == [b] + headers && ([b] + headers)[1..] == headers;
      assert Print(a) == "Host: " + host + "\r\n" && Print(b) == "Accept: */*\r\n";
      assert PrintAll(Sent(host)) == Print(a) + (Print(b) + PrintAll(headers));
    }
  }

  /** The replies that `status_strings::to_string` knows. */
  predicate IsListed(status: nat) {
    || status == 200 || status == 201 || status == 202 || status == 204
    || status == 300 || status == 301 || status == 302 || status == 304
    || status == 400 || status == 401 || status == 403 || status == 404
    || status == 500 || status == 501 || status == 502 || status == 503
  }

  /** What stands behind the code in the `status_strings`. */
  function Reason(status: nat): string {
    match status
    case 200 => "OK"
    case 201 => "Created"
    case 202 => "Accepted"
    case 204 => "No Content"
    case 300 => "Multiple Choices"
    case 301 => "Moved Permanently"
    case 302 => "Moved Temporarily"
    case 304 => "Not Modified"
    case 400 => "Bad Request"
    case 401 => "Unauthorized"
    case 403 => "Forbidden"
    case 404 => "Not Found"
    case 500 => "Internal Server Error"
    case 501 => "Not Implemented"
    case 502 => "Bad Gateway"
    case 503 => "Service Unavailable"
    case _ => "Internal Server Error"
  }

  /** The status that is printed for a code. */
  function PrintedStatus(status: nat): nat {
    if IsListed(status) then status else 500
  }

  /** `status_strings::to_string`: any code that is not listed gives the line of 500. */
  function StatusLine(status: nat): string {
    var code := PrintedStatus(status);
    "HTTP/1.0 " + Text(code) + " " + Reason(code) + "\r\n"
  }

  /** A status line as it is printed, whatever the version of the request. */
  predicate IsStatusLine(line: string, code: string, reason: string) {
    line == "HTTP/1.0 " + code + " " + reason + "\r\n"
  }

  /** The lines of success. */
  lemma SuccessLinesAre()
    ensures IsStatusLine(StatusLine(200), "200", "OK")
    ensures IsStatusLine(StatusLine(201), "201", "Created")
    ensures IsStatusLine(StatusLine(202), "202", "Accepted")
    ensures IsStatusLine(StatusLine(204), "204", "No Content")
  {
    ThreeDigits(2, 0, 0);
    ThreeDigits(2, 0, 1);
    ThreeDigits(2, 0, 2);
    ThreeDigits(2, 0, 4);
    hide Text;
  }

  lemma MovedLinesAre()
    ensures IsStatusLine(StatusLine(300), "300", "Multiple Choices")
    ensures IsStatusLine(StatusLine(301), "301", "Moved Permanently")
    ensures IsStatusLine(StatusLine(302), "302", "Moved Temporarily")
    ensures IsStatusLine(StatusLine(304), "304", "Not Modified")
  {
    ThreeDigits(3, 0, 0);
    ThreeDigits(3, 0, 1);
    ThreeDigits(3, 0, 2);
    ThreeDigits(3, 0, 4);
    hide Text;
  }

  lemma ClientLinesAre()
    ensures IsStatusLine(StatusLine(400), "400", "Bad Request")
    ensures IsStatusLine(StatusLine(401), "401", "Unauthorized")
    ensures IsStatusLine(StatusLine(403), "403", "Forbidden")
    ensures IsStatusLine(StatusLine(404), "404", "Not Found")
  {
    ThreeDigits(4, 0, 0);
    ThreeDigits(4, 0, 1);
    ThreeDigits(4, 0, 3);
    ThreeDigits(4, 0, 4);
    hide Text;
  }

  lemma ServerLinesAre()
    ensures IsStatusLine(StatusLine(501), "501", "Not Implemented")
    ensures IsStatusLine(StatusLine(502), "502", "Bad Gateway")
    ensures IsStatusLine(StatusLine(503), "503", "Service Unavailable")
  {
    ThreeDigits(5, 0, 1);
    ThreeDigits(5, 0, 2);
    ThreeDigits(5, 0, 3);
    hide Text;
  }

  /** Every code that is not one of these gives the line of 500. */
  lemma OtherLinesAre(status: nat)
    requires status !in [200, 201, 202, 204, 300, 301, 302, 304, 400, 401, 403, 404, 501, 502, 503]
    ensures IsStatusLine(StatusLine(status), "500", "Internal Server Error")
  {
    ThreeDigits(5, 0, 0);
    hide Text;
  }

  lemma ThreeDigits(a: nat, b: nat, c: nat)
    requires 0 < a < 10 && b < 10 && c < 10
    ensures Text(a * 100 + b * 10 + c) == [('0' as int + a) as char, ('0' as int + b) as char, ('0' as int + c) as char]
  {
    var n := a * 100 + b * 10 + c;
    assert n / 10 == a * 10 + b && n % 10 == c && (n / 10) / 10 == a && (n / 10) % 10 == b;
    assert Text(a) == [('0' as int + a) as char];
    assert Text(n / 10) == Text(a) + [('0' as int + b) as char];
    assert Text(n) == Text(n / 10) + [('0' as int + c) as char];
  }

  lemma {:induction false} ConcatMore(a: seq<string>, b: seq<string>)
    ensures Concat(a + b) == Concat(a) + Concat(b)
    decreases |a|
  {
    if a == [] {
      assert a + b == b;
    } else {
      assert (a + b)[1..] == a[1..] + b;
      ConcatMore(a[1..], b);
    }
  }

  lemma ConcatOne(a: seq<string>, s: string)
    ensures Concat(a + [s]) == Concat(a) + s
  {
    ConcatMore(a, [s]);
    assert [s][1..] == [];
  }

  datatype Reply = Reply(status: nat, headers: seq<Header>, content: string)
  {
    /** All of the printed reply. */
    function Printed(): string {
      StatusLine(status) + PrintAll(headers) + LengthAndBody(content)
    }

    /** `reply::to_string`: the parts are listed first, and then joined. */
    method ToString() returns (text: string)
      ensures text == Printed()
    {
      hide StatusLine, Text, PrintAll, Print, LengthAndBody, Concat, Push;
      var buffers := [StatusLine(status)];
      ConcatSingle(StatusLine(status));
      PrintNone();
      var i := 0;
      while i < |headers|
        invariant i <= |headers|
        invariant Concat(buffers) == StatusLine(status) + PrintAll(headers[..i])
      {
        PrintAllTo(headers, i);
        buffers := PushLine(buffers, headers[i].name, headers[i].value);
        i := i + 1;
      }
      assert headers[..i] == headers;
      ghost var head := Concat(buffers);
      buffers := PushLine(buffers, "Content-Length", Text(|content|));
      buffers := Push(Push(buffers, "\r\n"), content);
      PrintIs(Header("Content-Length", Text(|content|)));
      LengthAndBodyIs(content);
      assert Concat(buffers) == head + LengthAndBody(content);
      text := JoinTexts(buffers);
    }

    /** `reply::add_header`. */
    function AddHeader(name: string, value: string): (r: Reply)
      ensures r.Printed() == StatusLine(status) + PrintAll(headers) + Print(Header(name, value)) + LengthAndBody(content)
    {
      PrintAllTo(headers + [Header(name, value)], |headers|);
      assert (headers + [Header(name, value)])[..|headers|] == headers;
      assert (headers + [Header(name, value)])[..|headers| + 1] == headers + [Header(name, value)];
      this.(headers := headers + [Header(name, value)])
    }
  }

  /** `reply::stock_reply`, with its page as a parameter: the length is among the headers already. */
  function StockReply(status: nat, page: string): Reply {
    Reply(status, [Header("Content-Length", Text(|page|)), Header("Content-Type", "text/html")], page)
  }

  /** `push_back` on a list of texts. */
  function Push(buffers: seq<string>, s: string): (r: seq<string>)
    ensures Concat(r) == Concat(buffers) + s
  {
    ConcatOne(buffers, s);
    buffers + [s]
  }

  /** The four parts of a line. */
  function PushLine(buffers: seq<string>, name: string, value: string): (r: seq<string>)
    ensures Concat(r) == Concat(buffers) + Print(Header(name, value))
  {
    hide Concat, Push;
    assert Concat(buffers) + Print(Header(name, value)) == Concat(buffers) + name + ": " + value + "\r\n";
    Push(Push(Push(Push(buffers, name), ": "), value), "\r\n")
  }

  lemma ConcatSingle(s: string)
    ensures Concat([s]) == s
  {
    assert [s][1..] == [];
  }

  /** All the texts of a list, one after the other. */
  method JoinTexts(buffers: seq<string>) returns (text: string)
    ensures text == Concat(buffers)
  {
    text := "";
    var i := 0;
    while i < |buffers|
      invariant i <= |buffers|
      invariant text == Concat(buffers[..i])
    {
      assert buffers[..i + 1] == buffers[..i] + [buffers[i]];
      ConcatOne(buffers[..i], buffers[i]);
      text := text + buffers[i];
      i := i + 1;
    }
    assert buffers[..i] == buffers;
  }

  // ---- URIs ----

  datatype Uri = Uri(host: string, port: string, path: string)

  const HTTP_PREFIX := "http://"
  const HTTPS_PREFIX := "https://"

  /** What is behind the prefix of a URI. */
  function Unprefixed(full: string): string {
    if HTTP_PREFIX <= full then full[|HTTP_PREFIX|..]
    else if HTTPS_PREFIX <= full then full[|HTTPS_PREFIX|..]
    else full
  }

  function DefaultPort(full: string): string {
    if HTTPS_PREFIX <= full then "443" else "80"
  }

  /** `rest` is the host, perhaps a colon and the port, and from the first slash on the path. */
  predicate IsSplit(rest: string, port: string, u: Uri) {
    var tail := if '/' in rest then u.path else "";
    && "/" <= u.path && ('/' !in rest ==> u.path == "/")
    && ':' !in u.host && '/' !in u.host && '/' !in u.port
    && (rest == u.host + ":" + u.port + tail || (rest == u.host + tail && u.port == port))
  }

  /** `parse_uri`. */
  method ParseUri(full: string) returns (u: Uri)
    ensures IsSplit(Unprefixed(full), DefaultPort(full), u)
  {
    var view, https := full, false;
    if HTTP_PREFIX <= full {
      view := full[|HTTP_PREFIX|..];
    } else if HTTPS_PREFIX <= full {
      view, https := full[|HTTPS_PREFIX|..], true;
    }
    PrefixesDiffer(full);
    ghost var rest := view;
    assert rest == Unprefixed(full) && https == (HTTPS_PREFIX <= full);
    hide Unprefixed, DefaultPort, IsSplit;
    var path, port, host := "/", if https then "443" else "80", "";
    var slash := Memchr(view, 0, '/', |view|);
    if slash != -1 {
      path := view[slash..];
      view := view[..slash];
    }
    PathSplits(rest, slash, view, path);
    var colon := Memchr(view, 0, ':', |view|);
    if colon == -1 {
      host := view;
    } else {
      port := view[colon + 1..];
      host := view[..colon];
    }
    u := Uri(host, port, path);
    AuthoritySplits(rest, if https then "443" else "80", view, path, colon, u);
    DefaultPortIs(full);
  }

  lemma DefaultPortIs(full: string)
    ensures DefaultPort(full) == if HTTPS_PREFIX <= full then "443" else "80"
  {
  }

  /** What is in front of the path. */
  predicate IsBeforePath(rest: string, view: string, path: string) {
    && '/' !in view && "/" <= path
    && (if '/' in rest then rest == view + path else rest == view && path == "/")
  }

  lemma PathSplits(rest: string, slash: int, view: string, path: string)
    requires slash == -1 ==> '/' !in rest[0..0 + |rest|] && view == rest && path == "/"
    requires slash != -1 ==>
      && 0 <= slash < |rest| && rest[slash] == '/' && '/' !in rest[0..slash]
      && view == rest[..slash] && path == rest[slash..]
    ensures IsBeforePath(rest, view, path)
  {
    assert rest[0..0 + |rest|] == rest;
    if slash != -1 {
      assert rest[0..slash] == rest[..slash];
      assert rest == view + path;
    }
  }

  lemma AuthoritySplits(rest: string, port: string, view: string, path: string, colon: int, u: Uri)
    requires IsBeforePath(rest, view, path) && u.path == path
    requires colon == -1 ==> ':' !in view[0..0 + |view|] && u.host == view && u.port == port && '/' !in port
    requires colon != -1 ==>
      && 0 <= colon < |view| && view[colon] == ':' && ':' !in view[0..colon]
      && u.host == view[..colon] && u.port == view[colon + 1..]
    ensures IsSplit(rest, port, u)
  {
    assert view[0..0 + |view|] == view && view + "" == view;
    if colon != -1 {
      assert view[0..colon] == view[..colon];
      assert view == u.host + ":" + u.port;
      assert '/' !in u.host && '/' !in u.port;
    }
  }

  lemma PrefixesDiffer(full: string)
    ensures !(HTTP_PREFIX <= full && HTTPS_PREFIX <= full)
  {
    PrefixAt(HTTP_PREFIX, full, 4);
    PrefixAt(HTTPS_PREFIX, full, 4);
  }

  lemma PrefixAt(prefix: string, s: string, i: nat)
    requires i < |prefix|
    ensures prefix <= s ==> i < |s| && s[i] == prefix[i]
  {
  }

  lemma FirstIsNotLater(a: string, x: string, b: string, y: string, ch: char)
    requires ch !in b && a + [ch] + x == b + [ch] + y
    ensures |b| <= |a|
  {
    assert (a + [ch] + x)[|a|] == ch;
    InFront(b, y, ch, |a|);
  }

  lemma InFront(b: string, y: string, ch: char, i: nat)
    ensures i < |b| ==> (b + [ch] + y)[i] in b
  {
  }

  /** Where the first `ch` is tells two texts with one rest apart. */
  lemma FirstIsUnique(a: string, x: string, b: string, y: string, ch: char)
    requires ch !in a && ch !in b && a + [ch] + x == b + [ch] + y
    ensures a == b && x == y
  {
    FirstIsNotLater(a, x, b, y, ch);
    FirstIsNotLater(b, y, a, x, ch);
    assert a == (a + [ch] + x)[..|a|] == (b + [ch] + y)[..|a|] == b;
    assert x == (a + [ch] + x)[|a| + 1..] == (b + [ch] + y)[|a| + 1..] == y;
  }

  /** The authority of a split, and what there is of it. */
  lemma AuthorityOf(rest: string, port: string, u: Uri) returns (a: string)
    requires IsSplit(rest, port, u)
    ensures IsBeforePath(rest, a, u.path)
    ensures if ':' in a then a == u.host + [':'] + u.port else a == u.host && u.port == port
  {
    var tail := if '/' in rest then u.path else "";
    var full := u.host + [':'] + u.port;
    assert full[|u.host|] == ':' && '/' !in full;
    a := if rest == full + tail then full else u.host;
    assert a + "" == a;
  }

  /** There is one way to split a URI. */
  lemma SplitIsUnique(rest: string, port: string, u: Uri, v: Uri)
    requires IsSplit(rest, port, u) && IsSplit(rest, port, v)
    ensures u == v
  {
    var a := AuthorityOf(rest, port, u);
    var b := AuthorityOf(rest, port, v);
    if '/' in rest {
      assert rest == a + ['/'] + u.path[1..] == b + ['/'] + v.path[1..];
      FirstIsUnique(a, u.path[1..], b, v.path[1..], '/');
      assert u.path == "/" + u.path[1..] && v.path == "/" + v.path[1..];
    }
    if ':' in a {
      FirstIsUnique(u.host, u.port, v.host, v.port, ':');
    }
  }

  lemma HasNoPrefix(host: string, rest: string)
    requires ':' !in host && '/' !in host
    requires rest == "" || rest[0] == '/' || (rest[0] == ':' && |rest| > 1 && rest[1] != '/')
    ensures !("http://" <= host + rest) && !("https://" <= host + rest)
  {
    ColonAt("http://", 4, host, rest);
    ColonAt("https://", 5, host, rest);
  }

  /** A prefix with its first colon at `i` would end the host there, and go on behind it. */
  lemma ColonAt(prefix: string, i: nat, host: string, rest: string)
    requires i + 1 < |prefix| && prefix[i] == ':' && prefix[i + 1] == '/'
    requires forall k | 0 <= k < i :: prefix[k] != ':' && prefix[k] != '/'
    requires ':' !in host && '/' !in host
    requires rest == "" || rest[0] == '/' || (rest[0] == ':' && |rest| > 1 && rest[1] != '/')
    ensures !(prefix <= host + rest)
  {
    var full := host + rest;
    PrefixAt(prefix, full, i);
    PrefixAt(prefix, full, i + 1);
    if |host| > i {
      assert full[i] == host[i] && host[i] in host;
    } else {
      PrefixAt(prefix, full, |host|);
      if rest != "" {
        assert full[|host|] == rest[0];
        assert |rest| > 1 ==> full[|host| + 1] == rest[1];
      }
    }
  }

  /**
    What `parse_uri` makes of a host, perhaps with a port and a path, behind "http://", "https://" or
    nothing: there is one split, and it has the port 80, or 443 behind "https://", where none is given.
   */
  lemma UrisAreSplit(scheme: string, host: string, port: string, path: string, u: Uri)
    requires scheme == "http://" || scheme == "https://" || scheme == ""
    requires ':' !in host && '/' !in host && '/' !in port && (path == "" || path[0] == '/')
    ensures
      var full := scheme + host + (if port == "" then "" else ":" + port) + path;
      IsSplit(Unprefixed(full), DefaultPort(full), u) <==>
        u == Uri(host,
                 if port != "" then port else if scheme == "https://" then "443" else "80",
                 if path == "" then "/" else path)
  {
    var rest := (if port == "" then "" else ":" + port) + path;
    var full := scheme + host + (if port == "" then "" else ":" + port) + path;
    assert full == scheme + (host + rest);
    SchemeIsCut(scheme, host, rest, full);
    var p := if scheme == "https://" then "443" else "80";
    var v := Uri(host, if port != "" then port else p, if path == "" then "/" else path);
    hide Unprefixed, DefaultPort;
    assert IsSplit(host + rest, p, v) by { PartsAreSplit(host, port, path, p, rest); }
    if IsSplit(host + rest, p, u) {
      SplitIsUnique(host + rest, p, u, v);
    }
  }

  lemma SchemeIsCut(scheme: string, host: string, rest: string, full: string)
    requires scheme == "http://" || scheme == "https://" || scheme == ""
    requires ':' !in host && '/' !in host && full == scheme + (host + rest)
    requires rest == "" || rest[0] == '/' || (rest[0] == ':' && |rest| > 1 && rest[1] != '/')
    ensures Unprefixed(full) == host + rest
    ensures DefaultPort(full) == if scheme == "https://" then "443" else "80"
  {
    PrefixesDiffer(full);
    if scheme == "" {
      HasNoPrefix(host, rest);
      assert full == host + rest;
    } else {
      assert full[..|scheme|] == scheme && full[|scheme|..] == host + rest;
    }
  }

  lemma PartsAreSplit(host: string, port: string, path: string, p: string, rest: string)
    requires ':' !in host && '/' !in host && '/' !in port && (path == "" || path[0] == '/')
    requires rest == (if port == "" then "" else ":" + port) + path && '/' !in p
    ensures IsSplit(host + rest, p, Uri(host, if port != "" then port else p, if path == "" then "/" else path))
  {
    var all := host + rest;
    if path == "" {
      assert '/' !in all;
      assert all == if port == "" then host + "" else host + ":" + port + "";
    } else {
      assert all[|all| - |path|] == '/';
      assert all == if port == "" then host + path else host + ":" + port + path;
    }
  }
}
