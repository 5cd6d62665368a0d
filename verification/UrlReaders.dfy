/** The three readers of URLs: the request line, `http_parser_parse_url` and `parse_uri`. */
module UrlReaders {
  import opened Chars
  import opened ParserTypes
  import opened Transitions
  import opened Machine
  import opened Runs
  import opened Lines
  import opened Packets
  import opened Urls
  import opened Authorities

  /** A URL that can be split may stand in a request line. */
  lemma SplittableIsUrl(buf: string, after: string)
    requires buf != "" && SplitUrl(false, buf, after).IsUrlOut?
    ensures IsUrl(buf)
  {
    hide ScanTo;
    ScanRuns(false, buf, |buf|);
    assert buf[|buf|..] == "";
    ScanIsScanned(false, buf, |buf|);
  }

  /** And there it is taken, and handed over whole. */
  lemma SplittableIsRead(c: Core, buf: string, after: string)
    requires buf != "" && SplitUrl(false, buf, after).IsUrlOut?
    requires Going(c) && c.p.state == Line(ReqSpacesBeforeUrl) && c.p.verb != CONNECT && c.slice.Closed?
    ensures ReadsHead(c, buf + " ", c.p.(state := Line(ReqHttpStart)), Closed, [Data(Url, buf)])
  {
    hide SplitUrl, Run, IsUrlFrom;
    SplittableIsUrl(buf, after);
    UrlIsRead(c, buf);
  }

  lemma ScanNext(buf: string, p: nat, k: Scan)
    requires p < |buf| && ScanTo(false, buf, p) == k
    ensures ScanTo(false, buf, p + 1) == ScanStep(k, buf[p], p)
  {
  }

  lemma ScanStarts(buf: string)
    ensures ScanTo(false, buf, 0) == StartScan(false)
  {
  }

  const NO_HOST := "a://:"

  lemma ScanOfNoHost()
    ensures ScanTo(false, NO_HOST, 5)
      == Scan(Server, map[SchemaField := Span(0, 1), HostField := Span(4, 1)], InField(HostField), false)
  {
    hide ScanTo;
    var s: Fields := map[SchemaField := Span(0, 1)];
    ScanStarts(NO_HOST);
    ScanNext(NO_HOST, 0, StartScan(false));
    ScanNext(NO_HOST, 1, Scan(Schema, s, InField(SchemaField), false));
    ScanNext(NO_HOST, 2, Scan(SchemaSlash, s, InField(SchemaField), false));
    ScanNext(NO_HOST, 3, Scan(SchemaSlashSlash, s, InField(SchemaField), false));
    ScanNext(NO_HOST, 4, Scan(ServerStart, s, InField(SchemaField), false));
  }

  /** The converse fails: the request line does not look at the parts of an authority. */
  lemma NotAllUrlsSplit()
    ensures IsUrl(NO_HOST) && SplitUrl(false, NO_HOST, "").NoUrl?
  {
    hide ScanTo;
    ScanRuns(false, NO_HOST, 5);
    assert NO_HOST[5..] == "";
    ScanOfNoHost();
    var m: Fields := map[SchemaField := Span(0, 1), HostField := Span(4, 1)];
    assert HostTo(NO_HOST, false, m, 4) == StartHost(false, m);
    assert HostTo(NO_HOST, false, m, 5).s == HostDead;
  }

  // ---- Exactly which URLs can be split ----

  /** What is behind the colon and the two slashes of a schema. */
  function BehindSchema(buf: string): string {
    if buf == "" then ""
    else if buf[0] == ':' then if |buf| >= 3 then buf[3..] else ""
    else BehindSchema(buf[1..])
  }

  /** The text up to the first slash or question mark. */
  function Authority(w: string): (a: string)
    ensures |a| <= |w| && w[..|a|] == a
  {
    if w == "" || w[0] == '/' || w[0] == '?' then "" else [w[0]] + Authority(w[1..])
  }

  predicate HasNoSchema(buf: string) {
    buf != "" && (buf[0] == '/' || buf[0] == '*')
  }

  predicate Alphas(buf: string, n: nat) {
    n <= |buf| && forall i | 0 <= i < n :: IsAlpha(buf[i])
  }

  /** The bytes of an authority, and whether one is an '@'. */
  predicate IsAuthoritySpan(buf: string, lo: nat, hi: nat, at: bool) {
    && lo <= hi <= |buf|
    && (forall i | lo <= i < hi :: buf[i] != '/' && buf[i] != '?')
    && (at <==> exists i | lo <= i < hi :: buf[i] == '@')
  }

  predicate EndsAuthority(buf: string, i: nat) {
    i < |buf| && (buf[i] == '/' || buf[i] == '?')
  }

  /** Behind the authority: where it was, or that there was none. */
  predicate AuthorityIsOver(buf: string, k: Scan) {
    var m := k.fields;
    if SchemaField in m then
      && Alphas(buf, m[SchemaField].len) && IsAuthoritySpan(buf, SchemaEnd(m), AuthorityEnd(m), k.at)
      && EndsAuthority(buf, AuthorityEnd(m))
    else HostField !in m && HasNoSchema(buf)
  }

  /** What the first pass knows of the texts, without CONNECT. */
  predicate Passed(buf: string, p: nat, k: Scan)
    requires p <= |buf|
  {
    var m := k.fields;
    match k.s
    case UrlDead => true
    case BeforeUrl => !k.at
    case Schema => Alphas(buf, p) && !k.at
    case SchemaSlash => p > 0 && Alphas(buf, p - 1) && !k.at
    case SchemaSlashSlash => p > 1 && Alphas(buf, p - 2) && !k.at
    case ServerStart => SchemaField in m && Alphas(buf, m[SchemaField].len) && !k.at
    case Server => SchemaField in m && Alphas(buf, m[SchemaField].len) && IsAuthoritySpan(buf, SchemaEnd(m), p, k.at)
    case ServerWithAt =>
      SchemaField in m && Alphas(buf, m[SchemaField].len) && IsAuthoritySpan(buf, SchemaEnd(m), p, k.at)
    case _ => AuthorityIsOver(buf, k)
  }

  lemma SpanGrows(buf: string, lo: nat, p: nat, at: bool)
    requires IsAuthoritySpan(buf, lo, p, at) && p < |buf| && buf[p] != '/' && buf[p] != '?'
    ensures IsAuthoritySpan(buf, lo, p + 1, at || buf[p] == '@')
  {
    if at {
      var i :| lo <= i < p && buf[i] == '@';
      assert lo <= i < p + 1 && buf[i] == '@';
    } else if buf[p] == '@' {
      assert lo <= p < p + 1 && buf[p] == '@';
    }
  }

  lemma SpanBegins(buf: string, lo: nat)
    requires lo <= |buf|
    ensures IsAuthoritySpan(buf, lo, lo, false)
  {
  }

  lemma SchemaPasses(buf: string, p: nat, k: Scan)
    requires p < |buf| && IsScanned(false, buf, p, k) && Passed(buf, p, k)
    requires k.s.BeforeUrl? || k.s.Schema? || k.s.SchemaSlash? || k.s.SchemaSlashSlash?
    ensures Passed(buf, p + 1, ScanStep(k, buf[p], p))
  {
    hide IsAlpha, IsAuthoritySpan, EndsAuthority;
    LettersAreNoSlash(buf[p]);
  }

  lemma LettersAreNoSlash(ch: char)
    ensures IsAlpha(ch) ==> ch != '/' && ch != '*' && ch != ':'
    ensures IsUserinfoChar(ch) || ch == '[' || ch == ']' ==> ch != '/' && ch != '?' && ch != '@'
  {
  }

  lemma AuthorityPasses(buf: string, p: nat, k: Scan)
    requires p < |buf| && IsScanned(false, buf, p, k) && Passed(buf, p, k)
    requires k.s.ServerStart? || k.s.Server? || k.s.ServerWithAt?
    ensures Passed(buf, p + 1, ScanStep(k, buf[p], p))
  {
    hide IsUserinfoChar, IsAlpha, IsAuthoritySpan, Alphas, SchemaOk;
    LettersAreNoSlash(buf[p]);
    var m := k.fields;
    SpanBegins(buf, SchemaEnd(m));
    if buf[p] != '/' && buf[p] != '?' {
      if k.s.ServerStart? {
        SpanGrows(buf, SchemaEnd(m), p, false);
      } else {
        SpanGrows(buf, SchemaEnd(m), p, k.at);
      }
    }
  }

  lemma RestPasses(buf: string, p: nat, k: Scan)
    requires p < |buf| && IsScanned(false, buf, p, k) && Passed(buf, p, k)
    requires k.s.Path? || k.s.QueryStringStart? || k.s.QueryString? || k.s.FragmentStart? || k.s.Fragment?
    ensures Passed(buf, p + 1, ScanStep(k, buf[p], p))
  {
    hide IsUrlChar, IsScanned, IsAuthoritySpan, Alphas, EndsAuthority;
  }

  lemma {:induction false} ScanPasses(buf: string, p: nat)
    requires p <= |buf|
    ensures Passed(buf, p, ScanTo(false, buf, p))
  {
    hide Passed, ScanStep;
    if p == 0 {
      StartPasses(buf);
    } else {
      ScanPasses(buf, p - 1);
      ScanIsScanned(false, buf, p - 1);
      var k := ScanTo(false, buf, p - 1);
      match k.s
      case UrlDead => DeadPasses(buf, p - 1, k);
      case BeforeUrl => SchemaPasses(buf, p - 1, k);
      case Schema => SchemaPasses(buf, p - 1, k);
      case SchemaSlash => SchemaPasses(buf, p - 1, k);
      case SchemaSlashSlash => SchemaPasses(buf, p - 1, k);
      case ServerStart => AuthorityPasses(buf, p - 1, k);
      case Server => AuthorityPasses(buf, p - 1, k);
      case ServerWithAt => AuthorityPasses(buf, p - 1, k);
      case _ => RestPasses(buf, p - 1, k);
    }
  }

  lemma StartPasses(buf: string)
    ensures Passed(buf, 0, StartScan(false))
  {
  }

  lemma DeadPasses(buf: string, p: nat, k: Scan)
    requires p < |buf| && k.s.UrlDead?
    ensures Passed(buf, p + 1, ScanStep(k, buf[p], p))
  {
  }

  // The texts

  lemma {:induction false} BehindAlphas(buf: string, n: nat)
    requires Alphas(buf, n) && n + 3 <= |buf| && buf[n] == ':'
    ensures BehindSchema(buf) == buf[n + 3..]
    decreases n
  {
    if n > 0 {
      assert IsAlpha(buf[0]);
      assert forall i | 0 <= i < n - 1 :: buf[1..][i] == buf[i + 1];
      BehindAlphas(buf[1..], n - 1);
      assert buf[1..][n + 2..] == buf[n + 3..];
    }
  }

  lemma {:induction false} AuthorityIs(w: string, n: nat)
    requires n <= |w| && (forall i | 0 <= i < n :: w[i] != '/' && w[i] != '?')
    requires n < |w| ==> w[n] == '/' || w[n] == '?'
    ensures Authority(w) == w[..n]
    decreases n
  {
    if n > 0 {
      assert forall i | 0 <= i < n - 1 :: w[1..][i] == w[i + 1];
      AuthorityIs(w[1..], n - 1);
      assert w[..n] == [w[0]] + w[1..][..n - 1];
    }
  }

  /** The authority that the first pass finds is the one that can be seen. */
  lemma AuthorityIsFound(buf: string, k: Scan)
    requires k == ScanTo(false, buf, |buf|) && !UrlMustGoOn(k.s)
    ensures
      var m := k.fields;
      if SchemaField in m then
        var lo, hi := SchemaEnd(m), AuthorityEnd(m);
        && lo <= hi <= |buf| && BehindSchema(buf) == buf[lo..] && Authority(BehindSchema(buf)) == buf[lo..hi]
        && (k.at <==> '@' in buf[lo..hi]) && (HostField in m ==> m[HostField].off == lo) && !HasNoSchema(buf)
        && (HostField !in m ==> lo == hi)
      else HostField !in m && HasNoSchema(buf)
  {
    hide ScanTo;
    ScanIsScanned(false, buf, |buf|);
    ScanPasses(buf, |buf|);
    var m := k.fields;
    FoundSpans(buf, k);
    if SchemaField in m {
      var lo, hi := SchemaEnd(m), AuthorityEnd(m);
      hide IsScanned, Passed;
      BehindAlphas(buf, m[SchemaField].len);
      var w := buf[lo..];
      assert w[..hi - lo] == buf[lo..hi];
      AuthorityIs(w, hi - lo);
      AtIsIn(buf, lo, hi, k.at);
      assert IsAlpha(buf[0]);
      LettersAreNoSlash(buf[0]);
    }
  }

  lemma AtIsIn(buf: string, lo: nat, hi: nat, at: bool)
    requires IsAuthoritySpan(buf, lo, hi, at)
    ensures at <==> '@' in buf[lo..hi]
  {
    if at {
      var i :| lo <= i < hi && buf[i] == '@';
      assert buf[lo..hi][i - lo] == '@';
    }
    if '@' in buf[lo..hi] {
      var j :| 0 <= j < hi - lo && buf[lo..hi][j] == '@';
      assert lo <= lo + j < hi && buf[lo + j] == '@';
    }
  }

  lemma FoundSpans(buf: string, k: Scan)
    requires IsScanned(false, buf, |buf|, k) && Passed(buf, |buf|, k) && !UrlMustGoOn(k.s)
    ensures
      var m := k.fields;
      if SchemaField in m then
        var lo, hi := SchemaEnd(m), AuthorityEnd(m);
        && m[SchemaField].len > 0 && lo == m[SchemaField].len + 3 <= |buf| && buf[m[SchemaField].len] == ':'
        && Alphas(buf, m[SchemaField].len)
        && IsAuthoritySpan(buf, lo, hi, k.at) && (hi < |buf| ==> EndsAuthority(buf, hi))
        && (HostField in m ==> m[HostField].off == lo)
      else HostField !in m && HasNoSchema(buf)
  {
    hide IsAlpha, IsAuthoritySpan;
    AuthorityEndsBefore(buf, k);
  }

  lemma AuthorityEndsBefore(buf: string, k: Scan)
    requires IsScanned(false, buf, |buf|, k) && !UrlMustGoOn(k.s)
    ensures SchemaOk(buf, k.fields) && AuthorityOk(buf, k.fields)
    ensures k.s.Server? || k.s.ServerWithAt? ==> AuthorityEnd(k.fields) == |buf|
  {
    hide AreHashes;
  }

  // The port

  /** From `i` on there are digits. */
  predicate EndsInDigits(w: string, i: nat) {
    i <= |w| && forall t | i <= t < |w| :: IsNum(w[t])
  }

  lemma ColonIsBefore(w: string, i: nat, k: nat)
    requires EndsInDigits(w, i) && k < |w| && w[k] == ':'
    ensures k < i
  {
    ColonIsNoDigit();
  }

  /** The digits behind the last colon. */
  lemma OneColon(w: string, i: nat, j: nat)
    requires EndsInDigits(w, i) && EndsInDigits(w, j) && i > 0 && j > 0 && w[i - 1] == ':' && w[j - 1] == ':'
    ensures i == j
  {
    hide EndsInDigits;
    EndsWithin(w, i);
    EndsWithin(w, j);
    ColonIsBefore(w, i, j - 1);
    ColonIsBefore(w, j, i - 1);
  }

  lemma EndsWithin(w: string, i: nat)
    requires EndsInDigits(w, i)
    ensures i <= |w|
  {
  }

  lemma PortEndsInDigits(w: string, p: string)
    requires |p| <= |w| && w[|w| - |p|..] == p && IsPortText(p) && p != ""
    ensures
      var i := |w| - |p| + 1;
      0 < i <= |w| && EndsInDigits(w, i) && w[i - 1] == ':' && w[i..] == p[1..]
  {
    var i := |w| - |p| + 1;
    forall t | i <= t < |w|
      ensures IsNum(w[t])
    {
      assert w[t] == p[1..][t - i] && p[1..][t - i] in p[1..];
    }
    assert w[i - 1] == w[|w| - |p|..][0];
    assert w[i..] == w[|w| - |p|..][1..];
  }

  /** The digits at the end of an authority are the port that both see. */
  lemma SamePort(buf: string, m: Fields, lo: nat, hi: nat, x: Parts)
    requires lo <= hi <= |buf| && IsAuthority(buf, m, lo, hi) && PortField in m
    requires AreParts(buf[lo..hi], x.u, x.h, x.p) && x.p != ""
    ensures m[PortField].off <= hi && buf[m[PortField].off..hi] == x.p[1..]
  {
    hide IsHost, IsUserinfoText, IsHostText, IsNum, IsPortText;
    var off, w := m[PortField].off, buf[..hi];
    assert w[|w| - |x.p|..] == buf[lo..hi][|buf[lo..hi]| - |x.p|..] == x.p;
    PortEndsInDigits(w, x.p);
    assert EndsInDigits(w, off);
    OneColon(w, off, |w| - |x.p| + 1);
  }

  lemma ColonIsNoDigit()
    ensures !IsNum(':')
  {
  }

  /** The number of a port, which goes on to what stands behind it. */
  predicate IsSmallPort(p: string, rest: string) {
    p == "" || LeadingNumber(0, p[1..] + rest) < PORT_LIMIT
  }

  lemma PartsAreParts(a: string, x: Parts)
    requires a == x.u + x.h + x.p && IsUserinfoText(x.u) && IsHostText(x.h) && IsPortText(x.p)
    ensures AreParts(a, x.u, x.h, x.p)
  {
  }

  lemma StageSaysPort(s: HostState, at: bool, x: Parts)
    requires EndsHost(s) && IsStage(s, at, x.u, x.h, x.p)
    ensures s.HostPort? <==> x.p != ""
  {
    hide IsUserinfoText, IsHostText, IsPortText;
  }

  lemma HostedPort(buf: string, at: bool, m: Fields, p: nat, h: HostScan)
    requires HostField in m && m[HostField].off <= p <= |buf| && IsHosted(buf, at, m, p, h) && EndsHost(h.s)
    ensures h.s.HostPort? <==> PortField in h.fields
    ensures PortField in h.fields ==> m[HostField].off <= p && IsAuthority(buf, h.fields, m[HostField].off, p)
  {
    hide IsAuthority;
  }

  lemma SmallNumber(v: string)
    ensures Strtoul(v) < PORT_LIMIT <==> LeadingNumber(0, v) < PORT_LIMIT
  {
    hide LeadingNumber;
  }

  /** Where the authority is accepted, only its port can be refused. */
  lemma AcceptedSplits(buf: string, after: string, m: Fields, h: HostScan, lo: nat, hi: nat, x: Parts, at: bool)
    requires HostField in m && m[HostField].off == lo <= hi <= |buf| && PortField !in m
    requires IsHosted(buf, at, m, hi, h) && EndsHost(h.s)
    requires buf[lo..hi] == x.u + x.h + x.p && IsStage(h.s, at, x.u, x.h, x.p)
    ensures AreParts(buf[lo..hi], x.u, x.h, x.p)
    ensures WithPort(false, buf, after, h.fields).IsUrlOut? <==> IsSmallPort(x.p, buf[hi..] + after)
  {
    hide IsAuthority, AreParts, LeadingNumber, Strtoul;
    StageIsOver(h.s, at, x);
    PartsAreParts(buf[lo..hi], x);
    StageSaysPort(h.s, at, x);
    HostedPort(buf, at, m, hi, h);
    hide IsHosted, IsStage;
    if PortField in h.fields {
      SamePort(buf, h.fields, lo, hi, x);
      var off := h.fields[PortField].off;
      assert buf[off..] + after == x.p[1..] + (buf[hi..] + after) by {
        assert buf[off..] == buf[off..hi] + buf[hi..];
      }
      SmallNumber(buf[off..] + after);
    }
  }

  lemma HostHasNoAt(h: string, i: nat)
    requires IsHostText(h) && i < |h|
    ensures h[i] != '@'
  {
    hide IsHostChar, IsAddressText;
    AtIsNoUserinfo();
    if h != "" && AreHost(h) {
      assert h[i] in h;
    } else if 0 < i < |h| - 1 {
      var x := h[1..|h| - 1];
      assert x[i - 1] == h[i];
      NoAtInAddress(x, i - 1);
    }
  }

  lemma NumberIsNoAt()
    ensures !IsNum('@')
  {
  }

  lemma NoAtInside(h: string, p: string)
    ensures IsHostText(h) ==> '@' !in h
    ensures IsPortText(p) ==> '@' !in p
  {
    NumberIsNoAt();
    hide IsNum;
    if IsHostText(h) {
      forall i | 0 <= i < |h| ensures h[i] != '@' {
        HostHasNoAt(h, i);
      }
    }
    if IsPortText(p) && p != "" {
      assert p == [':'] + p[1..];
    }
  }

  lemma NoAtInAddress(x: string, i: nat)
    requires IsAddressText(x) && i < |x|
    ensures x[i] != '@'
  {
    AtIsNoUserinfo();
    hide IsV6Char, IsZoneChar;
    if x != "" && AreV6(x) {
      assert x[i] in x;
    } else {
      var j :| 0 <= j < |x| && IsZonedAt(x, j);
      if i < j {
        assert x[..j][i] in x[..j];
      } else if i > j {
        assert x[j + 1..][i - j - 1] in x[j + 1..];
      }
    }
  }

  /** There is a userinfo exactly if there is an '@'. */
  lemma AtOfParts(a: string, u: string, h: string, p: string)
    ensures AreParts(a, u, h, p) ==> ('@' in a <==> u != "")
  {
    hide IsHostText, IsPortText;
    NoAtInside(h, p);
    if AreParts(a, u, h, p) && u != "" {
      assert a[|u| - 1] == '@';
    }
  }

  /** An authority has one port, if it has any. */
  lemma PortsAreOne(a: string, x: Parts, y: Parts)
    requires AreParts(a, x.u, x.h, x.p) && AreParts(a, y.u, y.h, y.p)
    ensures x.p == y.p
  {
    AtOfParts(a, x.u, x.h, x.p);
    AtOfParts(a, y.u, y.h, y.p);
    PartsAreTaken(a, x.u, x.h, x.p);
    PartsAreTaken(a, y.u, y.h, y.p);
    hide IsUserinfoText, IsHostText, IsPortText, HostRun, ParseHostChar;
    if x.p != "" {
      assert a[|a| - |x.p|..] == x.p && a[|a| - |y.p|..] == y.p;
      PortEndsInDigits(a, x.p);
      PortEndsInDigits(a, y.p);
      OneColon(a, |a| - |x.p| + 1, |a| - |y.p| + 1);
    }
  }

  /** The second pass and the port, given the authority. */
  lemma AuthoritySplitsIf(buf: string, after: string, k: Scan)
    requires k == ScanTo(false, buf, |buf|) && !UrlMustGoOn(k.s) && SchemaField in k.fields && HostField in k.fields
    ensures
      var m := k.fields;
      var lo, hi := SchemaEnd(m), AuthorityEnd(m);
      && lo <= hi <= |buf|
      && (SplitUrl(false, buf, after).IsUrlOut? <==>
            exists u, h, p :: AreParts(buf[lo..hi], u, h, p) && IsSmallPort(p, buf[hi..] + after))
  {
    hide ScanTo, IsScanned, IsHosted, HostTo, AreParts, Strtoul, IsStage, WithPort, HostRun, IsSmallPort;
    var m := k.fields;
    ScanIsScanned(false, buf, |buf|);
    HostFits(false, buf, |buf|, k);
    AuthorityIsFound(buf, k);
    var lo, hi := SchemaEnd(m), AuthorityEnd(m);
    var a := buf[lo..hi];
    var h := SplitHost(buf, k.at, m);
    HostToRuns(buf, k.at, m, hi);
    HostIsHosted(buf, k.at, m, hi);
    AcceptsAuthorities(a, k.at);
    forall u, host, p ensures AreParts(a, u, host, p) ==> ('@' in a <==> u != "") {
      AtOfParts(a, u, host, p);
    }
    if EndsHost(h.s) {
      var x := PartsOf(k.at, a);
      EndIsAlive(h.s);
      AcceptedSplits(buf, after, m, h, lo, hi, x, k.at);
      forall u, host, p | AreParts(a, u, host, p)
        ensures p == x.p
      {
        PortsAreOne(a, Parts(u, host, p), x);
      }
    }
  }

  lemma EndIsAlive(s: HostState)
    ensures EndsHost(s) ==> !s.HostDead?
  {
  }

  /**
    Which URLs of a request line can be split: those without a schema, and those whose authority is a
    host, with a userinfo before it or not, and with a port behind it or not, that fits 16 bits.
    The digits of a port at the end of the buffer go on into the memory behind it.
   */
  lemma SplitsExactly(buf: string, after: string)
    requires buf != "" && IsUrl(buf)
    ensures
      var a := Authority(BehindSchema(buf));
      var rest := BehindSchema(buf)[|a|..];
      SplitUrl(false, buf, after).IsUrlOut? <==>
        HasNoSchema(buf) || exists u, h, p :: AreParts(a, u, h, p) && IsSmallPort(p, rest + after)
  {
    hide ScanTo, AreParts, IsSmallPort, IsHosted, IsScanned, UrlRun, HostTo, Authority, BehindSchema;
    var k := ScanTo(false, buf, |buf|);
    ScanRuns(false, buf, |buf|);
    assert UrlRun(k.s, buf[|buf|..]) == k.s by { UrlRunNothing(k.s, buf); }
    AuthorityIsFound(buf, k);
    var m := k.fields;
    if SchemaField !in m {
      ScanIsScanned(false, buf, |buf|);
      HostFits(false, buf, |buf|, k);
    } else {
      var lo, hi := SchemaEnd(m), AuthorityEnd(m);
      assert buf[lo..][hi - lo..] == buf[hi..];
      if HostField in m {
        AuthoritySplitsIf(buf, after, k);
      } else {
        assert buf[lo..hi] == "";
        forall u, h, p ensures !AreParts("", u, h, p) {
          NothingIsNoHost(u, h, p);
        }
      }
    }
  }

  lemma UrlRunNothing(s: UrlState, buf: string)
    ensures UrlRun(s, buf[|buf|..]) == s
  {
    assert buf[|buf|..] == "";
  }

  lemma NothingIsNoHost(u: string, h: string, p: string)
    ensures !AreParts("", u, h, p)
  {
    if u + h + p == "" {
      assert |h| == 0;
    }
  }

  // ---- parse_uri ----

  /** An "http" or "https" URL with a plain authority that ends at a slash, or at the end of all. */
  predicate IsWebUrl(buf: string, m: Fields, auth: nat) {
    && auth <= |buf| && SchemaEnd(m) <= auth
    && SchemaField in m && (FieldText(buf, m, SchemaField) == "http" || FieldText(buf, m, SchemaField) == "https")
    && '@' !in buf[SchemaEnd(m)..auth] && '[' !in buf[SchemaEnd(m)..auth]
    && (PathField in m || auth == |buf|)
  }

  /** What the splitter makes of such a URL, in the terms of `parse_uri`. */
  function WebUri(buf: string, m: Fields): Uri {
    Uri(FieldText(buf, m, HostField),
        if PortField in m then FieldText(buf, m, PortField) else DefaultPort(buf),
        if PathField in m && m[PathField].off <= |buf| then buf[m[PathField].off..] else "/")
  }

  lemma WebPrefix(buf: string, m: Fields, auth: nat)
    requires IsLaidOut(buf, m, auth) && IsWebUrl(buf, m, auth)
    ensures SchemaEnd(m) <= |buf| && Unprefixed(buf) == buf[SchemaEnd(m)..]
  {
    var len := m[SchemaField].len;
    var text := FieldText(buf, m, SchemaField);
    assert text == buf[..len];
    assert buf[..len + 3] == text + "://";
    PrefixesDiffer(buf);
    if text == "http" {
      assert text + "://" == HTTP_PREFIX;
    } else {
      assert text + "://" == HTTPS_PREFIX;
    }
  }

  /** Without '@' and '[' the authority is a name and perhaps a port. */
  lemma WebAuthority(buf: string, m: Fields, auth: nat)
    requires IsLaidOut(buf, m, auth) && IsWebUrl(buf, m, auth) && HostField in m
    ensures
      var lo, a := SchemaEnd(m), buf[SchemaEnd(m)..auth];
      var host := FieldText(buf, m, HostField);
      && (forall ch <- host :: IsHostChar(ch))
      && (if PortField in m then
            (forall ch <- FieldText(buf, m, PortField) :: IsNum(ch)) && a == host + ":" + FieldText(buf, m, PortField)
          else a == host)
  {
    var lo := SchemaEnd(m);
    var end := if PortField in m then m[PortField].off - 1 else auth;
    assert IsHost(buf, m, lo, end);
    NoAtNoUserinfo(buf, m, lo, end, auth);
    assert m[HostField].off == lo;
    assert buf[lo..end] == FieldText(buf, m, HostField);
    if PortField in m {
      assert buf[lo..auth] == buf[lo..end] + [buf[end]] + buf[end + 1..auth];
    }
  }

  lemma NoAtNoUserinfo(buf: string, m: Fields, lo: nat, end: nat, auth: nat)
    requires IsHost(buf, m, lo, end) && end <= auth <= |buf|
    requires '@' !in buf[lo..auth] && '[' !in buf[lo..auth]
    ensures IsHostName(buf, m, lo, end) && m[HostField].off == lo
  {
    assert forall i | lo <= i < auth :: buf[i] == buf[lo..auth][i - lo] && buf[i] in buf[lo..auth];
  }

  /** The authority has no slash, and its first colon is that of the port. */
  lemma WebColon(buf: string, m: Fields, auth: nat)
    requires IsLaidOut(buf, m, auth) && IsWebUrl(buf, m, auth) && HostField in m
    ensures SchemaEnd(m) <= auth <= |buf|
    ensures
      var a := buf[SchemaEnd(m)..auth];
      var host, port := FieldText(buf, m, HostField), FieldText(buf, m, PortField);
      && '/' !in a && a[0..0 + |a|] == a
      && if PortField in m then
           |host| < |a| && a[|host|] == ':' && ':' !in a[0..|host|] && host == a[..|host|] && port == a[|host| + 1..]
         else host == a && ':' !in a
  {
    WebAuthority(buf, m, auth);
    hide IsLaidOut, IsWebUrl;
    var host, port := FieldText(buf, m, HostField), FieldText(buf, m, PortField);
    NoSlash(host, port);
    if PortField in m {
      ColonSplits(host, port);
    }
  }

  /** `parse_uri` gives what the splitter gives: the host, the port or the default, and the rest from the path on. */
  lemma WebIsSplit(buf: string, m: Fields, auth: nat)
    requires IsLaidOut(buf, m, auth) && IsWebUrl(buf, m, auth) && HostField in m
    ensures IsSplit(Unprefixed(buf), DefaultPort(buf), WebUri(buf, m))
  {
    hide DefaultPort, Unprefixed, IsSplit, IsLaidOut, IsWebUrl, IsBeforePath, FieldText, SchemaEnd;
    WebPrefix(buf, m, auth);
    WebColon(buf, m, auth);
    WebPath(buf, m, auth);
    DefaultPortIs(buf);
    var lo, u := SchemaEnd(m), WebUri(buf, m);
    AuthoritySplits(buf[lo..], DefaultPort(buf), buf[lo..auth], u.path, if PortField in m then |u.host| else -1, u);
  }

  lemma ColonSplits(host: string, port: string)
    requires '/' !in host && ':' !in host && '/' !in port
    ensures
      var a := host + ":" + port;
      && '/' !in a && a[|host|] == ':' && ':' !in a[0..|host|]
      && a[..|host|] == host && a[|host| + 1..] == port
  {
    var a := host + ":" + port;
    assert a[0..|host|] == host;
  }

  lemma WebPath(buf: string, m: Fields, auth: nat)
    requires IsLaidOut(buf, m, auth) && IsWebUrl(buf, m, auth) && HostField in m
    requires '/' !in buf[SchemaEnd(m)..auth]
    ensures IsBeforePath(buf[SchemaEnd(m)..], buf[SchemaEnd(m)..auth], WebUri(buf, m).path)
  {
    var lo := SchemaEnd(m);
    var rest := buf[lo..];
    assert rest == buf[lo..auth] + buf[auth..];
    if PathField in m {
      assert rest[auth - lo] == '/';
    } else {
      assert buf[auth..] == "";
    }
  }

  lemma NoSlash(host: string, port: string)
    ensures (forall ch <- host :: IsHostChar(ch)) ==> '/' !in host && ':' !in host
    ensures (forall ch <- port :: IsNum(ch)) ==> '/' !in port
  {
  }

  lemma ReadersAgree(buf: string, after: string, u: Uri)
    requires SplitUrl(false, buf, after).IsUrlOut?
    requires IsWebUrl(buf, SplitUrl(false, buf, after).fields, UrlAuthorityEnd(false, buf))
    requires IsSplit(Unprefixed(buf), DefaultPort(buf), u)
    ensures u == WebUri(buf, SplitUrl(false, buf, after).fields)
  {
    var m, auth := SplitUrl(false, buf, after).fields, UrlAuthorityEnd(false, buf);
    SplitLaysOut(false, buf, after);
    SchemaHasHost(buf, after);
    hide IsSplit, SplitUrl, IsLaidOut, IsWebUrl, UrlAuthorityEnd, WebUri;
    WebIsSplit(buf, m, auth);
    SplitIsUnique(Unprefixed(buf), DefaultPort(buf), u, WebUri(buf, m));
  }

  lemma SchemaHasHost(buf: string, after: string)
    requires SplitUrl(false, buf, after).IsUrlOut?
    ensures
      var m := SplitUrl(false, buf, after).fields;
      SchemaField in m ==> HostField in m
  {
    hide ScanTo, IsScanned, IsHosted;
    var k := ScanTo(false, buf, |buf|);
    ScanIsScanned(false, buf, |buf|);
    HostFits(false, buf, |buf|, k);
    if HostField in k.fields {
      HostIsHosted(buf, k.at, k.fields, EndOf(k.fields, HostField));
      KeepsHost(buf, k.at, k.fields);
    }
  }

  lemma KeepsHost(buf: string, at: bool, m: Fields)
    requires HostField in m && EndOf(m, HostField) <= |buf|
    requires IsHosted(buf, at, m, EndOf(m, HostField), SplitHost(buf, at, m))
    ensures HostField in SplitHost(buf, at, m).fields
  {
  }

  /** Both splitters on one URL: they give the same host, port and path. */
  method SplitTwice(buf: string, after: string) returns (u: Uri, v: Uri, comparable: bool)
    requires |buf| < 0x1_0000
    ensures comparable ==> u == v
    ensures comparable <==>
      && SplitUrl(false, buf, after).IsUrlOut?
      && IsWebUrl(buf, SplitUrl(false, buf, after).fields, UrlAuthorityEnd(false, buf))
  {
    hide IsSplit, SplitUrl, IsWebUrl, UrlAuthorityEnd;
    var url := new HttpParserUrl();
    var err := url.ParseUrl(buf, false, after);
    u := ParseUri(buf);
    v := WebUri(buf, url.fields);
    comparable := !err && IsWebUrl(buf, url.fields, UrlAuthorityEnd(false, buf));
    if comparable {
      ReadersAgree(buf, after, u);
    }
  }
}
