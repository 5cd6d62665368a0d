/** What `http_parse_host` takes for an authority, in the terms of its text. */
module Authorities {
  import opened Chars
  import opened Alphabets
  import opened ParserTypes
  import opened Lengths
  import opened Urls

  // ---- The text of an authority ----

  lemma HexesAre(c: char)
    ensures IsHex(c) <==> c in HEX_SMALL || c in HEX_CAPITAL
  {
  }

  /** What may stand in an address in brackets. */
  lemma V6CharsAre(c: char)
    ensures IsV6Char(c) <==> c in HEX_SMALL || c in HEX_CAPITAL || c in ":."
  {
    HexesAre(c);
    hide IsHex;
  }

  /** And in its zone. */
  lemma ZoneCharsAre(c: char)
    ensures IsZoneChar(c) <==> IsLetter(c) || c in DIGITS || c in "%.-_~"
  {
    AlphasAre(c);
    NumsAre(c);
    hide IsLetter, IsAlpha, IsNum;
  }

  predicate AreUserinfo(w: string) {
    forall ch <- w :: IsUserinfoChar(ch)
  }

  predicate AreHost(w: string) {
    forall ch <- w :: IsHostChar(ch)
  }

  predicate AreV6(w: string) {
    forall ch <- w :: IsV6Char(ch)
  }

  predicate AreZone(w: string) {
    forall ch <- w :: IsZoneChar(ch)
  }

  predicate AreNums(w: string) {
    forall ch <- w :: IsNum(ch)
  }

  /** Nothing, or a perhaps empty userinfo and an '@'. */
  predicate IsUserinfoText(u: string) {
    u == "" || (u[|u| - 1] == '@' && AreUserinfo(u[..|u| - 1]))
  }

  /** Where the zone of an address begins. */
  predicate IsZonedAt(x: string, i: nat) {
    0 < i < |x| - 1 && x[i] == '%' && AreV6(x[..i]) && AreZone(x[i + 1..])
  }

  /** The inside of the brackets: an address, and perhaps a zone behind a '%'. */
  predicate IsAddressText(x: string) {
    (x != "" && AreV6(x)) || exists i | 0 <= i < |x| :: IsZonedAt(x, i)
  }

  /** A name, or an address in brackets. */
  predicate IsHostText(h: string) {
    || (h != "" && AreHost(h))
    || (|h| > 1 && h[0] == '[' && h[|h| - 1] == ']' && IsAddressText(h[1..|h| - 1]))
  }

  /** Nothing, or a colon and a number. */
  predicate IsPortText(p: string) {
    p == "" || (p[0] == ':' && |p| > 1 && AreNums(p[1..]))
  }

  predicate AreParts(a: string, u: string, h: string, p: string) {
    a == u + h + p && IsUserinfoText(u) && IsHostText(h) && IsPortText(p)
  }

  // ---- The automaton over a text ----

  function HostRun(s: HostState, w: string): HostState {
    if w == "" then s else ParseHostChar(HostRun(s, w[..|w| - 1]), w[|w| - 1])
  }

  function HostBegin(at: bool): HostState {
    if at then UserinfoStart else HostStart
  }

  lemma {:induction false} HostToRuns(buf: string, at: bool, m: Fields, p: nat)
    requires HostField in m && m[HostField].off <= p <= |buf|
    ensures HostTo(buf, at, m, p).s == HostRun(HostBegin(at), buf[m[HostField].off..p])
    decreases p
  {
    hide ParseHostChar;
    var lo := m[HostField].off;
    if p == lo {
      assert buf[lo..p] == "";
    } else {
      HostToRuns(buf, at, m, p - 1);
      assert buf[lo..p][..p - lo - 1] == buf[lo..p - 1] && buf[lo..p][p - lo - 1] == buf[p - 1];
    }
  }

  lemma {:induction false} HostRunAppend(s: HostState, a: string, b: string)
    ensures HostRun(s, a + b) == HostRun(HostRun(s, a), b)
    decreases |b|
  {
    hide ParseHostChar;
    if b == "" {
      assert a + b == a;
    } else {
      var k := |b| - 1;
      assert (a + b)[..|a + b| - 1] == a + b[..k] && (a + b)[|a + b| - 1] == b[k];
      HostRunAppend(s, a, b[..k]);
    }
  }

  lemma HostRunOne(s: HostState, ch: char)
    ensures HostRun(s, [ch]) == ParseHostChar(s, ch)
  {
    assert [ch][..0] == "";
  }

  // ---- Every authority is accepted ----

  /** The letters that a state takes without leaving. */
  predicate StaysFor(s: HostState, ch: char) {
    match s
    case InUserinfo => IsUserinfoChar(ch)
    case InHost => IsHostChar(ch)
    case HostV6 => IsV6Char(ch)
    case HostV6Zone => IsZoneChar(ch)
    case HostPort => IsNum(ch)
    case _ => false
  }

  lemma {:induction false} StaysThrough(s: HostState, w: string)
    requires forall ch <- w :: StaysFor(s, ch)
    ensures HostRun(s, w) == s
    decreases |w|
  {
    if w != "" {
      var k := |w| - 1;
      assert w[k] in w && forall ch <- w[..k] :: ch in w;
      StaysThrough(s, w[..k]);
      StayingByte(s, w[k]);
    }
  }

  lemma StayingByte(s: HostState, ch: char)
    requires StaysFor(s, ch)
    ensures ParseHostChar(s, ch) == s
  {
    hide IsUserinfoChar, IsHostChar, IsHex, IsAlphaNum;
    AtIsNoUserinfo();
    BracketsAreNoAddress();
  }

  lemma AtIsNoUserinfo()
    ensures !IsUserinfoChar('@') && !IsHostChar('@') && !IsZoneChar('@') && !IsV6Char('@')
    ensures !IsHostChar('[') && !IsHostChar(':')
  {
  }

  lemma BracketsAreNoAddress()
    ensures !IsV6Char(']') && !IsZoneChar(']') && !IsV6Char('%') && !IsV6Char('[')
  {
  }

  /** The first letter of a stretch, and the others. */
  lemma EntersThrough(from: HostState, s: HostState, w: string)
    requires w != "" && ParseHostChar(from, w[0]) == s && forall ch <- w :: StaysFor(s, ch)
    ensures HostRun(from, w) == s
  {
    assert w == [w[0]] + w[1..] && forall ch <- w[1..] :: ch in w;
    HostRunAppend(from, [w[0]], w[1..]);
    HostRunOne(from, w[0]);
    StaysThrough(s, w[1..]);
  }

  lemma UserinfoIsTaken(u: string)
    requires IsUserinfoText(u) && u != ""
    ensures HostRun(UserinfoStart, u) == HostStart
  {
    hide IsUserinfoChar;
    AtIsNoUserinfo();
    var w := u[..|u| - 1];
    if w == "" {
      assert HostRun(UserinfoStart, w) == UserinfoStart;
    } else {
      assert w[0] in w;
      EntersThrough(UserinfoStart, InUserinfo, w);
    }
  }

  lemma AddressLetters(ch: char)
    ensures IsV6Char(ch) ==> ParseHostChar(HostV6Start, ch) == HostV6
    ensures IsZoneChar(ch) ==> ParseHostChar(HostV6ZoneStart, ch) == HostV6Zone
    ensures ParseHostChar(HostV6, '%') == HostV6ZoneStart
  {
    hide IsV6Char, IsZoneChar;
    BracketsAreNoAddress();
  }

  lemma PlainIsTaken(v: string)
    requires v != "" && AreV6(v)
    ensures HostRun(HostV6Start, v) == HostV6
  {
    hide IsV6Char, ParseHostChar, HostRun;
    assert v[0] in v;
    AddressLetters(v[0]);
    EntersThrough(HostV6Start, HostV6, v);
  }

  lemma ZoneIsTaken(z: string)
    requires z != "" && AreZone(z)
    ensures HostRun(HostV6, ['%'] + z) == HostV6Zone
  {
    hide IsZoneChar, ParseHostChar, HostRun;
    assert z[0] in z;
    AddressLetters(z[0]);
    EntersThrough(HostV6ZoneStart, HostV6Zone, z);
    HostRunAppend(HostV6, ['%'], z);
    HostRunOne(HostV6, '%');
  }

  lemma AddressIsTaken(x: string)
    requires IsAddressText(x)
    ensures HostRun(HostV6Start, x) == HostV6 || HostRun(HostV6Start, x) == HostV6Zone
  {
    hide AreV6, AreZone, ParseHostChar, HostRun;
    if x != "" && AreV6(x) {
      PlainIsTaken(x);
    } else {
      var i :| 0 <= i < |x| && IsZonedAt(x, i);
      var v, z := x[..i], x[i + 1..];
      PlainIsTaken(v);
      ZoneIsTaken(z);
      assert x == v + (['%'] + z);
      HostRunAppend(HostV6Start, v, ['%'] + z);
    }
  }

  lemma HostIsTaken(h: string)
    requires IsHostText(h)
    ensures HostRun(HostStart, h) == InHost || HostRun(HostStart, h) == HostV6End
  {
    hide IsHostChar, IsAddressText, IsV6Char, IsZoneChar;
    AtIsNoUserinfo();
    BracketsAreNoAddress();
    if h != "" && AreHost(h) {
      assert h[0] in h;
      EntersThrough(HostStart, InHost, h);
    } else {
      var x := h[1..|h| - 1];
      AddressIsTaken(x);
      assert h == ['['] + x + [']'];
      HostRunAppend(HostStart, ['['] + x, [']']);
      HostRunAppend(HostStart, ['['], x);
      HostRunOne(HostStart, '[');
      HostRunOne(HostV6, ']');
      HostRunOne(HostV6Zone, ']');
    }
  }

  lemma PortIsTaken(s: HostState, p: string)
    requires IsPortText(p) && p != "" && (s.InHost? || s.HostV6End?)
    ensures HostRun(s, p) == HostPort
  {
    hide IsHostChar;
    AtIsNoUserinfo();
    var d := p[1..];
    assert p == [':'] + d && d[0] in d;
    HostRunAppend(s, [':'], d);
    HostRunOne(s, ':');
    EntersThrough(HostPortStart, HostPort, d);
  }

  /** The parts one behind the other lead through the automaton. */
  lemma PartsAreTaken(a: string, u: string, h: string, p: string)
    requires AreParts(a, u, h, p)
    ensures
      var s := HostRun(HostBegin(u != ""), a);
      EndsHost(s) && (s.HostPort? <==> p != "")
  {
    hide IsUserinfoText, IsHostText, IsPortText, ParseHostChar;
    var begin := HostBegin(u != "");
    if u != "" {
      UserinfoIsTaken(u);
    }
    assert HostRun(begin, u) == HostStart;
    HostIsTaken(h);
    HostRunAppend(begin, u, h);
    HostRunAppend(begin, u + h, p);
    if p != "" {
      PortIsTaken(HostRun(HostStart, h), p);
    }
  }

  // ---- Nothing else is accepted ----

  /** The parts of what has been read, by the state. */
  predicate IsStage(s: HostState, at: bool, u: string, h: string, p: string) {
    var front := IsUserinfoText(u) && (at <==> u != "");
    match s
    case HostDead => true
    case UserinfoStart => at && u == "" && h == "" && p == ""
    case InUserinfo => at && u != "" && AreUserinfo(u) && h == "" && p == ""
    case HostStart => front && h == "" && p == ""
    case InHost => front && h != "" && AreHost(h) && p == ""
    case HostV6Start => front && h == "[" && p == ""
    case HostV6 => front && |h| > 1 && h[0] == '[' && AreV6(h[1..]) && p == ""
    case HostV6ZoneStart =>
      front && |h| > 2 && h[0] == '[' && h[|h| - 1] == '%' && AreV6(h[1..|h| - 1]) && p == ""
    case HostV6Zone =>
      front && |h| > 1 && h[0] == '[' && (exists i | 0 <= i < |h[1..]| :: IsZonedAt(h[1..], i)) && p == ""
    case HostV6End => front && IsHostText(h) && p == ""
    case HostPortStart => front && IsHostText(h) && p == ":"
    case HostPort => front && IsHostText(h) && IsPortText(p) && p != ""
  }

  /** Where the next letter goes. */
  datatype Parts = Parts(u: string, h: string, p: string)

  function WithLetter(x: Parts, s: HostState, next: HostState, ch: char): Parts {
    if s.UserinfoStart? || s.InUserinfo? then x.(u := x.u + [ch])
    else if next.HostPortStart? || next.HostPort? then x.(p := x.p + [ch])
    else x.(h := x.h + [ch])
  }

  lemma UserinfoStage(s: HostState, at: bool, x: Parts, ch: char)
    requires IsStage(s, at, x.u, x.h, x.p) && (s.UserinfoStart? || s.InUserinfo?)
    ensures
      var next := ParseHostChar(s, ch);
      var y := WithLetter(x, s, next, ch);
      IsStage(next, at, y.u, y.h, y.p)
  {
    hide IsUserinfoChar, IsHostText, IsAddressText, IsPortText;
    var u := x.u + [ch];
    assert u[..|u| - 1] == x.u;
  }

  lemma NameStage(s: HostState, at: bool, x: Parts, ch: char)
    requires IsStage(s, at, x.u, x.h, x.p) && (s.HostStart? || s.InHost?)
    ensures
      var next := ParseHostChar(s, ch);
      var y := WithLetter(x, s, next, ch);
      IsStage(next, at, y.u, y.h, y.p)
  {
    hide IsHostChar, IsUserinfoText, IsAddressText, IsPortText;
    assert "" + [ch] == [ch];
  }

  lemma AddressOpenStage(at: bool, x: Parts, ch: char)
    requires IsStage(HostV6Start, at, x.u, x.h, x.p)
    ensures
      var next := ParseHostChar(HostV6Start, ch);
      var y := WithLetter(x, HostV6Start, next, ch);
      IsStage(next, at, y.u, y.h, y.p)
  {
    hide IsV6Char, IsUserinfoText, IsPortText, IsHostText, AreHost, AreZone;
    assert (x.h + [ch])[1..] == [ch];
  }

  lemma AddressStage(at: bool, x: Parts, ch: char)
    requires IsStage(HostV6, at, x.u, x.h, x.p)
    ensures
      var next := ParseHostChar(HostV6, ch);
      var y := WithLetter(x, HostV6, next, ch);
      IsStage(next, at, y.u, y.h, y.p)
  {
    hide IsV6Char, IsUserinfoText, IsPortText, AreHost, AreZone, AreV6, IsAddressText, IsZonedAt;
    var h, w := x.h + [ch], x.h[1..];
    assert h[1..] == w + [ch] && h[1..|h| - 1] == w;
    MoreV6(w, ch);
    PlainIsAddress(w);
  }

  lemma MoreV6(w: string, ch: char)
    ensures AreV6(w) && IsV6Char(ch) ==> AreV6(w + [ch])
  {
    hide IsV6Char;
  }

  lemma PlainIsAddress(w: string)
    ensures w != "" && AreV6(w) ==> IsAddressText(w)
  {
    hide AreV6, IsZonedAt;
  }

  lemma ZoneOpenStage(at: bool, x: Parts, ch: char)
    requires IsStage(HostV6ZoneStart, at, x.u, x.h, x.p)
    ensures
      var next := ParseHostChar(HostV6ZoneStart, ch);
      var y := WithLetter(x, HostV6ZoneStart, next, ch);
      IsStage(next, at, y.u, y.h, y.p)
  {
    hide IsZoneChar, IsV6Char, IsUserinfoText, IsPortText, AreHost, AreV6, IsZonedAt;
    var w := x.h[1..];
    assert (x.h + [ch])[1..] == w + [ch];
    assert w[..|w| - 1] == x.h[1..|x.h| - 1];
    if IsZoneChar(ch) {
      ZoneBegins(w, ch);
      assert 0 <= |w| - 1 < |w + [ch]|;
    }
  }

  lemma ZoneRestStage(at: bool, x: Parts, ch: char)
    requires IsStage(HostV6Zone, at, x.u, x.h, x.p)
    ensures
      var next := ParseHostChar(HostV6Zone, ch);
      var y := WithLetter(x, HostV6Zone, next, ch);
      IsStage(next, at, y.u, y.h, y.p)
  {
    hide IsZoneChar, IsV6Char, IsUserinfoText, IsPortText, AreHost, AreV6, IsZonedAt;
    var w := x.h[1..];
    var h := x.h + [ch];
    assert h[1..] == w + [ch] && h[1..|h| - 1] == w;
    var i :| 0 <= i < |w| && IsZonedAt(w, i);
    if ch == ']' {
      assert IsAddressText(w);
    } else if IsZoneChar(ch) {
      ZoneGoesOn(w, i, ch);
      assert 0 <= i < |w + [ch]|;
    }
  }

  lemma ZoneBegins(w: string, ch: char)
    requires |w| > 1 && w[|w| - 1] == '%' && AreV6(w[..|w| - 1]) && IsZoneChar(ch)
    ensures IsZonedAt(w + [ch], |w| - 1)
  {
    hide IsV6Char, IsZoneChar;
    var x, i := w + [ch], |w| - 1;
    assert x[..i] == w[..i] && x[i + 1..] == [ch];
  }

  lemma ZoneGoesOn(w: string, i: nat, ch: char)
    requires IsZonedAt(w, i) && IsZoneChar(ch)
    ensures IsZonedAt(w + [ch], i)
  {
    hide IsV6Char, IsZoneChar;
    var x := w + [ch];
    assert x[..i] == w[..i] && x[i + 1..] == w[i + 1..] + [ch];
  }

  lemma PortStage(s: HostState, at: bool, x: Parts, ch: char)
    requires IsStage(s, at, x.u, x.h, x.p) && (s.HostV6End? || s.HostPortStart? || s.HostPort?)
    ensures
      var next := ParseHostChar(s, ch);
      var y := WithLetter(x, s, next, ch);
      IsStage(next, at, y.u, y.h, y.p)
  {
    hide IsNum, IsUserinfoText, IsHostText;
    assert "" + [ch] == [ch];
    var p := x.p + [ch];
    if x.p != "" {
      assert p[1..] == x.p[1..] + [ch];
    }
  }

  /** The parts of all that has been read. */
  lemma {:induction false} PartsOf(at: bool, w: string) returns (x: Parts)
    ensures !HostRun(HostBegin(at), w).HostDead? ==>
      w == x.u + x.h + x.p && IsStage(HostRun(HostBegin(at), w), at, x.u, x.h, x.p)
    decreases |w|
  {
    hide IsStage, ParseHostChar;
    if w == "" {
      x := Parts("", "", "");
      StageBegins(at);
    } else {
      var k := |w| - 1;
      var y := PartsOf(at, w[..k]);
      var s := HostRun(HostBegin(at), w[..k]);
      var next := ParseHostChar(s, w[k]);
      x := WithLetter(y, s, next, w[k]);
      if !next.HostDead? {
        DeadStays(s, w[k]);
        assert w == w[..k] + [w[k]];
        StageGoesOn(s, at, y, w[k]);
      }
    }
  }

  lemma StageBegins(at: bool)
    ensures IsStage(HostBegin(at), at, "", "", "")
  {
  }

  lemma DeadStays(s: HostState, ch: char)
    ensures s.HostDead? ==> ParseHostChar(s, ch).HostDead?
  {
  }

  lemma StageGoesOn(s: HostState, at: bool, x: Parts, ch: char)
    requires IsStage(s, at, x.u, x.h, x.p) && !ParseHostChar(s, ch).HostDead?
    ensures
      var next := ParseHostChar(s, ch);
      var y := WithLetter(x, s, next, ch);
      IsStage(next, at, y.u, y.h, y.p) && x.u + x.h + x.p + [ch] == y.u + y.h + y.p
  {
    StageEnds(s, at, x, ch);
    hide ParseHostChar, IsStage;
    match s
    case HostDead =>
      DeadStays(s, ch);
      assert false;
    case UserinfoStart => UserinfoStage(s, at, x, ch);
    case InUserinfo => UserinfoStage(s, at, x, ch);
    case HostStart => NameStage(s, at, x, ch);
    case InHost => NameStage(s, at, x, ch);
    case HostV6Start => AddressOpenStage(at, x, ch);
    case HostV6 => AddressStage(at, x, ch);
    case HostV6ZoneStart => ZoneOpenStage(at, x, ch);
    case HostV6Zone => ZoneRestStage(at, x, ch);
    case HostV6End => PortStage(s, at, x, ch);
    case HostPortStart => PortStage(s, at, x, ch);
    case HostPort => PortStage(s, at, x, ch);
  }

  /** A letter goes to the last part that is not empty, or to one behind it. */
  lemma StageEnds(s: HostState, at: bool, x: Parts, ch: char)
    requires IsStage(s, at, x.u, x.h, x.p) && !ParseHostChar(s, ch).HostDead?
    ensures
      var y := WithLetter(x, s, ParseHostChar(s, ch), ch);
      x.u + x.h + x.p + [ch] == y.u + y.h + y.p
  {
    hide IsUserinfoText, IsHostText, IsPortText, IsZonedAt, IsUserinfoChar, IsHostChar, IsV6Char, IsZoneChar, IsNum,
         AreHost, AreV6, AreUserinfo;
    LettersAdd(x.u, x.h, x.p, ch);
  }

  lemma LettersAdd(u: string, h: string, p: string, ch: char)
    ensures p == "" ==> u + h + p + [ch] == u + (h + [ch]) + p
    ensures h == "" && p == "" ==> u + h + p + [ch] == u + [ch] + h + p
    ensures u + h + p + [ch] == u + h + (p + [ch])
  {
  }

  /** The automaton accepts exactly the authorities; it ends in a number exactly if there is a port. */
  lemma AcceptsAuthorities(a: string, at: bool)
    ensures EndsHost(HostRun(HostBegin(at), a)) <==> exists u, h, p :: AreParts(a, u, h, p) && (at <==> u != "")
  {
    hide HostRun, ParseHostChar;
    if EndsHost(HostRun(HostBegin(at), a)) {
      var x := PartsOf(at, a);
      StageIsOver(HostRun(HostBegin(at), a), at, x);
      assert AreParts(a, x.u, x.h, x.p);
    }
    if exists u, h, p :: AreParts(a, u, h, p) && (at <==> u != "") {
      var u, h, p :| AreParts(a, u, h, p) && (at <==> u != "");
      PartsAreTaken(a, u, h, p);
    }
  }

  lemma StageIsOver(s: HostState, at: bool, x: Parts)
    requires EndsHost(s) && IsStage(s, at, x.u, x.h, x.p)
    ensures IsUserinfoText(x.u) && IsHostText(x.h) && IsPortText(x.p) && (at <==> x.u != "")
  {
    hide IsUserinfoText, IsAddressText, IsHostChar, IsNum;
  }
}
