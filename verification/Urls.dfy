/**
  The URL splitter: `http_parse_host_char`, `http_parse_host` and `http_parser_parse_url`.
 */
module Urls {
  import opened Chars
  import opened ParserTypes
  import opened Transitions
  import opened Lengths
  import opened Lines

  /** The `UF_*` fields. */
  datatype UrlField =
    SchemaField | HostField | PortField | PathField | QueryField | FragmentField | UserinfoField

  /** One entry of `field_data`. */
  datatype Span = Span(off: nat, len: nat)

  /** `field_set` and `field_data`: the fields that are set, and where they are. */
  type Fields = map<UrlField, Span>

  function EndOf(m: Fields, f: UrlField): nat
    requires f in m
  {
    m[f].off + m[f].len
  }

  // ---- The first pass: the bytes of the URL ----

  datatype MaybeField = NoField | InField(field: UrlField)

  /** The field a byte belongs to, by the state it leads to; delimiters belong to none. */
  function FieldOf(s: UrlState): MaybeField {
    match s
    case Schema => InField(SchemaField)
    case Server => InField(HostField)
    case ServerWithAt => InField(HostField)
    case Path => InField(PathField)
    case QueryString => InField(QueryField)
    case Fragment => InField(FragmentField)
    case _ => NoField
  }

  /** `s`, the fields, the field of the last byte that had one, and whether there was an '@'. */
  datatype Scan = Scan(s: UrlState, fields: Fields, last: MaybeField, at: bool)

  function StartScan(connect: bool): Scan {
    Scan(if connect then ServerStart else BeforeUrl, map[], NoField, false)
  }

  function ScanStep(k: Scan, ch: char, p: nat): Scan {
    var s := ParseUrlChar(k.s, ch);
    match FieldOf(s)
    case NoField => k.(s := s)
    case InField(f) =>
      var span := if k.last == InField(f) && f in k.fields then k.fields[f].(len := k.fields[f].len + 1) else Span(p, 1);
      Scan(s, k.fields[f := span], InField(f), k.at || s.ServerWithAt?)
  }

  /** The first pass after `p` bytes. */
  function ScanTo(connect: bool, buf: string, p: nat): Scan
    requires p <= |buf|
  {
    if p == 0 then StartScan(connect) else ScanStep(ScanTo(connect, buf, p - 1), buf[p - 1], p - 1)
  }

  lemma {:induction false} DeadScan(connect: bool, buf: string, p: nat, q: nat)
    requires p <= q <= |buf| && ScanTo(connect, buf, p).s.UrlDead?
    ensures ScanTo(connect, buf, q).s.UrlDead?
    decreases q
  {
    if p < q {
      DeadScan(connect, buf, p, q - 1);
    }
  }

  /** The states are those of the URL automaton. */
  lemma {:induction false} ScanRuns(connect: bool, buf: string, p: nat)
    requires p <= |buf|
    ensures UrlRun(StartScan(connect).s, buf) == UrlRun(ScanTo(connect, buf, p).s, buf[p..])
  {
    hide ParseUrlChar;
    if p == 0 {
      assert buf[0..] == buf;
    } else {
      ScanRuns(connect, buf, p - 1);
      assert buf[p - 1..][0] == buf[p - 1] && buf[p - 1..][1..] == buf[p..];
    }
  }

  // ---- Where the fields are after the first pass ----

  function SchemaEnd(m: Fields): nat {
    if SchemaField in m then m[SchemaField].len + 3 else 0
  }

  function AuthorityEnd(m: Fields): nat {
    if HostField in m then EndOf(m, HostField) else SchemaEnd(m)
  }

  function PathEnd(m: Fields): nat {
    if PathField in m then EndOf(m, PathField) else AuthorityEnd(m)
  }

  function QueryEnd(buf: string, m: Fields): nat {
    if QueryField in m then EndOf(m, QueryField)
    else if PathEnd(m) < |buf| && buf[PathEnd(m)] == '?' then PathEnd(m) + 1
    else PathEnd(m)
  }

  predicate IsSpan(m: Fields, f: UrlField, off: nat) {
    f in m && m[f].off == off && m[f].len > 0
  }

  predicate SchemaOk(buf: string, m: Fields) {
    SchemaField in m ==>
      && IsSpan(m, SchemaField, 0) && m[SchemaField].len + 3 <= |buf|
      && buf[m[SchemaField].len] == ':' && buf[m[SchemaField].len + 1] == '/' && buf[m[SchemaField].len + 2] == '/'
  }

  predicate AuthorityOk(buf: string, m: Fields) {
    SchemaOk(buf, m) && (HostField in m ==> IsSpan(m, HostField, SchemaEnd(m)))
  }

  /** A path begins with a slash; without a host it may begin with an asterisk. */
  predicate BeginsPath(buf: string, m: Fields)
    requires PathField in m
  {
    var off := m[PathField].off;
    off < |buf| && (buf[off] == '/' || (buf[off] == '*' && HostField !in m))
  }

  predicate PathOk(buf: string, m: Fields) {
    AuthorityOk(buf, m) && (PathField in m ==> IsSpan(m, PathField, AuthorityEnd(m)) && BeginsPath(buf, m))
  }

  predicate QueryOk(buf: string, m: Fields) {
    && PathOk(buf, m)
    && (QueryField in m ==>
          IsSpan(m, QueryField, PathEnd(m) + 1) && PathEnd(m) < |buf| && buf[PathEnd(m)] == '?')
  }

  predicate AreHashes(buf: string, lo: nat, hi: nat) {
    lo <= hi <= |buf| && forall i | lo <= i < hi :: buf[i] == '#'
  }

  const FIRST_FIELDS := {SchemaField, HostField, PathField, QueryField, FragmentField}

  /** The bytes up to `p` are read, and make up these fields. */
  predicate IsScanned(connect: bool, buf: string, p: nat, k: Scan)
    requires p <= |buf|
  {
    var m := k.fields;
    match k.s
    case UrlDead => true
    case BeforeUrl => p == 0 && m == map[]
    case Schema => m.Keys == {SchemaField} && m[SchemaField] == Span(0, p) && p > 0 && k.last == InField(SchemaField)
    case SchemaSlash => m.Keys == {SchemaField} && p > 1 && m[SchemaField] == Span(0, p - 1) && buf[p - 1] == ':'
    case SchemaSlashSlash =>
      m.Keys == {SchemaField} && p > 2 && m[SchemaField] == Span(0, p - 2) && buf[p - 2] == ':' && buf[p - 1] == '/'
    case ServerStart =>
      || (connect && p == 0 && m == map[])
      || (m.Keys == {SchemaField} && SchemaOk(buf, m) && SchemaEnd(m) == p)
    case Server => InAuthority(buf, p, k)
    case ServerWithAt => InAuthority(buf, p, k)
    case Path =>
      && m.Keys <= {SchemaField, HostField, PathField} && PathOk(buf, m)
      && PathField in m && PathEnd(m) == p && k.last == InField(PathField)
    case QueryStringStart =>
      && m.Keys <= {SchemaField, HostField, PathField} && PathOk(buf, m)
      && PathEnd(m) + 1 == p && buf[p - 1] == '?'
    case QueryString =>
      && m.Keys <= FIRST_FIELDS - {FragmentField} && QueryOk(buf, m)
      && QueryField in m && QueryEnd(buf, m) == p && k.last == InField(QueryField)
    case FragmentStart =>
      && m.Keys <= FIRST_FIELDS - {FragmentField} && QueryOk(buf, m)
      && QueryEnd(buf, m) < p && AreHashes(buf, QueryEnd(buf, m), p)
    case Fragment =>
      && m.Keys <= FIRST_FIELDS && QueryOk(buf, m)
      && FragmentField in m && m[FragmentField].len > 0 && EndOf(m, FragmentField) == p
      && QueryEnd(buf, m) < m[FragmentField].off && AreHashes(buf, QueryEnd(buf, m), m[FragmentField].off)
      && k.last == InField(FragmentField)
  }

  predicate InAuthority(buf: string, p: nat, k: Scan) {
    && k.fields.Keys <= {SchemaField, HostField} && AuthorityOk(buf, k.fields)
    && HostField in k.fields && AuthorityEnd(k.fields) == p && k.last == InField(HostField)
  }

  lemma SchemaScanned(connect: bool, buf: string, p: nat, k: Scan)
    requires p < |buf| && IsScanned(connect, buf, p, k)
    requires k.s.BeforeUrl? || k.s.Schema? || k.s.SchemaSlash? || k.s.SchemaSlashSlash?
    ensures IsScanned(connect, buf, p + 1, ScanStep(k, buf[p], p))
  {
  }

  lemma AuthorityScanned(connect: bool, buf: string, p: nat, k: Scan)
    requires p < |buf| && IsScanned(connect, buf, p, k)
    requires k.s.ServerStart? || k.s.Server? || k.s.ServerWithAt?
    ensures IsScanned(connect, buf, p + 1, ScanStep(k, buf[p], p))
  {
    hide IsUrlChar, IsUserinfoChar, AreHashes, IsAlpha, QueryOk;
  }

  lemma PathScanned(connect: bool, buf: string, p: nat, k: Scan)
    requires p < |buf| && IsScanned(connect, buf, p, k) && k.s.Path?
    ensures IsScanned(connect, buf, p + 1, ScanStep(k, buf[p], p))
  {
    hide IsUrlChar, IsUserinfoChar, IsAlpha;
  }

  /** What comes behind does not change what is in front. */
  lemma PathKeeps(buf: string, m: Fields, f: UrlField, x: Span)
    requires f == QueryField || f == FragmentField
    ensures PathEnd(m[f := x]) == PathEnd(m) && PathOk(buf, m[f := x]) == PathOk(buf, m)
  {
  }

  lemma QueryKeeps(buf: string, m: Fields, x: Span)
    ensures QueryEnd(buf, m[FragmentField := x]) == QueryEnd(buf, m)
    ensures QueryOk(buf, m[FragmentField := x]) == QueryOk(buf, m)
  {
    PathKeeps(buf, m, FragmentField, x);
    hide PathEnd, PathOk;
  }

  lemma QueryScanned(connect: bool, buf: string, p: nat, k: Scan)
    requires p < |buf| && IsScanned(connect, buf, p, k) && (k.s.QueryStringStart? || k.s.QueryString?)
    ensures IsScanned(connect, buf, p + 1, ScanStep(k, buf[p], p))
  {
    hide IsUrlChar, IsUserinfoChar, IsAlpha, PathOk, PathEnd;
    PathKeeps(buf, k.fields, QueryField, Span(p, 1));
    if QueryField in k.fields {
      PathKeeps(buf, k.fields, QueryField, k.fields[QueryField].(len := k.fields[QueryField].len + 1));
    }
  }

  lemma FragmentScanned(connect: bool, buf: string, p: nat, k: Scan)
    requires p < |buf| && IsScanned(connect, buf, p, k) && (k.s.FragmentStart? || k.s.Fragment?)
    ensures IsScanned(connect, buf, p + 1, ScanStep(k, buf[p], p))
  {
    hide IsUrlChar, IsUserinfoChar, IsAlpha, QueryOk, QueryEnd;
    QueryKeeps(buf, k.fields, Span(p, 1));
    if FragmentField in k.fields {
      QueryKeeps(buf, k.fields, k.fields[FragmentField].(len := k.fields[FragmentField].len + 1));
    }
  }

  /** The first pass, at every byte. */
  lemma {:induction false} ScanIsScanned(connect: bool, buf: string, p: nat)
    requires p <= |buf|
    ensures IsScanned(connect, buf, p, ScanTo(connect, buf, p))
  {
    hide IsScanned, ScanStep;
    if p == 0 {
      StartIsScanned(connect, buf);
    } else {
      ScanIsScanned(connect, buf, p - 1);
      var k := ScanTo(connect, buf, p - 1);
      match k.s
      case UrlDead => DeadStep(connect, buf, p - 1, k);
      case BeforeUrl => SchemaScanned(connect, buf, p - 1, k);
      case Schema => SchemaScanned(connect, buf, p - 1, k);
      case SchemaSlash => SchemaScanned(connect, buf, p - 1, k);
      case SchemaSlashSlash => SchemaScanned(connect, buf, p - 1, k);
      case ServerStart => AuthorityScanned(connect, buf, p - 1, k);
      case Server => AuthorityScanned(connect, buf, p - 1, k);
      case ServerWithAt => AuthorityScanned(connect, buf, p - 1, k);
      case Path => PathScanned(connect, buf, p - 1, k);
      case QueryStringStart => QueryScanned(connect, buf, p - 1, k);
      case QueryString => QueryScanned(connect, buf, p - 1, k);
      case FragmentStart => FragmentScanned(connect, buf, p - 1, k);
      case Fragment => FragmentScanned(connect, buf, p - 1, k);
    }
  }

  lemma StartIsScanned(connect: bool, buf: string)
    ensures IsScanned(connect, buf, 0, StartScan(connect))
  {
  }

  lemma DeadStep(connect: bool, buf: string, p: nat, k: Scan)
    requires p < |buf| && k.s.UrlDead?
    ensures IsScanned(connect, buf, p + 1, ScanStep(k, buf[p], p))
  {
  }

  // ---- The second pass: the bytes of the authority ----

  /** The states of `enum http_host_state`. */
  datatype HostState =
    | HostDead
    | UserinfoStart | InUserinfo
    | HostStart | HostV6Start | InHost | HostV6 | HostV6End | HostV6ZoneStart | HostV6Zone
    | HostPortStart | HostPort

  predicate IsV6Char(ch: char) {
    IsHex(ch) || ch == ':' || ch == '.'
  }

  predicate IsZoneChar(ch: char) {
    IsAlphaNum(ch) || ch == '%' || ch == '.' || ch == '-' || ch == '_' || ch == '~'
  }

  /** `http_parse_host_char`. */
  function ParseHostChar(s: HostState, ch: char): HostState {
    match s
    case HostDead => HostDead
    case UserinfoStart => if ch == '@' then HostStart else if IsUserinfoChar(ch) then InUserinfo else HostDead
    case InUserinfo => if ch == '@' then HostStart else if IsUserinfoChar(ch) then InUserinfo else HostDead
    case HostStart => if ch == '[' then HostV6Start else if IsHostChar(ch) then InHost else HostDead
    case InHost => if IsHostChar(ch) then InHost else if ch == ':' then HostPortStart else HostDead
    case HostV6End => if ch == ':' then HostPortStart else HostDead
    case HostV6 =>
      if ch == ']' then HostV6End else if IsV6Char(ch) then HostV6 else if ch == '%' then HostV6ZoneStart else HostDead
    case HostV6Start => if IsV6Char(ch) then HostV6 else HostDead
    case HostV6Zone => if ch == ']' then HostV6End else if IsZoneChar(ch) then HostV6Zone else HostDead
    case HostV6ZoneStart => if IsZoneChar(ch) then HostV6Zone else HostDead
    case HostPort => if IsNum(ch) then HostPort else HostDead
    case HostPortStart => if IsNum(ch) then HostPort else HostDead
  }

  /** The states in which an authority may end. */
  predicate EndsHost(s: HostState) {
    s.InHost? || s.HostV6End? || s.HostPort?
  }

  datatype HostScan = HostScan(s: HostState, fields: Fields)

  /** One more byte at `p` for the field `f`, which is begun there or goes on. */
  function FieldGrown(m: Fields, f: UrlField, p: nat, begins: bool): Fields {
    if begins || f !in m then m[f := Span(p, 1)] else m[f := m[f].(len := m[f].len + 1)]
  }

  function HostStep(h: HostScan, ch: char, p: nat): HostScan {
    var s := ParseHostChar(h.s, ch);
    HostScan(s,
      match s
      case InHost => FieldGrown(h.fields, HostField, p, !h.s.InHost?)
      case HostV6 => FieldGrown(h.fields, HostField, p, !h.s.HostV6?)
      case HostV6ZoneStart => FieldGrown(h.fields, HostField, p, false)
      case HostV6Zone => FieldGrown(h.fields, HostField, p, false)
      case HostPort => FieldGrown(h.fields, PortField, p, !h.s.HostPort?)
      case InUserinfo => FieldGrown(h.fields, UserinfoField, p, !h.s.InUserinfo?)
      case _ => h.fields)
  }

  function StartHost(at: bool, m: Fields): HostScan
    requires HostField in m
  {
    HostScan(if at then UserinfoStart else HostStart, m[HostField := Span(m[HostField].off, 0)])
  }

  /** The second pass, over the authority found by the first one, up to `p`. */
  function HostTo(buf: string, at: bool, m: Fields, p: nat): HostScan
    requires HostField in m && m[HostField].off <= p <= |buf|
    decreases p
  {
    if p == m[HostField].off then StartHost(at, m)
    else HostStep(HostTo(buf, at, m, p - 1), buf[p - 1], p - 1)
  }

  lemma {:induction false} DeadHost(buf: string, at: bool, m: Fields, p: nat, q: nat)
    requires HostField in m && m[HostField].off <= p <= q <= |buf| && HostTo(buf, at, m, p).s.HostDead?
    ensures HostTo(buf, at, m, q).s.HostDead?
    decreases q
  {
    if p < q {
      DeadHost(buf, at, m, p, q - 1);
    }
  }

  // ---- Where the fields are after the second pass ----

  /** Nothing, or a perhaps empty userinfo and an '@'. */
  predicate IsUserinfo(buf: string, m: Fields, lo: nat, hi: nat) {
    && lo <= hi <= |buf|
    && if hi == lo then UserinfoField !in m
       else
         && buf[hi - 1] == '@'
         && if UserinfoField in m then m[UserinfoField] == Span(lo, hi - 1 - lo) && hi - 1 > lo else hi == lo + 1
  }

  predicate AreHostChars(buf: string, lo: nat, hi: nat) {
    lo <= hi <= |buf| && forall i | lo <= i < hi :: IsHostChar(buf[i])
  }

  predicate AreDigits(buf: string, lo: nat, hi: nat) {
    lo <= hi <= |buf| && forall i | lo <= i < hi :: IsNum(buf[i])
  }

  predicate IsHostName(buf: string, m: Fields, lo: nat, hi: nat) {
    && HostField in m && m[HostField].len > 0 && EndOf(m, HostField) == hi
    && IsUserinfo(buf, m, lo, m[HostField].off) && AreHostChars(buf, m[HostField].off, hi)
  }

  /** An address from behind its '[' on. */
  predicate IsOpenAddress(buf: string, m: Fields, lo: nat, hi: nat) {
    && HostField in m && m[HostField].len > 0 && EndOf(m, HostField) == hi <= |buf|
    && m[HostField].off > lo && buf[m[HostField].off - 1] == '[' && IsUserinfo(buf, m, lo, m[HostField].off - 1)
  }

  /** A userinfo, if any, and a name or an address in brackets. */
  predicate IsHost(buf: string, m: Fields, lo: nat, hi: nat) {
    || IsHostName(buf, m, lo, hi)
    || (hi > 0 && IsOpenAddress(buf, m, lo, hi - 1) && hi <= |buf| && buf[hi - 1] == ']')
  }

  /** A host, and perhaps a colon and a port. */
  predicate IsAuthority(buf: string, m: Fields, lo: nat, hi: nat) {
    if PortField in m then
      var off := m[PortField].off;
      && off > 0 && m[PortField].len > 0 && EndOf(m, PortField) == hi && AreDigits(buf, off, hi)
      && buf[off - 1] == ':' && IsHost(buf, m, lo, off - 1)
    else IsHost(buf, m, lo, hi)
  }

  const AUTHORITY_FIELDS := {HostField, PortField, UserinfoField}

  /** The second pass touches no other field. */
  predicate KeepsRest(m: Fields, n: Fields) {
    forall f: UrlField | f !in AUTHORITY_FIELDS :: (f in m <==> f in n) && (f in m ==> m[f] == n[f])
  }

  /** The bytes of the authority up to `p` are read. */
  predicate IsHosted(buf: string, at: bool, m: Fields, p: nat, h: HostScan)
    requires HostField in m && m[HostField].off <= p <= |buf|
  {
    var lo, n := m[HostField].off, h.fields;
    && KeepsRest(m, n) && HostField in n
    && (!h.s.HostDead? && !h.s.HostPort? ==> PortField !in n)
    && match h.s
       case HostDead => true
       case UserinfoStart => at && p == lo && UserinfoField !in n && n[HostField] == Span(lo, 0)
       case InUserinfo => p > lo && UserinfoField in n && n[UserinfoField] == Span(lo, p - lo) && n[HostField] == Span(lo, 0)
       case HostStart => IsUserinfo(buf, n, lo, p) && n[HostField] == Span(lo, 0)
       case InHost => IsHostName(buf, n, lo, p)
       case HostV6Start => p > lo && buf[p - 1] == '[' && IsUserinfo(buf, n, lo, p - 1) && n[HostField] == Span(lo, 0)
       case HostV6 => IsOpenAddress(buf, n, lo, p)
       case HostV6ZoneStart => IsOpenAddress(buf, n, lo, p)
       case HostV6Zone => IsOpenAddress(buf, n, lo, p)
       case HostV6End => p > 0 && IsOpenAddress(buf, n, lo, p - 1) && buf[p - 1] == ']'
       case HostPortStart => p > 0 && buf[p - 1] == ':' && IsHost(buf, n, lo, p - 1)
       case HostPort => PortField in n && IsAuthority(buf, n, lo, p)
  }

  lemma UserinfoHosted(buf: string, at: bool, m: Fields, p: nat, h: HostScan)
    requires HostField in m && m[HostField].off <= p < |buf| && IsHosted(buf, at, m, p, h)
    requires h.s.HostDead? || h.s.UserinfoStart? || h.s.InUserinfo?
    ensures IsHosted(buf, at, m, p + 1, HostStep(h, buf[p], p))
  {
    hide IsUserinfoChar, IsHostName, IsOpenAddress, IsHost, IsAuthority;
  }

  lemma HostStartHosted(buf: string, at: bool, m: Fields, p: nat, h: HostScan)
    requires HostField in m && m[HostField].off <= p < |buf| && IsHosted(buf, at, m, p, h)
    requires h.s.HostStart? || h.s.HostV6Start?
    ensures IsHosted(buf, at, m, p + 1, HostStep(h, buf[p], p))
  {
    hide IsHostChar, IsV6Char, IsHost, IsAuthority;
  }

  lemma NameHosted(buf: string, at: bool, m: Fields, p: nat, h: HostScan)
    requires HostField in m && m[HostField].off <= p < |buf| && IsHosted(buf, at, m, p, h)
    requires h.s.InHost? || h.s.HostV6End?
    ensures IsHosted(buf, at, m, p + 1, HostStep(h, buf[p], p))
  {
    hide IsHostChar, IsAuthority;
  }

  lemma AddressHosted(buf: string, at: bool, m: Fields, p: nat, h: HostScan)
    requires HostField in m && m[HostField].off <= p < |buf| && IsHosted(buf, at, m, p, h)
    requires h.s.HostV6? || h.s.HostV6ZoneStart? || h.s.HostV6Zone?
    ensures IsHosted(buf, at, m, p + 1, HostStep(h, buf[p], p))
  {
    hide IsHostChar, IsV6Char, IsZoneChar, IsHostName, IsHost, IsAuthority;
  }

  lemma PortHosted(buf: string, at: bool, m: Fields, p: nat, h: HostScan)
    requires HostField in m && m[HostField].off <= p < |buf| && IsHosted(buf, at, m, p, h)
    requires h.s.HostPortStart? || h.s.HostPort?
    ensures IsHosted(buf, at, m, p + 1, HostStep(h, buf[p], p))
  {
    hide IsHostChar, IsNum;
  }

  /** The second pass, at every byte. */
  lemma {:induction false} HostIsHosted(buf: string, at: bool, m: Fields, p: nat)
    requires HostField in m && m[HostField].off <= p <= |buf| && PortField !in m && UserinfoField !in m
    ensures IsHosted(buf, at, m, p, HostTo(buf, at, m, p))
    decreases p
  {
    hide IsHosted, HostStep;
    if p == m[HostField].off {
      StartIsHosted(buf, at, m);
    } else {
      HostIsHosted(buf, at, m, p - 1);
      var h := HostTo(buf, at, m, p - 1);
      match h.s
      case HostDead => UserinfoHosted(buf, at, m, p - 1, h);
      case UserinfoStart => UserinfoHosted(buf, at, m, p - 1, h);
      case InUserinfo => UserinfoHosted(buf, at, m, p - 1, h);
      case HostStart => HostStartHosted(buf, at, m, p - 1, h);
      case HostV6Start => HostStartHosted(buf, at, m, p - 1, h);
      case InHost => NameHosted(buf, at, m, p - 1, h);
      case HostV6End => NameHosted(buf, at, m, p - 1, h);
      case HostV6 => AddressHosted(buf, at, m, p - 1, h);
      case HostV6ZoneStart => AddressHosted(buf, at, m, p - 1, h);
      case HostV6Zone => AddressHosted(buf, at, m, p - 1, h);
      case HostPortStart => PortHosted(buf, at, m, p - 1, h);
      case HostPort => PortHosted(buf, at, m, p - 1, h);
    }
  }

  lemma StartIsHosted(buf: string, at: bool, m: Fields)
    requires HostField in m && m[HostField].off <= |buf| && PortField !in m && UserinfoField !in m
    ensures IsHosted(buf, at, m, m[HostField].off, StartHost(at, m))
  {
  }

  /** The number that the digits at the front of `s` make behind those of `n`. */
  function LeadingNumber(n: nat, s: string): nat
    decreases |s|
  {
    if s == "" || !IsNum(s[0]) then n else LeadingNumber(n * 10 + DigitOf(s[0]), s[1..])
  }

  /** `strtoul` in base 10, from a digit on; it stops at the largest `unsigned long`. */
  function Strtoul(s: string): nat {
    if LeadingNumber(0, s) < UINT64_LIMIT then LeadingNumber(0, s) else UINT64_LIMIT - 1
  }

  lemma {:induction false} LeadingIsDecimal(n: nat, v: string, rest: string)
    requires (forall ch <- v :: IsNum(ch)) && (rest != "" ==> !IsNum(rest[0]))
    ensures IsLengthText(v) && LeadingNumber(n, v + rest) == Decimal(n, v)
    decreases |v|
  {
    if v == "" {
      assert v + rest == rest;
    } else {
      assert v[0] in v && (forall ch <- v[1..] :: ch in v);
      assert (v + rest)[0] == v[0] && (v + rest)[1..] == v[1..] + rest;
      LeadingIsDecimal(n * 10 + DigitOf(v[0]), v[1..], rest);
    }
  }

  const PORT_LIMIT := 0x1_0000

  datatype UrlOut = NoUrl | IsUrlOut(fields: Fields, port: nat)

  /** The fields of an authority, if it is one. */
  function SplitHost(buf: string, at: bool, m: Fields): HostScan
    requires HostField in m && EndOf(m, HostField) <= |buf|
  {
    HostTo(buf, at, m, EndOf(m, HostField))
  }

  /** What becomes of the port; `after` is what stands in memory behind the buffer. */
  function WithPort(connect: bool, buf: string, after: string, m: Fields): UrlOut {
    if connect && m.Keys != {HostField, PortField} then NoUrl
    else if PortField !in m then IsUrlOut(m, 0)
    else if m[PortField].off > |buf| then NoUrl
    else
      var v := Strtoul(buf[m[PortField].off..] + after);
      if v >= PORT_LIMIT then NoUrl else IsUrlOut(m, v)
  }

  /** The two passes and the checks between and behind them. */
  function SplitUrl(connect: bool, buf: string, after: string): UrlOut {
    var k := ScanTo(connect, buf, |buf|);
    var m := k.fields;
    if k.s.UrlDead? || (SchemaField in m && HostField !in m) then NoUrl
    else if HostField !in m then WithPort(connect, buf, after, m)
    else if EndOf(m, HostField) > |buf| then NoUrl
    else
      var h := SplitHost(buf, k.at, m);
      if EndsHost(h.s) then WithPort(connect, buf, after, h.fields) else NoUrl
  }

  lemma HostFits(connect: bool, buf: string, p: nat, k: Scan)
    requires p <= |buf| && IsScanned(connect, buf, p, k) && !k.s.UrlDead?
    ensures HostField in k.fields ==> k.fields[HostField].off <= EndOf(k.fields, HostField) <= p
    ensures PortField !in k.fields && UserinfoField !in k.fields
    ensures forall f | f in k.fields :: EndOf(k.fields, f) <= p
  {
  }

  lemma PortFits(buf: string, at: bool, m: Fields)
    requires HostField in m && EndOf(m, HostField) <= |buf| && PortField !in m && UserinfoField !in m
    ensures
      var h := SplitHost(buf, at, m);
      EndsHost(h.s) && PortField in h.fields ==> EndOf(h.fields, PortField) <= |buf|
  {
    HostIsHosted(buf, at, m, EndOf(m, HostField));
    hide HostTo;
  }

  /** `struct http_parser_url`. */
  class HttpParserUrl {
    var fields: Fields
    var port: nat

    /** `http_parser_url_init`. */
    constructor ()
      ensures fields == map[] && port == 0
    {
      fields, port := map[], 0;
    }

    /** `u->field_data[f].off = p, .len = 1` where the field begins, and `.len++` else. */
    method Grow(f: UrlField, p: nat, begins: bool)
      modifies `fields
      ensures fields == FieldGrown(old(fields), f, p, begins)
    {
      if begins || f !in fields {
        fields := fields[f := Span(p, 1)];
      } else {
        fields := fields[f := fields[f].(len := fields[f].len + 1)];
      }
    }

    /** `http_parse_host`: userinfo, host and port of the authority found before. */
    method ParseHost(buf: string, at: bool) returns (err: bool)
      requires HostField in fields && EndOf(fields, HostField) <= |buf|
      modifies `fields
      ensures err <==> !EndsHost(SplitHost(buf, at, old(fields)).s)
      ensures !err ==> fields == SplitHost(buf, at, old(fields)).fields
    {
      hide ParseHostChar;
      ghost var m := fields;
      var lo, end := fields[HostField].off, EndOf(fields, HostField);
      fields := fields[HostField := Span(lo, 0)];
      var s := if at then UserinfoStart else HostStart;
      var p := lo;
      while p < end
        invariant lo <= p <= end
        invariant HostScan(s, fields) == HostTo(buf, at, m, p)
      {
        var next := ParseHostChar(s, buf[p]);
        if next.HostDead? {
          DeadHost(buf, at, m, p + 1, end);
          return true;
        }
        match next {
          case InHost => Grow(HostField, p, s != InHost);
          case HostV6 => Grow(HostField, p, s != HostV6);
          case HostV6ZoneStart => Grow(HostField, p, false);
          case HostV6Zone => Grow(HostField, p, false);
          case HostPort => Grow(PortField, p, s != HostPort);
          case InUserinfo => Grow(UserinfoField, p, s != InUserinfo);
          case _ =>
        }
        s := next;
        p := p + 1;
      }
      return !EndsHost(s);
    }

    /**
      `http_parser_parse_url`. The offsets have 16 bits. `after` is what stands in memory behind
      the buffer, which the conversion of a port at its end goes on to read.
     */
    method ParseUrl(buf: string, connect: bool, after: string) returns (err: bool)
      requires |buf| < 0x1_0000
      modifies this
      ensures err <==> SplitUrl(connect, buf, after).NoUrl?
      ensures !err ==> IsUrlOut(fields, port) == SplitUrl(connect, buf, after)
    {
      hide ParseUrlChar, IsScanned, SplitHost, Strtoul;
      port, fields := 0, map[];
      var k := StartScan(connect);
      var s, last, at := k.s, k.last, false;
      var p := 0;
      while p < |buf|
        invariant p <= |buf| && port == 0 && !s.UrlDead?
        invariant Scan(s, fields, last, at) == ScanTo(connect, buf, p)
      {
        s := ParseUrlChar(s, buf[p]);
        if s.UrlDead? {
          DeadScan(connect, buf, p + 1, |buf|);
          return true;
        }
        if s.ServerWithAt? {
          at := true;
        }
        var field := FieldOf(s);
        if field.InField? {
          Grow(field.field, p, field != last);
          last := field;
        }
        p := p + 1;
      }
      ScanIsScanned(connect, buf, |buf|);
      HostFits(connect, buf, |buf|, ScanTo(connect, buf, |buf|));
      if SchemaField in fields && HostField !in fields {
        return true;
      }
      if HostField in fields {
        PortFits(buf, at, fields);
        var bad := ParseHost(buf, at);
        if bad {
          return true;
        }
      }
      if connect && fields.Keys != {HostField, PortField} {
        return true;
      }
      if PortField in fields {
        var v := Strtoul(buf[fields[PortField].off..] + after);
        if v > 0xFFFF {
          return true;
        }
        port := v;
      }
      return false;
    }
  }

  // ---- The whole URL ----

  /** The fields as they lie in the buffer; the authority ends at `auth`. */
  predicate IsLaidOut(buf: string, m: Fields, auth: nat) {
    var path := if PathField in m then EndOf(m, PathField) else auth;
    var query := if QueryField in m then EndOf(m, QueryField)
                 else if path < |buf| && buf[path] == '?' then path + 1 else path;
    var hashes := if FragmentField in m then m[FragmentField].off else |buf|;
    && auth <= |buf| && SchemaOk(buf, m)
    && (if HostField in m then IsAuthority(buf, m, SchemaEnd(m), auth)
        else auth == SchemaEnd(m) && PortField !in m && UserinfoField !in m)
    && (PathField in m ==> IsSpan(m, PathField, auth) && path <= |buf| && BeginsPath(buf, m))
    && (QueryField in m ==> IsSpan(m, QueryField, path + 1) && query <= |buf| && buf[path] == '?')
    && AreHashes(buf, query, hashes)
    && (FragmentField in m ==> query < hashes && m[FragmentField].len > 0 && EndOf(m, FragmentField) == |buf|)
  }

  lemma ScanLaysOut(connect: bool, buf: string, k: Scan)
    requires IsScanned(connect, buf, |buf|, k) && !k.s.UrlDead? && (SchemaField in k.fields ==> HostField in k.fields)
    ensures
      var m := k.fields;
      var auth := AuthorityEnd(m);
      var query := QueryEnd(buf, m);
      var hashes := if FragmentField in m then m[FragmentField].off else |buf|;
      && auth <= |buf| && QueryOk(buf, m) && m.Keys <= FIRST_FIELDS && query <= |buf|
      && AreHashes(buf, query, hashes) && PathEnd(m) <= |buf|
      && (FragmentField in m ==> query < hashes && m[FragmentField].len > 0 && EndOf(m, FragmentField) == |buf|)
  {
  }

  lemma NoHostLaysOut(connect: bool, buf: string, k: Scan)
    requires IsScanned(connect, buf, |buf|, k) && !k.s.UrlDead? && SchemaField !in k.fields && HostField !in k.fields
    ensures IsLaidOut(buf, k.fields, 0)
  {
    ScanLaysOut(connect, buf, k);
    hide IsScanned;
  }

  lemma HostLaysOut(connect: bool, buf: string, k: Scan, h: HostScan)
    requires IsScanned(connect, buf, |buf|, k) && !k.s.UrlDead? && HostField in k.fields
    requires AuthorityEnd(k.fields) <= |buf|
    requires IsHosted(buf, k.at, k.fields, AuthorityEnd(k.fields), h) && EndsHost(h.s)
    ensures IsLaidOut(buf, h.fields, AuthorityEnd(k.fields))
  {
    ScanLaysOut(connect, buf, k);
    EndIsAuthority(buf, k.at, k.fields, AuthorityEnd(k.fields), h);
    hide IsScanned, IsHosted, IsAuthority;
  }

  lemma EndIsAuthority(buf: string, at: bool, m: Fields, p: nat, h: HostScan)
    requires HostField in m && m[HostField].off <= p <= |buf| && IsHosted(buf, at, m, p, h) && EndsHost(h.s)
    ensures IsAuthority(buf, h.fields, m[HostField].off, p) && HostField in h.fields && KeepsRest(m, h.fields)
  {
    hide IsOpenAddress, IsUserinfo;
  }

  /** Where the schema and the authority end. */
  function UrlAuthorityEnd(connect: bool, buf: string): nat {
    AuthorityEnd(ScanTo(connect, buf, |buf|).fields)
  }

  /** An accepted URL is its schema, its authority, its path, its query and its fragment, in this order. */
  lemma SplitLaysOut(connect: bool, buf: string, after: string)
    requires SplitUrl(connect, buf, after).IsUrlOut?
    ensures IsLaidOut(buf, SplitUrl(connect, buf, after).fields, UrlAuthorityEnd(connect, buf))
  {
    hide IsScanned, IsHosted, IsLaidOut, WithPort, ParseUrlChar;
    var k := ScanTo(connect, buf, |buf|);
    ScanIsScanned(connect, buf, |buf|);
    HostFits(connect, buf, |buf|, k);
    WithPortKeeps(connect, buf, after, k.fields);
    var auth := UrlAuthorityEnd(connect, buf);
    if HostField !in k.fields {
      NoHostLaysOut(connect, buf, k);
    } else {
      var h := SplitHost(buf, k.at, k.fields);
      HostIsHosted(buf, k.at, k.fields, auth);
      HostLaysOut(connect, buf, k, h);
      WithPortKeeps(connect, buf, after, h.fields);
    }
  }

  lemma WithPortKeeps(connect: bool, buf: string, after: string, m: Fields)
    ensures WithPort(connect, buf, after, m).IsUrlOut? ==> WithPort(connect, buf, after, m).fields == m
  {
  }

  // ---- What this comes to ----

  /** The order of the fields in a URL. */
  function Rank(f: UrlField): nat {
    match f
    case SchemaField => 0
    case UserinfoField => 1
    case HostField => 2
    case PortField => 3
    case PathField => 4
    case QueryField => 5
    case FragmentField => 6
  }

  predicate IsDelimiter(ch: char) {
    ch == ':' || ch == '/' || ch == '@' || ch == '[' || ch == ']' || ch == '?' || ch == '#'
  }

  predicate Covers(m: Fields, f: UrlField, i: nat) {
    f in m && m[f].off <= i < EndOf(m, f)
  }

  predicate IsCovered(m: Fields, i: nat) {
    exists f :: Covers(m, f, i)
  }

  /** A field that lies between `lo` and `hi`, with delimiters around it. */
  predicate Fills(buf: string, m: Fields, fields: set<UrlField>, lo: nat, hi: nat) {
    && lo <= hi <= |buf|
    && (forall f | f in fields && f in m :: m[f].len > 0 && lo <= m[f].off && EndOf(m, f) <= hi)
    && (forall i | lo <= i < hi :: IsDelimiter(buf[i]) || exists f :: f in fields && Covers(m, f, i))
    && (forall f, g | f in fields && g in fields && f in m && g in m && Rank(f) < Rank(g) :: EndOf(m, f) <= m[g].off)
  }

  /** All fields are within the buffer, one behind the other, and only delimiters are left over. */
  predicate IsPartition(buf: string, m: Fields) {
    && (forall f | f in m :: m[f].len > 0 && EndOf(m, f) <= |buf|)
    && (forall f, g | f in m && g in m && Rank(f) < Rank(g) :: EndOf(m, f) <= m[g].off)
    && (forall i | 0 <= i < |buf| :: IsDelimiter(buf[i]) || IsCovered(m, i))
  }

  lemma UserinfoFills(buf: string, m: Fields, lo: nat, hi: nat)
    requires IsUserinfo(buf, m, lo, hi)
    ensures Fills(buf, m, {UserinfoField}, lo, hi)
  {
    forall i | lo <= i < hi
      ensures IsDelimiter(buf[i]) || exists f :: f in {UserinfoField} && Covers(m, f, i)
    {
      if i < hi - 1 {
        assert Covers(m, UserinfoField, i);
      }
    }
  }

  /** Two stretches side by side. */
  lemma FillsBoth(buf: string, m: Fields, a: set<UrlField>, b: set<UrlField>, lo: nat, mid: nat, hi: nat)
    requires Fills(buf, m, a, lo, mid) && Fills(buf, m, b, mid, hi)
    requires forall f, g | f in a && g in b :: Rank(f) < Rank(g)
    ensures Fills(buf, m, a + b, lo, hi)
  {
    forall i | lo <= i < hi
      ensures IsDelimiter(buf[i]) || exists f :: f in a + b && Covers(m, f, i)
    {
      if i < mid && !IsDelimiter(buf[i]) {
        var f :| f in a && Covers(m, f, i);
        assert f in a + b;
      } else if i >= mid && !IsDelimiter(buf[i]) {
        var f :| f in b && Covers(m, f, i);
        assert f in a + b;
      }
    }
  }

  /** A stretch with one field, and delimiters before and behind it. */
  lemma OneFills(buf: string, m: Fields, f: UrlField, lo: nat, hi: nat)
    requires lo <= hi <= |buf|
    requires f in m ==> m[f].len > 0 && lo <= m[f].off && EndOf(m, f) <= hi
    requires forall i | lo <= i < hi && !(f in m && m[f].off <= i < EndOf(m, f)) :: IsDelimiter(buf[i])
    ensures Fills(buf, m, {f}, lo, hi)
  {
    forall i | lo <= i < hi
      ensures IsDelimiter(buf[i]) || exists g :: g in {f} && Covers(m, g, i)
    {
      if f in m && m[f].off <= i < EndOf(m, f) {
        assert Covers(m, f, i);
      }
    }
  }

  lemma HostFills(buf: string, m: Fields, lo: nat, hi: nat)
    requires IsHost(buf, m, lo, hi)
    ensures Fills(buf, m, {UserinfoField} + {HostField}, lo, hi)
  {
    hide Fills, IsUserinfo;
    if IsHostName(buf, m, lo, hi) {
      UserinfoEnds(buf, m, lo, m[HostField].off);
      UserinfoFills(buf, m, lo, m[HostField].off);
      OneFills(buf, m, HostField, m[HostField].off, hi);
      FillsBoth(buf, m, {UserinfoField}, {HostField}, lo, m[HostField].off, hi);
    } else {
      var mid := m[HostField].off - 1;
      UserinfoEnds(buf, m, lo, mid);
      UserinfoFills(buf, m, lo, mid);
      OneFills(buf, m, HostField, mid, hi);
      FillsBoth(buf, m, {UserinfoField}, {HostField}, lo, mid, hi);
    }
  }

  lemma UserinfoEnds(buf: string, m: Fields, lo: nat, hi: nat)
    requires IsUserinfo(buf, m, lo, hi)
    ensures lo <= hi <= |buf|
  {
  }

  lemma AuthorityFills(buf: string, m: Fields, lo: nat, hi: nat)
    requires IsAuthority(buf, m, lo, hi) && hi <= |buf|
    ensures Fills(buf, m, {UserinfoField} + {HostField} + {PortField}, lo, hi)
  {
    hide Fills, IsHost;
    var mid := if PortField in m then m[PortField].off - 1 else hi;
    HostFills(buf, m, lo, mid);
    OneFills(buf, m, PortField, mid, hi);
    FillsBoth(buf, m, {UserinfoField} + {HostField}, {PortField}, lo, mid, hi);
  }

  lemma SchemaFills(buf: string, m: Fields)
    requires SchemaOk(buf, m)
    ensures Fills(buf, m, {SchemaField}, 0, SchemaEnd(m))
  {
    OneFills(buf, m, SchemaField, 0, SchemaEnd(m));
    hide Fills;
  }

  lemma NothingFills(buf: string, m: Fields, fields: set<UrlField>, at: nat)
    requires at <= |buf| && forall f | f in fields :: f !in m
    ensures Fills(buf, m, fields, at, at)
  {
  }

  /** What `IsLaidOut` says of the fields behind the authority. */
  lemma RestFills(buf: string, m: Fields, auth: nat)
    requires IsLaidOut(buf, m, auth)
    ensures Fills(buf, m, {PathField} + ({QueryField} + {FragmentField}), auth, |buf|)
  {
    hide Fills, IsAuthority, SchemaOk;
    var path := if PathField in m then EndOf(m, PathField) else auth;
    var query := if QueryField in m then EndOf(m, QueryField)
                 else if path < |buf| && buf[path] == '?' then path + 1 else path;
    OneFills(buf, m, PathField, auth, path);
    OneFills(buf, m, QueryField, path, query);
    OneFills(buf, m, FragmentField, query, |buf|);
    FillsBoth(buf, m, {QueryField}, {FragmentField}, path, query, |buf|);
    FillsBoth(buf, m, {PathField}, {QueryField} + {FragmentField}, auth, path, |buf|);
  }

  lemma LaidOutIsPartition(buf: string, m: Fields, auth: nat)
    requires IsLaidOut(buf, m, auth)
    ensures IsPartition(buf, m)
  {
    hide Fills, IsAuthority, SchemaOk;
    var front := {UserinfoField} + {HostField} + {PortField};
    var rest := {PathField} + ({QueryField} + {FragmentField});
    RestFills(buf, m, auth);
    SchemaFills(buf, m);
    if HostField in m {
      AuthorityFills(buf, m, SchemaEnd(m), auth);
    } else {
      NothingFills(buf, m, front, auth);
    }
    FillsBoth(buf, m, {SchemaField}, front, 0, SchemaEnd(m), auth);
    FillsBoth(buf, m, {SchemaField} + front, rest, 0, auth, |buf|);
    var all := {SchemaField} + front + rest;
    forall f: UrlField
      ensures f in all
    {
      AnyField(f);
    }
    FillsAll(buf, m, all);
  }

  lemma AnyField(f: UrlField)
    ensures f == SchemaField || f in {UserinfoField} + {HostField} + {PortField}
      || f in {PathField} + ({QueryField} + {FragmentField})
  {
  }

  lemma FillsAll(buf: string, m: Fields, fields: set<UrlField>)
    requires Fills(buf, m, fields, 0, |buf|) && forall f: UrlField :: f in fields
    ensures IsPartition(buf, m)
  {
    forall i | 0 <= i < |buf|
      ensures IsDelimiter(buf[i]) || IsCovered(m, i)
    {
      if !IsDelimiter(buf[i]) {
        var f :| f in fields && Covers(m, f, i);
      }
    }
  }

  /** The text of a field. */
  function FieldText(buf: string, m: Fields, f: UrlField): string {
    if f in m && EndOf(m, f) <= |buf| then buf[m[f].off..EndOf(m, f)] else ""
  }

  /**
    On success the fields are not empty, within the buffer, disjoint and in order; every byte is
    in one of them or a delimiter; and the port is the number that its digits say, of 16 bits.
   */
  lemma SplitIsPartition(connect: bool, buf: string, after: string)
    requires SplitUrl(connect, buf, after).IsUrlOut? && (after != "" ==> !IsNum(after[0]))
    ensures
      var u := SplitUrl(connect, buf, after);
      && IsPartition(buf, u.fields)
      && (connect ==> u.fields.Keys == {HostField, PortField})
      && (if PortField in u.fields then
            var text := FieldText(buf, u.fields, PortField);
            text != "" && IsLengthText(text) && u.port == Decimal(0, text) < PORT_LIMIT
          else u.port == 0)
  {
    hide IsLaidOut, IsPartition, ScanTo;
    var u := SplitUrl(connect, buf, after);
    var auth := UrlAuthorityEnd(connect, buf);
    SplitLaysOut(connect, buf, after);
    LaidOutIsPartition(buf, u.fields, auth);
    assert u == WithPort(connect, buf, after, u.fields);
    if PortField in u.fields {
      PortIsDigits(buf, u.fields, auth);
      PortEnds(buf, u.fields, auth);
      var off, end := u.fields[PortField].off, EndOf(u.fields, PortField);
      var rest := buf[end..] + after;
      assert buf[off..] + after == buf[off..end] + rest;
      LeadingIsDecimal(0, buf[off..end], rest);
    }
  }

  lemma PortIsDigits(buf: string, m: Fields, auth: nat)
    requires IsLaidOut(buf, m, auth) && PortField in m
    ensures m[PortField].off < EndOf(m, PortField) == auth <= |buf|
    ensures forall ch <- buf[m[PortField].off..auth] :: IsNum(ch)
  {
  }

  /** Behind a port comes a delimiter, or the end. */
  lemma PortEnds(buf: string, m: Fields, auth: nat)
    requires IsLaidOut(buf, m, auth) && PortField in m
    ensures auth < |buf| ==> !IsNum(buf[auth])
  {
  }
}
