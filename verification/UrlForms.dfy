/** Which URLs a request line may hold, by their letters and not by the automaton. */
module UrlForms {
  import opened Chars
  import opened Alphabets
  import opened ParserTypes
  import opened Transitions
  import opened Lines

  /** From the first slash or question mark on, every printable character may stand. */
  predicate IsTail(t: string) {
    forall i | 0 <= i < |t| :: IsPrintable(t[i])
  }

  /** The characters of an authority: letters, digits, marks, brackets and the sign at. */
  predicate IsServerChar(c: char) {
    IsLetter(c) || c in DIGITS || c in "-_.!~*'()" || c in "%;:&=+$," || c in "[]@"
  }

  /** An authority as the request line takes it: no two signs at side by side. */
  predicate IsServer(a: string) {
    && (forall i | 0 <= i < |a| :: IsServerChar(a[i]))
    && forall i | 0 < i < |a| :: !(a[i - 1] == '@' && a[i] == '@')
  }

  /** An authority of `k` characters and a tail; `at` says that a sign at stands in front. */
  predicate IsServerTo(at: bool, s: string, k: nat)
    requires k <= |s|
  {
    && IsServer(s[..k]) && !(at && k > 0 && s[0] == '@')
    && (k < |s| ==> s[k] == '/' || s[k] == '?') && IsTail(s[k..])
  }

  predicate IsServerForm(at: bool, s: string) {
    exists k | 0 <= k <= |s| :: IsServerTo(at, s, k)
  }

  /** `k` letters, the delimiter, and a server that is not empty. */
  predicate IsSchemaTo(s: string, k: nat)
    requires k <= |s|
  {
    && k > 0 && (forall i | 0 <= i < k :: IsLetter(s[i]))
    && "://" <= s[k..] && s[k + 3..] != "" && IsServerForm(false, s[k + 3..])
  }

  /** A path or a star, or a schema and what is behind it. */
  predicate IsUrlForm(s: string) {
    || (s != "" && (s[0] == '/' || s[0] == '*') && IsTail(s[1..]))
    || exists k | 0 <= k <= |s| :: IsSchemaTo(s, k)
  }

  // ---- Tails ----

  predicate InTail(u: UrlState) {
    u.Path? || u.QueryStringStart? || u.QueryString? || u.FragmentStart? || u.Fragment?
  }

  lemma TailByte(u: UrlState, ch: char)
    requires InTail(u)
    ensures if IsPrintable(ch) then InTail(ParseUrlChar(u, ch)) else ParseUrlChar(u, ch) == UrlDead
  {
    PrintablesAre(ch);
    UrlCharsAre(ch);
    hide IsPrintable;
  }

  lemma TailStep(t: string)
    requires t != ""
    ensures IsTail(t) <==> IsPrintable(t[0]) && IsTail(t[1..])
  {
    hide IsPrintable;
    if IsPrintable(t[0]) && IsTail(t[1..]) {
      assert forall i | 0 < i < |t| :: t[i] == t[1..][i - 1];
    }
  }

  lemma {:induction false} TailRun(u: UrlState, t: string)
    requires InTail(u)
    ensures !UrlMustGoOn(UrlRun(u, t)) <==> IsTail(t)
    decreases |t|
  {
    hide ParseUrlChar, IsPrintable;
    if t != "" {
      TailByte(u, t[0]);
      TailStep(t);
      if IsPrintable(t[0]) {
        TailRun(ParseUrlChar(u, t[0]), t[1..]);
      } else {
        DeadStaysDead(t[1..]);
      }
    }
  }

  // ---- Servers ----

  predicate InServer(u: UrlState) {
    u.ServerStart? || u.Server? || u.ServerWithAt?
  }

  lemma ServerByte(u: UrlState, ch: char)
    requires InServer(u)
    ensures
      var next := ParseUrlChar(u, ch);
      if ch == '/' || ch == '?' then InTail(next)
      else if IsServerChar(ch) && !(u.ServerWithAt? && ch == '@') then
        next == if ch == '@' then ServerWithAt else Server
      else next == UrlDead
  {
    ServerCharsAre(ch);
    hide IsServerChar;
  }

  lemma ServerCharsAre(c: char)
    ensures IsServerChar(c) <==> IsUserinfoChar(c) || c == '[' || c == ']' || c == '@'
  {
    UserinfoCharsAre(c);
    hide IsLetter, IsUserinfoChar;
  }

  lemma SlashEndsServer()
    ensures !IsServerChar('/') && !IsServerChar('?') && IsPrintable('/') && IsPrintable('?')
  {
    ServerCharsAre('/');
    ServerCharsAre('?');
    PrintablesAre('/');
    PrintablesAre('?');
    hide IsServerChar, IsPrintable;
  }

  /** One character of a server. */
  lemma ServerStep(at: bool, s: string)
    requires s != ""
    ensures IsServerForm(at, s) <==>
      || ((s[0] == '/' || s[0] == '?') && IsTail(s))
      || (IsServerChar(s[0]) && !(at && s[0] == '@') && IsServerForm(s[0] == '@', s[1..]))
  {
    hide IsServerChar, IsPrintable, IsTail;
    SlashEndsServer();
    if IsServerForm(at, s) {
      var k :| 0 <= k <= |s| && IsServerTo(at, s, k);
      if k == 0 {
        assert s[0..] == s;
      } else {
        ServerTakes(at, s, k);
        assert s[..k][0] == s[0];
        assert IsServerForm(s[0] == '@', s[1..]);
      }
    }
    if (s[0] == '/' || s[0] == '?') && IsTail(s) {
      assert s[..0] == "" && s[0..] == s;
      assert IsServerTo(at, s, 0);
    }
    if IsServerChar(s[0]) && !(at && s[0] == '@') && IsServerForm(s[0] == '@', s[1..]) {
      var k :| 0 <= k <= |s[1..]| && IsServerTo(s[0] == '@', s[1..], k);
      ServerTakes(at, s, k + 1);
    }
  }

  lemma ServerTakes(at: bool, s: string, k: nat)
    requires 0 < k <= |s|
    ensures IsServerTo(at, s, k) <==>
      IsServerChar(s[0]) && !(at && s[0] == '@') && IsServerTo(s[0] == '@', s[1..], k - 1)
  {
    hide IsServerChar, IsTail;
    var a, b := s[..k], s[1..][..k - 1];
    assert s[1..][k - 1..] == s[k..];
    assert a == [s[0]] + b;
    if IsServer(b) && IsServerChar(s[0]) && !(s[0] == '@' && k > 1 && b[0] == '@') {
      forall i | 0 <= i < |a|
        ensures IsServerChar(a[i]) && (i > 0 ==> !(a[i - 1] == '@' && a[i] == '@'))
      {
        if i > 0 { assert a[i] == b[i - 1]; }
        if i > 1 { assert a[i - 1] == b[i - 2]; }
      }
    }
    if IsServer(a) {
      assert a[0] == s[0];
      forall i | 0 <= i < |b|
        ensures IsServerChar(b[i]) && (i > 0 ==> !(b[i - 1] == '@' && b[i] == '@'))
      {
        assert b[i] == a[i + 1];
        if i > 0 { assert b[i - 1] == a[i]; }
      }
    }
  }

  lemma {:induction false} ServerRun(u: UrlState, s: string)
    requires InServer(u)
    ensures !UrlMustGoOn(UrlRun(u, s)) <==> !(u.ServerStart? && s == "") && IsServerForm(u.ServerWithAt?, s)
    decreases |s|
  {
    hide ParseUrlChar, IsServerForm, IsServerChar;
    if s == "" {
      EmptyIsServer(u.ServerWithAt?);
    } else {
      ServerByte(u, s[0]);
      ServerStep(u.ServerWithAt?, s);
      SlashEndsServer();
      TailStep(s);
      var next := ParseUrlChar(u, s[0]);
      if s[0] == '/' || s[0] == '?' {
        hide IsTail;
        TailRun(next, s[1..]);
      } else if next.UrlDead? {
        DeadStaysDead(s[1..]);
      } else {
        ServerRun(next, s[1..]);
      }
    }
  }

  lemma EmptyIsServer(at: bool)
    ensures IsServerForm(at, "")
  {
    assert IsServerTo(at, "", 0);
  }

  /** What a CONNECT request may ask for: an authority, perhaps with a tail, that is not empty. */
  lemma TunnelUrlsAre(s: string)
    ensures IsUrlFrom(UrlStart(CONNECT), s) <==> s != "" && IsServerForm(false, s)
  {
    hide IsServerForm;
    ServerRun(ServerStart, s);
  }

  // ---- Schemas ----

  lemma LettersAre(c: char)
    ensures IsLetter(c) ==> c != '/' && c != '*' && c != ':' && c != '@'
  {
    AlphasAre(c);
    hide IsLetter;
  }

  lemma SchemaByte(u: UrlState, ch: char)
    requires u.BeforeUrl? || u.Schema? || u.SchemaSlash? || u.SchemaSlashSlash?
    ensures
      var next := ParseUrlChar(u, ch);
      match u
      case BeforeUrl =>
        if ch == '/' || ch == '*' then next.Path? else if IsLetter(ch) then next.Schema? else next.UrlDead?
      case Schema => if IsLetter(ch) then next.Schema? else if ch == ':' then next.SchemaSlash? else next.UrlDead?
      case SchemaSlash => if ch == '/' then next.SchemaSlashSlash? else next.UrlDead?
      case _ => if ch == '/' then next.ServerStart? else next.UrlDead?
  {
    AlphasAre(ch);
    hide IsLetter;
  }

  /** Behind the schema's letters. */
  lemma ColonRun(s: string)
    ensures !UrlMustGoOn(UrlRun(Schema, s)) && s != "" && s[0] == ':' <==>
      "://" <= s && s[3..] != "" && IsServerForm(false, s[3..])
  {
    hide ParseUrlChar, IsServerForm, IsLetter;
    if s != "" && s[0] == ':' {
      LettersAre(':');
      SchemaByte(Schema, ':');
      var t := s[1..];
      assert UrlRun(Schema, s) == UrlRun(SchemaSlash, t);
      if t != "" {
        DeadStaysDead(t[1..]);
        SchemaByte(SchemaSlash, t[0]);
        var v := t[1..];
        if t[0] == '/' && v != "" {
          assert UrlRun(SchemaSlash, t) == UrlRun(SchemaSlashSlash, v);
          SchemaByte(SchemaSlashSlash, v[0]);
          DeadStaysDead(v[1..]);
          if v[0] == '/' {
            assert v[1..] == s[3..] && s == "://" + s[3..];
            ServerRun(ServerStart, v[1..]);
          }
        }
      }
    }
  }

  /** From the middle of a schema: some more letters, the delimiter, and a server. */
  predicate IsSchemaRest(s: string, k: nat)
    requires k <= |s|
  {
    && (forall i | 0 <= i < k :: IsLetter(s[i]))
    && "://" <= s[k..] && s[k + 3..] != "" && IsServerForm(false, s[k + 3..])
  }

  predicate IsSchemaForm(s: string) {
    exists k | 0 <= k <= |s| :: IsSchemaRest(s, k)
  }

  lemma SchemaStep(s: string)
    requires s != ""
    ensures IsSchemaForm(s) <==>
      || ("://" <= s && s[3..] != "" && IsServerForm(false, s[3..]))
      || (IsLetter(s[0]) && IsSchemaForm(s[1..]))
  {
    hide IsLetter, IsServerForm;
    if IsSchemaForm(s) {
      var k :| 0 <= k <= |s| && IsSchemaRest(s, k);
      if k == 0 {
        assert s[0..] == s;
      } else {
        SchemaTakes(s, k);
        assert IsSchemaRest(s[1..], k - 1);
      }
    }
    if "://" <= s && s[3..] != "" && IsServerForm(false, s[3..]) {
      assert s[0..] == s;
      assert IsSchemaRest(s, 0);
    }
    if IsLetter(s[0]) && IsSchemaForm(s[1..]) {
      var k :| 0 <= k <= |s[1..]| && IsSchemaRest(s[1..], k);
      SchemaTakes(s, k + 1);
      assert IsSchemaRest(s, k + 1);
    }
  }

  lemma SchemaTakes(s: string, k: nat)
    requires 0 < k <= |s|
    ensures IsSchemaRest(s, k) <==> IsLetter(s[0]) && IsSchemaRest(s[1..], k - 1)
  {
    hide IsLetter, IsServerForm;
    var t := s[1..];
    assert t[k - 1..] == s[k..];
    assert k + 3 <= |s| ==> t[k - 1 + 3..] == s[k + 3..];
    if forall i | 0 <= i < k :: IsLetter(s[i]) {
      assert forall i | 0 <= i < k - 1 :: t[i] == s[i + 1];
    }
    if IsLetter(s[0]) && forall i | 0 <= i < k - 1 :: IsLetter(t[i]) {
      assert forall i | 0 < i < k :: s[i] == t[i - 1];
    }
  }

  lemma {:induction false} SchemaRun(s: string)
    ensures !UrlMustGoOn(UrlRun(Schema, s)) <==> IsSchemaForm(s)
    decreases |s|
  {
    hide ParseUrlChar, IsSchemaForm, IsLetter, IsServerForm;
    if s == "" {
      NoSchema();
    } else {
      SchemaStep(s);
      ColonRun(s);
      SchemaByte(Schema, s[0]);
      LettersAre(s[0]);
      if IsLetter(s[0]) {
        SchemaRun(s[1..]);
      } else if s[0] != ':' {
        DeadStaysDead(s[1..]);
      }
    }
  }

  lemma NoSchema()
    ensures !IsSchemaForm("")
  {
  }

  /** The URLs of a request line, for any method but CONNECT. */
  lemma UrlsAre(s: string)
    ensures IsUrl(s) <==> IsUrlForm(s)
  {
    hide ParseUrlChar, IsLetter, IsServerForm, IsTail, IsSchemaForm;
    if s == "" {
    } else {
      SchemaByte(BeforeUrl, s[0]);
      LettersAre(s[0]);
      FirstOfSchema(s);
      if s[0] == '/' || s[0] == '*' {
        TailRun(Path, s[1..]);
      } else if IsLetter(s[0]) {
        SchemaRun(s[1..]);
      } else {
        DeadStaysDead(s[1..]);
      }
    }
  }

  lemma FirstOfSchema(s: string)
    requires s != ""
    ensures (exists k | 0 <= k <= |s| :: IsSchemaTo(s, k)) <==> IsLetter(s[0]) && IsSchemaForm(s[1..])
  {
    hide IsLetter, IsServerForm;
    if exists k | 0 <= k <= |s| :: IsSchemaTo(s, k) {
      var k :| 0 <= k <= |s| && IsSchemaTo(s, k);
      SchemaTakes(s, k);
      assert IsSchemaRest(s[1..], k - 1);
    }
    if IsLetter(s[0]) && IsSchemaForm(s[1..]) {
      var k :| 0 <= k <= |s[1..]| && IsSchemaRest(s[1..], k);
      SchemaTakes(s, k + 1);
      assert IsSchemaTo(s, k + 1);
    }
  }
}
