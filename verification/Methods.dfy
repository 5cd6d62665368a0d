/** The method of a request: the guesses of `s_req_method` against the table of names. */
module Methods {
  import opened Chars
  import opened ParserTypes
  import opened Transitions
  import opened Machine
  import opened Runs

  /** The method that the parser has in mind after `i` letters of the name of `m`. */
  function GuessedAt(m: Method, i: nat): Method {
    match m
    case PUT => if i < 2 then POST else PUT
    case PATCH => if i < 2 then POST else PATCH
    case PURGE => if i < 2 then POST else if i < 3 then PUT else PURGE
    case PROPFIND => if i < 2 then POST else PROPFIND
    case PROPPATCH => if i < 2 then POST else if i < 5 then PROPFIND else PROPPATCH
    case CHECKOUT => if i < 2 then CONNECT else CHECKOUT
    case COPY => if i < 3 then CONNECT else COPY
    case MOVE => if i < 2 then MKCOL else MOVE
    case MERGE => if i < 2 then MKCOL else MERGE
    case MSEARCH => if i < 2 then MKCOL else MSEARCH
    case MKACTIVITY => if i < 3 then MKCOL else MKACTIVITY
    case MKCALENDAR => if i < 4 then MKCOL else MKCALENDAR
    case SEARCH => if i < 2 then SUBSCRIBE else SEARCH
    case REBIND => if i < 3 then REPORT else REBIND
    case LINK => if i < 2 then LOCK else LINK
    case UNSUBSCRIBE => if i < 3 then UNLOCK else UNSUBSCRIBE
    case UNBIND => if i < 3 then UNLOCK else UNBIND
    case UNLINK => if i < 4 then UNLOCK else UNLINK
    case _ => m
  }

  /** The parser in the middle of a method, `done` being the letters so far. */
  predicate InMethod(p: Parser, done: string) {
    && p.errno == OK && p.state == Line(ReqMethod)
    && 1 <= p.index == |done| <= |MethodName(p.verb)| && done == MethodName(p.verb)[..|done|]
  }

  lemma FirstLetter(ch: char)
    ensures FirstGuess(ch).Guess? ==> MethodName(FirstGuess(ch).m)[0] == ch
  {
  }

  /** A guess that is changed agrees with the letters read before, and with this one. */
  lemma NextLetter(m: Method, i: nat, ch: char)
    requires NextGuess(m, i, ch).Guess? && 1 <= i <= |MethodName(m)|
    ensures
      var n := MethodName(NextGuess(m, i, ch).m);
      i < |n| && n[i] == ch && n[..i] == MethodName(m)[..i]
  {
    var n := MethodName(NextGuess(m, i, ch).m);
    if i == 1 {
    } else if i == 2 {
    } else if i == 3 {
    } else {
      assert i == 4;
    }
  }

  /** Where the letters of `m` are read, the guess goes the way to `m`. */
  lemma LetterOf(m: Method, i: nat)
    requires 1 <= i < |MethodName(m)|
    ensures
      var g := GuessedAt(m, i);
      var ch := MethodName(m)[i];
      if GuessedAt(m, i + 1) == g then CharAt(MethodName(g), i) == ch
      else CharAt(MethodName(g), i) != ch && NextGuess(g, i, ch) == Guess(GuessedAt(m, i + 1))
  {
    if GuessedAt(m, i) != m {
      if i == 1 {
      } else if i == 2 {
      } else if i == 3 {
      } else {
        assert i == 4;
      }
    }
  }

  lemma NamesHaveNoSpace(m: Method)
    ensures ' ' !in MethodName(m) && '\0' !in MethodName(m)
    ensures GuessedAt(m, |MethodName(m)|) == m && |MethodName(m)| <= 12
  {
    NamesAreLetters(m);
    hide MethodName, GuessedAt;
    NamesAreGuessed(m);
  }

  predicate IsLetters(s: string) {
    forall ch <- s :: '-' <= ch
  }

  lemma NamesAreLetters(m: Method)
    ensures IsLetters(MethodName(m))
  {
  }

  lemma NamesAreGuessed(m: Method)
    ensures GuessedAt(m, |MethodName(m)|) == m && |MethodName(m)| <= 12
  {
  }

  lemma OnMethodIs(p: Parser, skipping: bool, ch: char)
    requires p.state == Line(ReqMethod)
    ensures Transition(p, skipping, ch) == OnMethod(p, ch)
  {
    hide OnMethod;
  }

  /** One more letter of a method: it is refused, or the invariant goes on. */
  lemma MethodByte(p: Parser, done: string, ch: char)
    requires InMethod(p, done) && ch != ' '
    ensures
      var o := OnMethod(p, ch);
      o.p.errno == OK ==>
        InMethod(o.p, done + [ch]) && o == Stay(p.(verb := o.p.verb, index := p.index + 1))
  {
    hide MethodName, NextGuess;
    var i := p.index;
    if CharAt(MethodName(p.verb), i) != ch && NextGuess(p.verb, i, ch).Guess? {
      NextLetter(p.verb, i, ch);
    }
  }

  /** The space behind a method is accepted only if a name is complete. */
  lemma MethodEnds(p: Parser, done: string)
    requires InMethod(p, done)
    ensures
      var o := OnMethod(p, ' ');
      if done == MethodName(p.verb) then o == To(p.(index := p.index + 1), Line(ReqSpacesBeforeUrl))
      else o.p.errno != OK
  {
    hide MethodName;
    var name, i := MethodName(p.verb), p.index;
    NamesHaveNoSpace(p.verb);
    if i < |name| {
      assert name[i] in name;
      NoGuessOnSpace(p.verb, i);
    }
  }

  lemma NoGuessOnSpace(m: Method, i: nat)
    ensures NextGuess(m, i, ' ').NoGuess?
  {
  }

  lemma MethodByteOf(p: Parser, m: Method)
    requires p.errno == OK && p.state == Line(ReqMethod) && 1 <= p.index < |MethodName(m)|
    requires p.verb == GuessedAt(m, p.index)
    ensures OnMethod(p, MethodName(m)[p.index]) == Stay(p.(verb := GuessedAt(m, p.index + 1), index := p.index + 1))
  {
    hide MethodName, GuessedAt, NextGuess;
    NamesHaveNoSpace(m);
    LetterOf(m, p.index);
    assert MethodName(m)[p.index] in MethodName(m);
  }

  /** The parser behind a method and the space after it. */
  function AfterMethod(p: Parser, m: Method): Parser {
    p.(state := Line(ReqSpacesBeforeUrl), verb := m, index := |MethodName(m)| + 1)
  }

  /** From the middle of a method, what follows is accepted only if it makes up a name. */
  lemma {:induction false} OnlyNames(c: Core, done: string, rest: string)
    requires InMethod(c.p, done) && !c.halted && ' ' !in rest
    requires Run(c, rest + " ").c.p.errno == OK
    ensures exists m :: done + rest == MethodName(m)
    decreases |rest|
  {
    hide Transition, OnMethod, MethodName;
    var ch := (rest + " ")[0];
    OnMethodIs(c.p, c.skipping, ch);
    var d := Step(c, ch).c;
    if rest == "" {
      assert rest + " " == [ch] && [ch][1..] == "" && done + rest == done;
      MethodEnds(c.p, done);
      assert Run(d, "") == RunOut(d, [], 0);
    } else {
      assert (rest + " ")[1..] == rest[1..] + " ";
      MethodByte(c.p, done, ch);
      RunStopped(d, rest[1..] + " ");
      OnlyNames(d, done + [ch], rest[1..]);
      assert done + [ch] + rest[1..] == done + rest;
    }
  }

  /** From the middle of the name of `m`, the rest of it is accepted. */
  lemma {:induction false} RestOfMethod(c: Core, m: Method, i: nat)
    requires Going(c) && c.p.state == Line(ReqMethod) && c.p.index == i && c.p.verb == GuessedAt(m, i)
    requires 1 <= i <= |MethodName(m)| && c.slice.Closed?
    ensures ReadsHead(c, MethodName(m)[i..] + " ", AfterMethod(c.p, m), Closed, [])
    decreases |MethodName(m)| - i
  {
    hide Transition, OnMethod, MethodName, GuessedAt, Run;
    var name := MethodName(m);
    NamesHaveNoSpace(m);
    if i == |name| {
      assert name[i..] + " " == " ";
      OnMethodIs(c.p, c.skipping, ' ');
      MethodEnds(c.p, name);
      ReadsByte(c, ' ', OnMethod(c.p, ' '));
    } else {
      OnMethodIs(c.p, c.skipping, name[i]);
      MethodByteOf(c.p, m);
      var q := c.p.(verb := GuessedAt(m, i + 1), index := i + 1);
      ReadsByte(c, name[i], Stay(q));
      RestOfMethod(Step(c, name[i]).c, m, i + 1);
      assert name[i..] + " " == [name[i]] + (name[i + 1..] + " ");
      ReadsHeadBoth(c, [name[i]], q, Closed, [], name[i + 1..] + " ", AfterMethod(c.p, m), Closed, []);
    }
  }

  lemma OnStartIs(p: Parser, skipping: bool, ch: char)
    requires p.state == Idle(StartReq)
    ensures Transition(p, skipping, ch) == OnStartReq(p, ch)
  {
    hide OnStartReq;
  }

  function AtStart(p: Parser): Parser {
    p.(flags := NO_FLAGS, contentLength := NO_LENGTH)
  }

  /** The parser behind the first letter of the name of `m`. */
  function Started(p: Parser, m: Method): Parser {
    AtStart(p).(state := Line(ReqMethod), verb := GuessedAt(m, 1), index := 1)
  }

  lemma MethodStarts(p: Parser, skipping: bool, m: Method)
    requires p.state == Idle(StartReq) && MethodName(m) != ""
    ensures Transition(p, skipping, MethodName(m)[0]) == ToTelling(Started(p, m), Line(ReqMethod), [MessageBegin])
    ensures AtStart(p).errno == p.errno
  {
    hide MethodName, FirstGuess, Transition, GuessedAt;
    NameStarts(m);
    OnStartIs(p, skipping, MethodName(m)[0]);
  }

  /** From the start of a request, the name of `m` and a space are read, and `m` is the method. */
  lemma MethodIsRead(c: Core, m: Method)
    requires Going(c) && c.p.state == Idle(StartReq) && c.slice.Closed?
    ensures ReadsHead(c, MethodName(m) + " ", AfterMethod(AtStart(c.p), m), Closed, [MessageBegin])
  {
    hide Clean, Step, Transition, OnStartReq, OnMethod, MethodName, GuessedAt, Run, AtStart;
    var name := MethodName(m);
    NameStarts(m);
    MethodStarts(c.p, c.skipping, m);
    var q := Started(c.p, m);
    ReadsByte(c, name[0], ToTelling(q, Line(ReqMethod), [MessageBegin]));
    var d := Run(c, [name[0]]).c;
    assert d.p == q && d.slice.Closed? && Going(d);
    RestOfMethod(d, m, 1);
    assert name + " " == [name[0]] + (name[1..] + " ");
    ReadsHeadBoth(c, [name[0]], q, Closed, [MessageBegin],
                  name[1..] + " ", AfterMethod(AtStart(c.p), m), Closed, []);
  }

  lemma NameStarts(m: Method)
    ensures |MethodName(m)| >= 3 && MethodName(m)[0] != CR && MethodName(m)[0] != LF
    ensures FirstGuess(MethodName(m)[0]) == Guess(GuessedAt(m, 1))
  {
  }

  /** A word and a space are accepted exactly if the word is the name of a method. */
  lemma WordIsAName(c: Core, word: string)
    requires Going(c) && c.p.state == Idle(StartReq) && c.slice.Closed?
    requires word != "" && word[0] != CR && word[0] != LF && ' ' !in word
    ensures Run(c, word + " ").c.p.errno == OK <==> exists m :: word == MethodName(m)
    ensures forall m | word == MethodName(m) ::
      Run(c, word + " ").c.p.state == Line(ReqSpacesBeforeUrl) && Run(c, word + " ").c.p.verb == m
  {
    hide Transition, OnMethod, MethodName, GuessedAt, Run, FirstGuess;
    forall m | word == MethodName(m)
      ensures Run(c, word + " ").c.p == AfterMethod(AtStart(c.p), m) && AtStart(c.p).errno == OK
    {
      MethodIsRead(c, m);
    }
    if Run(c, word + " ").c.p.errno == OK {
      OnStartIs(c.p, c.skipping, word[0]);
      assert (word + " ")[1..] == word[1..] + " ";
      var d := Step(c, word[0]).c;
      RunUnfolds(c, word + " ");
      RunStopped(d, word[1..] + " ");
      FirstLetter(word[0]);
      assert InMethod(d.p, [word[0]]) by { NamesHaveNoSpace(d.p.verb); NameStarts(d.p.verb); }
      OnlyNames(d, [word[0]], word[1..]);
      assert [word[0]] + word[1..] == word;
    }
  }

  /** The methods and their names, in the order of their numbers. */
  const METHOD_TABLE: seq<(Method, string)> := [
    (DELETE, "DELETE"), (GET, "GET"), (HEAD, "HEAD"), (POST, "POST"), (PUT, "PUT"), (CONNECT, "CONNECT"),
    (OPTIONS, "OPTIONS"), (TRACE, "TRACE"), (COPY, "COPY"), (LOCK, "LOCK"), (MKCOL, "MKCOL"), (MOVE, "MOVE"),
    (PROPFIND, "PROPFIND"), (PROPPATCH, "PROPPATCH"), (SEARCH, "SEARCH"), (UNLOCK, "UNLOCK"), (BIND, "BIND"),
    (REBIND, "REBIND"), (UNBIND, "UNBIND"), (ACL, "ACL"), (REPORT, "REPORT"), (MKACTIVITY, "MKACTIVITY"),
    (CHECKOUT, "CHECKOUT"), (MERGE, "MERGE"), (MSEARCH, "M-SEARCH"), (NOTIFY, "NOTIFY"),
    (SUBSCRIBE, "SUBSCRIBE"), (UNSUBSCRIBE, "UNSUBSCRIBE"), (PATCH, "PATCH"), (PURGE, "PURGE"),
    (MKCALENDAR, "MKCALENDAR"), (LINK, "LINK"), (UNLINK, "UNLINK")
  ]

  lemma NameIsListed(m: Method)
    ensures (m, MethodName(m)) in METHOD_TABLE
  {
    var k := Number(m);
    assert METHOD_TABLE[k] == (m, MethodName(m));
  }

  /** The number of a method. */
  function Number(m: Method): (k: nat)
    ensures k < 33
  {
    match m
    case DELETE => 0
    case GET => 1
    case HEAD => 2
    case POST => 3
    case PUT => 4
    case CONNECT => 5
    case OPTIONS => 6
    case TRACE => 7
    case COPY => 8
    case LOCK => 9
    case MKCOL => 10
    case MOVE => 11
    case PROPFIND => 12
    case PROPPATCH => 13
    case SEARCH => 14
    case UNLOCK => 15
    case BIND => 16
    case REBIND => 17
    case UNBIND => 18
    case ACL => 19
    case REPORT => 20
    case MKACTIVITY => 21
    case CHECKOUT => 22
    case MERGE => 23
    case MSEARCH => 24
    case NOTIFY => 25
    case SUBSCRIBE => 26
    case UNSUBSCRIBE => 27
    case PATCH => 28
    case PURGE => 29
    case MKCALENDAR => 30
    case LINK => 31
    case UNLINK => 32
  }

  lemma ListedIsName(m: Method, word: string)
    requires (m, word) in METHOD_TABLE
    ensures word == MethodName(m)
  {
    var k :| 0 <= k < |METHOD_TABLE| && METHOD_TABLE[k] == (m, word);
    NameAt(k);
  }

  lemma NameAt(k: nat)
    requires k < 33
    ensures METHOD_TABLE[k].1 == MethodName(METHOD_TABLE[k].0)
  {
    hide MethodName;
    if k < 11 {
      NameAtFirst(k);
    } else if k < 22 {
      NameAtSecond(k);
    } else {
      NameAtThird(k);
    }
  }

  lemma NameAtFirst(k: nat)
    requires k < 11
    ensures METHOD_TABLE[k].1 == MethodName(METHOD_TABLE[k].0)
  {
  }

  lemma NameAtSecond(k: nat)
    requires 11 <= k < 22
    ensures METHOD_TABLE[k].1 == MethodName(METHOD_TABLE[k].0)
  {
  }

  lemma NameAtThird(k: nat)
    requires 22 <= k < 33
    ensures METHOD_TABLE[k].1 == MethodName(METHOD_TABLE[k].0)
  {
  }

  /** A word and a space are accepted at the start of a request exactly if the word stands in the table. */
  lemma MethodIsAName(c: Core, word: string)
    requires Going(c) && c.p.state == Idle(StartReq) && c.slice.Closed?
    requires word != "" && word[0] != CR && word[0] != LF && ' ' !in word
    ensures Run(c, word + " ").c.p.errno == OK <==> exists m: Method :: (m, word) in METHOD_TABLE
    ensures forall m: Method | (m, word) in METHOD_TABLE ::
      Run(c, word + " ").c.p.state == Line(ReqSpacesBeforeUrl) && Run(c, word + " ").c.p.verb == m
  {
    hide Transition, MethodName, Run;
    WordIsAName(c, word);
    forall m: Method | (m, word) in METHOD_TABLE
      ensures word == MethodName(m)
    {
      ListedIsName(m, word);
    }
    forall m: Method | word == MethodName(m)
      ensures (m, word) in METHOD_TABLE
    {
      NameIsListed(m);
    }
  }

  lemma RunUnfolds(c: Core, data: string)
    requires data != "" && Going(c)
    ensures Run(c, data).c == Run(Step(c, data[0]).c, data[1..]).c
  {
    hide Step;
  }
}
