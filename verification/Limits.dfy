/**
  Where a call notices that the header limit is passed.

  The byte machine counts every byte as it comes. A call looks at the count before the first byte
  of a name or a value and behind the last one that it has, and not in between; and a value whose
  line does not end within 80K is passed over to the end of the buffer.
 */
module Limits {
  import opened Chars
  import opened ParserTypes
  import opened Transitions
  import opened Machine

  predicate NoLineEnd(data: string) {
    CR !in data && LF !in data
  }

  /** The byte does not belong to the name or the value that it stands behind. */
  predicate Leaves(p: Parser, ch: char) {
    if p.state == Head(HeaderField) then !IsToken(ch) else ch == CR || ch == LF
  }

  /** The count is looked at here, and is too high. */
  predicate Exceeds(c: Core, ch: char) {
    ParsingHeader(c.p.state) && (!c.inside || Leaves(c.p, ch)) && Counted(c) > MAX_HEADER_SIZE
  }

  /** The end of a value is looked for, and not found. */
  predicate Jumps(c: Core, data: string) {
    && c.p.state == Head(HeaderValue) && c.p.hstate.General? && !c.skipping
    && |data| > MAX_HEADER_SIZE && IsHeaderChar(data[0]) && NoLineEnd(data[..MAX_HEADER_SIZE])
  }

  /** The place in the input, the callbacks made before, and the parser that is left but for its error. */
  datatype Notice = Unnoticed | Noticed(n: nat, told: seq<Event>, p: Parser)

  function Later(events: seq<Event>, k: nat, x: Notice): Notice {
    match x
    case Unnoticed => Unnoticed
    case Noticed(n, told, p) => Noticed(k + n, events + told, p)
  }

  /** At a CR a value is handed over before the count is looked at. */
  predicate HandsOver(c: Core, ch: char) {
    c.inside && c.p.state == Head(HeaderValue) && ch == CR
  }

  /** Where a call on `data` notices the limit. */
  function Limit(c: Core, data: string): Notice
    decreases |data|
  {
    if !Going(c) then Unnoticed
    else if data == "" then if c.inside && c.nread + 1 > MAX_HEADER_SIZE then Noticed(0, [], c.p) else Unnoticed
    else if Exceeds(c, data[0]) then
      if HandsOver(c, data[0]) then Noticed(0, Rest(c.slice), c.p.(state := Head(HeaderAlmostDone)))
      else Noticed(0, [], c.p)
    else if Jumps(c, data) then Noticed(|data|, [], c.p)
    else
      var o := Step(c, data[0]);
      if o.c.p.errno != OK then Unnoticed else Later(o.events, 1, Limit(o.c, data[1..]))
  }

  lemma LaterTwice(a: seq<Event>, i: nat, b: seq<Event>, j: nat, x: Notice)
    ensures Later(a, i, Later(b, j, x)) == Later(a + b, i + j, x)
  {
    if x.Noticed? {
      assert a + (b + x.told) == a + b + x.told;
    }
  }

  lemma LaterNothing(x: Notice)
    ensures Later([], 0, x) == x
  {
    if x.Noticed? {
      assert [] + x.told == x.told;
    }
  }

  lemma LimitOne(c: Core, data: string, p: nat)
    requires p < |data| && Going(c) && !Exceeds(c, data[p]) && !Jumps(c, data[p..])
    ensures
      var o := Step(c, data[p]);
      Limit(c, data[p..]) == if o.c.p.errno == OK then Later(o.events, 1, Limit(o.c, data[p + 1..])) else Unnoticed
  {
    hide Step;
    assert data[p..][1..] == data[p + 1..];
  }
}
