/** Runs over known input: how the parts of a message, read one after the other, add up. */
module Runs {
  import opened ParserTypes
  import opened Transitions
  import opened Machine

  /** All of `data` is taken, and leaves `p`, `slice` and `events`; what is in values may stand there. */
  predicate Reads(c: Core, data: string, p: Parser, slice: Slice, events: seq<Event>) {
    var r := Run(c, data);
    && r.c.p == p && p.errno == OK && !r.c.halted && r.c.slice == slice
    && r.events == events && r.used == |data|
    && Clean(c, data)
  }

  /** The same within a header: every byte is counted, and the limit is not exceeded. */
  predicate ReadsHead(c: Core, data: string, p: Parser, slice: Slice, events: seq<Event>) {
    && Reads(c, data, p, slice, events)
    && Run(c, data).c.nread == c.nread + |data|
    && (!c.over && c.nread + |data| <= MAX_HEADER_SIZE ==> !Run(c, data).c.over)
  }

  lemma ReadsNothing(c: Core)
    requires Going(c)
    ensures ReadsHead(c, "", c.p, c.slice, [])
  {
  }

  lemma ReadsHeadTo(c: Core, data: string, p: Parser, slice: Slice, events: seq<Event>)
    requires ReadsHead(c, data, p, slice, events)
    ensures Run(c, data).c.p == p && Run(c, data).c.slice == slice
  {
    hide Run;
  }

  lemma ReadsBoth(c: Core, a: string, p: Parser, s: Slice, x: seq<Event>,
                  b: string, q: Parser, t: Slice, y: seq<Event>)
    requires Reads(c, a, p, s, x) && Reads(Run(c, a).c, b, q, t, y)
    ensures Reads(c, a + b, q, t, x + y)
    ensures Run(c, a + b).c == Run(Run(c, a).c, b).c
  {
    hide Run;
    RunAppend(c, a, b);
    CleanAppend(c, a, b);
  }

  lemma ReadsHeadBoth(c: Core, a: string, p: Parser, s: Slice, x: seq<Event>,
                      b: string, q: Parser, t: Slice, y: seq<Event>)
    requires ReadsHead(c, a, p, s, x) && ReadsHead(Run(c, a).c, b, q, t, y)
    ensures ReadsHead(c, a + b, q, t, x + y)
    ensures Run(c, a + b).c == Run(Run(c, a).c, b).c
  {
    hide Run;
    ReadsBoth(c, a, p, s, x, b, q, t, y);
  }

  /** A byte that is taken, but for what becomes of the marks. */
  predicate Takes(c: Core, ch: char, o: Outcome) {
    Going(c) && Transition(c.p, c.skipping, ch) == o && o.p.errno == OK && !o.halt && CleanByte(c.p, ch)
  }

  lemma ReadsByte(c: Core, ch: char, o: Outcome)
    requires Takes(c, ch, o)
    ensures Run(c, [ch]).c == Step(c, ch).c
    ensures
      var (s, events) := Hand(c.slice, o.flush, ch);
      Reads(c, [ch], o.p, Extend(s, o.mark, ch), events + o.notes)
    ensures
      var (s, events) := Hand(c.slice, o.flush, ch);
      ParsingHeader(c.p.state) && !o.reset ==>
        ReadsHead(c, [ch], o.p, Extend(s, o.mark, ch), events + o.notes)
  {
    hide Transition, Hand, Extend;
    var d := Step(c, ch);
    assert [ch][1..] == "";
    assert Run(d.c, "") == RunOut(d.c, [], 0) && Clean(d.c, "");
    assert d.events + [] == d.events;
  }
}
