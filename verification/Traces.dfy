/** Callback traces up to where the slices of one kind are cut. */
module Traces {
  import opened ParserTypes
  import opened Transitions
  import opened Machine

  /** One more callback: a slice joins the slice of its kind before it. */
  function Join(t: seq<Event>, e: Event): seq<Event> {
    if e.Data? && t != [] && t[|t| - 1].Data? && t[|t| - 1].kind == e.kind
    then t[..|t| - 1] + [Data(e.kind, t[|t| - 1].bytes + e.bytes)]
    else t + [e]
  }

  function JoinAll(t: seq<Event>, events: seq<Event>): seq<Event>
    decreases |events|
  {
    if events == [] then t else JoinAll(Join(t, events[0]), events[1..])
  }

  /** A trace with adjacent slices of one kind joined. */
  function Normal(events: seq<Event>): seq<Event> {
    JoinAll([], events)
  }

  /** The trace so far, with what is marked. */
  function Show(t: seq<Event>, slice: Slice): seq<Event> {
    match slice
    case Open(kind, bytes) => Join(t, Data(kind, bytes))
    case Closed => t
  }

  lemma JoinTwice(t: seq<Event>, kind: Kind, a: string, b: string)
    ensures Join(Join(t, Data(kind, a)), Data(kind, b)) == Join(t, Data(kind, a + b))
  {
    var u := Join(t, Data(kind, a));
    var v := if t != [] && t[|t| - 1].Data? && t[|t| - 1].kind == kind then t[..|t| - 1] else t;
    var before := if v == t then "" else t[|t| - 1].bytes;
    assert u == v + [u[|u| - 1]] && u[|u| - 1].bytes == before + a;
    assert u[..|u| - 1] == v;
    assert before + a + b == before + (a + b);
  }

  lemma {:induction false} JoinAllAppend(t: seq<Event>, a: seq<Event>, b: seq<Event>)
    ensures JoinAll(t, a + b) == JoinAll(JoinAll(t, a), b)
    decreases |a|
  {
    if a == [] {
      assert a + b == b;
    } else {
      assert (a + b)[1..] == a[1..] + b;
      JoinAllAppend(Join(t, a[0]), a[1..], b);
    }
  }

  lemma JoinOne(t: seq<Event>, e: Event)
    ensures JoinAll(t, [e]) == Join(t, e)
  {
    assert [e][1..] == [];
  }

  /** What one byte adds to a trace, whatever is marked before. */
  function Effect(t: seq<Event>, marked: bool, kind: Kind, o: Outcome, ch: char): seq<Event> {
    var u := if o.flush.Through? then Join(t, Data(o.flush.kind, [ch])) else t;
    var v := JoinAll(u, o.notes);
    if marked then Join(v, Data(kind, [ch])) else v
  }

  /** A slice that may be handed over, or stay marked without any notification. */
  predicate Orderly(slice: Slice, o: Outcome) {
    match slice
    case Closed => true
    case Open(kind, _) => if o.flush.Keep? then o.notes == [] else o.flush.kind == kind && o.mark.NoMark?
  }

  lemma StepShows(t: seq<Event>, slice: Slice, o: Outcome, ch: char)
    requires Orderly(slice, o)
    ensures
      var (s, events) := Hand(slice, o.flush, ch);
      var e := Extend(s, o.mark, ch);
      Show(JoinAll(t, events + o.notes), e)
        == Effect(Show(t, slice), e.Open?, if e.Open? then e.kind else Body, o, ch)
  {
    var (s, events) := Hand(slice, o.flush, ch);
    JoinAllAppend(t, events, o.notes);
    match slice
    case Closed =>
      if o.flush.Through? {
        JoinOne(t, Data(o.flush.kind, [ch]));
      }
    case Open(kind, bytes) =>
      JoinTwice(t, kind, bytes, [ch]);
      if !o.flush.Keep? {
        JoinOne(t, events[0]);
      }
  }

  // ---- Traces that are joined already ----

  predicate Joins(e: Event, f: Event) {
    e.Data? && f.Data? && e.kind == f.kind
  }

  predicate IsJoined(t: seq<Event>) {
    forall i | 0 < i < |t| :: !Joins(t[i - 1], t[i])
  }

  predicate MayFollow(a: seq<Event>, b: seq<Event>) {
    a == [] || b == [] || !Joins(a[|a| - 1], b[0])
  }

  lemma JoinedConcat(a: seq<Event>, b: seq<Event>)
    requires IsJoined(a) && IsJoined(b) && MayFollow(a, b)
    ensures IsJoined(a + b)
  {
  }

  lemma {:induction false} JoinedIsNormal(t: seq<Event>, events: seq<Event>)
    requires IsJoined(t + events)
    ensures JoinAll(t, events) == t + events
    decreases |events|
  {
    if events != [] {
      assert t + events == t + [events[0]] + events[1..];
      assert t != [] ==> !Joins((t + events)[|t| - 1], (t + events)[|t|]);
      JoinedIsNormal(t + [events[0]], events[1..]);
    }
  }
}
