/**
 * What a record says of itself: it begins with a line the sink read, bears
 * that line's stamp and the chunk and window being pushed when it was read,
 * and passes the filter.
 */
module EntryLines {
  import opened Common
  import opened EntryModel
  import opened EntryTape

  /** A line or, where a longer one was cut, a part of one: where it began and what was being pushed. */
  datatype LineRead = LineRead(line: seq<byte>, began: nat, continues: bool, from: Source)

  function Fragments(s: Sink): seq<LineRead>
    decreases |s.line|
  {
    if |s.line| < LINE_CAP then []
    else
      [LineRead(s.line[..LINE_CAP], s.lineBegin, s.midLine, s.cur)]
      + Fragments(s.(line := s.line[LINE_CAP..], lineBegin := s.lineBegin + LINE_CAP, midLine := true))
  }

  function ReadBy(s: Sink, e: Event): seq<LineRead> {
    if e.Byte? && e.b == NEWLINE then [LineRead(s.line + [e.b], s.lineBegin, s.midLine, s.cur)]
    else if e.End? then Fragments(s)
    else []
  }

  /** Every line read over a run, in order. */
  function LinesRead(c: Config, evs: seq<Event>): seq<LineRead> {
    if evs == [] then [] else LinesRead(c, Front(evs)) + ReadBy(Run(c, New, Front(evs)), Last(evs))
  }

  /** The line's own stamp; the rest of a line that was cut has none. */
  function Stamp(c: Config, l: LineRead): Option<nat> {
    if l.continues then None else c.stamp(if |l.line| <= 256 then l.line else l.line[..256])
  }

  /** An entry that begins with a line read, and is stamped and attributed by it. */
  predicate BeginsWith(c: Config, ls: seq<LineRead>, r: Record) {
    exists i :: 0 <= i < |ls| && IsOpenedBy(c, ls[i], r)
  }

  predicate IsOpenedBy(c: Config, l: LineRead, r: Record) {
    && r.offset == l.began && l.line != [] && l.line <= r.payload
    && r.ts == Stamp(c, l) && r.chunk == l.from.chunk && r.win == l.from.win
  }

  predicate Passes(c: Config, r: Record) {
    && (c.window.Some? && r.ts.Some? ==> c.window.value.0 <= r.ts.value <= c.window.value.1)
    && (c.preds.Some? ==> c.preds.value(r.payload))
  }

  /** Of what is out and what is open. */
  predicate Opened(c: Config, ls: seq<LineRead>, s: Sink) {
    && (forall r :: r in s.out ==> BeginsWith(c, ls, r) && Passes(c, r))
    && (s.entry != [] ==> BeginsWith(c, ls, OpenRecord(s)))
    && (s.entry == [] ==> s.ts == None)
  }

  lemma OpenedMore(c: Config, ls: seq<LineRead>, more: seq<LineRead>, s: Sink)
    requires Opened(c, ls, s)
    ensures Opened(c, ls + more, s)
  {
    forall r | BeginsWith(c, ls, r)
      ensures BeginsWith(c, ls + more, r)
    {
      var i :| 0 <= i < |ls| && IsOpenedBy(c, ls[i], r);
      assert (ls + more)[i] == ls[i];
    }
  }

  lemma CloseOpened(c: Config, ls: seq<LineRead>, s: Sink)
    requires Opened(c, ls, s)
    ensures Opened(c, ls, CloseEntry(c, s)) && CloseEntry(c, s).entry == []
  {
    if s.entry != [] {
      ClosedOnce(c, s);
      var t := CloseEntry(c, s);
      forall r | r in t.out
        ensures BeginsWith(c, ls, r) && Passes(c, r)
      {
        assert r in s.out || r == OpenRecord(s);
      }
    }
    hide BeginsWith, IsOpenedBy;
  }

  lemma TakeLineOpened(c: Config, ls: seq<LineRead>, s: Sink, l: LineRead)
    requires Opened(c, ls, s) && l.line != [] && l.from == s.cur
    ensures Opened(c, ls + [l], TakeLine(c, s, l.line, l.began, l.continues))
  {
    var t := TakeLine(c, s, l.line, l.began, l.continues);
    HeadIs(l.line);
    CloseOpened(c, ls, s);
    CloseAtClosesEntry(c, s, l.began);
    if Joins(c, s, l.line, l.continues) {
      OpenedMore(c, ls, [l], s);
      JoinOpened(c, ls + [l], s, l.line);
    } else {
      OpenedMore(c, ls, [l], CloseEntry(c, s));
      hide CloseEntry, CloseAt, Passes;
      assert (ls + [l])[|ls|] == l;
      assert IsOpenedBy(c, l, OpenRecord(t));
    }
  }

  lemma JoinOpened(c: Config, ls: seq<LineRead>, s: Sink, line: seq<byte>)
    requires Opened(c, ls, s) && s.entry != []
    ensures Opened(c, ls, s.(entry := s.entry + line))
  {
    var i :| 0 <= i < |ls| && IsOpenedBy(c, ls[i], OpenRecord(s));
    assert IsOpenedBy(c, ls[i], OpenRecord(s.(entry := s.entry + line)));
    hide Passes;
  }

  lemma {:induction false} CutOpened(c: Config, ls: seq<LineRead>, s: Sink)
    requires Opened(c, ls, s)
    ensures Opened(c, ls + Fragments(s), CutLong(c, s))
    decreases |s.line|
  {
    if |s.line| < LINE_CAP {
      assert ls + [] == ls;
    } else {
      var l := LineRead(s.line[..LINE_CAP], s.lineBegin, s.midLine, s.cur);
      var u := s.(line := s.line[LINE_CAP..], lineBegin := s.lineBegin + LINE_CAP, midLine := true);
      CutOnceLeaves(c, s);
      TakeLineKeepsLine(c, u, l.line, l.began, l.continues);
      SameFragments(u, CutOnce(c, s));
      hide Opened, TakeLine, Fragments, CutLong;
      SameOpened(c, ls, s, u);
      TakeLineOpened(c, ls, u, l);
      CutOpened(c, ls + [l], CutOnce(c, s));
      FragmentsFirst(s, l, u);
      Assoc(ls, [l], Fragments(u));
    }
  }

  lemma FragmentsFirst(s: Sink, l: LineRead, u: Sink)
    requires |s.line| >= LINE_CAP && l == LineRead(s.line[..LINE_CAP], s.lineBegin, s.midLine, s.cur)
    requires u == s.(line := s.line[LINE_CAP..], lineBegin := s.lineBegin + LINE_CAP, midLine := true)
    ensures Fragments(s) == [l] + Fragments(u)
  {
  }

  lemma {:induction false} SameFragments(s: Sink, t: Sink)
    requires s.line == t.line && s.lineBegin == t.lineBegin && s.midLine == t.midLine && s.cur == t.cur
    ensures Fragments(s) == Fragments(t)
    decreases |s.line|
  {
    if |s.line| >= LINE_CAP {
      SameFragments(s.(line := s.line[LINE_CAP..], lineBegin := s.lineBegin + LINE_CAP, midLine := true),
                    t.(line := t.line[LINE_CAP..], lineBegin := t.lineBegin + LINE_CAP, midLine := true));
    }
  }

  lemma SameOpened(c: Config, ls: seq<LineRead>, s: Sink, t: Sink)
    requires Opened(c, ls, s)
    requires t.out == s.out && t.entry == s.entry && t.ts == s.ts && t.entryFrom == s.entryFrom
    requires t.entryBegin == s.entryBegin
    ensures Opened(c, ls, t)
  {
    hide BeginsWith, Passes;
  }

  lemma StepOpened(c: Config, ls: seq<LineRead>, s: Sink, e: Event)
    requires Opened(c, ls, s)
    ensures Opened(c, ls + ReadBy(s, e), Step(c, s, e))
  {
    hide Opened, TakeLine, CutLong, CloseEntry, Fragments;
    assert ls + [] == ls;
    match e
    case Byte(b, at) =>
      if b == NEWLINE {
        var u := s.(line := [], lineBegin := at + 1, midLine := false);
        SameOpened(c, ls, s, u);
        TakeLineOpened(c, ls, u, LineRead(s.line + [b], s.lineBegin, s.midLine, s.cur));
      } else {
        SameOpened(c, ls, s, s.(line := s.line + [b]));
      }
    case End => CutOpened(c, ls, s);
    case Flush => CloseOpened(c, ls, s);
    case _ => SameOpened(c, ls, s, Step(c, s, e));
  }

  lemma {:induction false} RunOpened(c: Config, evs: seq<Event>)
    ensures Opened(c, LinesRead(c, evs), Run(c, New, evs))
  {
    if evs != [] {
      RunOpened(c, Front(evs));
      StepOpened(c, LinesRead(c, Front(evs)), Run(c, New, Front(evs)), Last(evs));
      hide Opened, Step, ReadBy;
    }
  }

  /** The lines of a run, the unterminated one at the end of the data included. */
  function AllLines(c: Config, evs: seq<Event>): seq<LineRead> {
    var s := Run(c, New, evs);
    LinesRead(c, evs) + if s.line == [] then [] else [LineRead(s.line, s.lineBegin, s.midLine, s.cur)]
  }

  /**
   * Over any run to its end, every record begins with a line that was read: it
   * bears that line's stamp, unless the line is the rest of one that was cut,
   * and the chunk and window pushed when it was read. A stamp it bears is
   * between the bounds of the window, and its bytes pass the predicates.
   */
  lemma RecordsSayTheirLine(c: Config, evs: seq<Event>, r: Record)
    requires r in Finish(c, Run(c, New, evs)).out
    ensures BeginsWith(c, AllLines(c, evs), r) && Passes(c, r)
  {
    var s, ls := Run(c, New, evs), LinesRead(c, evs);
    RunOpened(c, evs);
    hide TakeLine, CloseEntry, Run, LinesRead, BeginsWith, Passes;
    var t := s;
    if s.line == [] {
      assert ls + [] == ls;
    } else {
      var u := s.(line := [], midLine := false);
      SameOpened(c, ls, s, u);
      TakeLineOpened(c, ls, u, LineRead(s.line, s.lineBegin, s.midLine, s.cur));
      t := TakeLine(c, u, s.line, s.lineBegin, s.midLine);
    }
    CloseOpened(c, AllLines(c, evs), t);
    CloseAtClosesEntry(c, t, s.lineBegin + |s.line|);
  }

  /** How many of the lines bear a stamp. */
  function StampedOf(c: Config, ls: seq<LineRead>): nat {
    if ls == [] then 0 else StampedOf(c, Front(ls)) + if Stamp(c, Last(ls)).Some? then 1 else 0
  }

  lemma {:induction false} StampedConcat(c: Config, a: seq<LineRead>, b: seq<LineRead>)
    ensures StampedOf(c, a + b) == StampedOf(c, a) + StampedOf(c, b)
  {
    if b == [] {
      assert a + b == a;
    } else {
      assert Front(a + b) == a + Front(b);
      StampedConcat(c, a, Front(b));
    }
  }

  lemma TakeLineStamped(c: Config, s: Sink, l: LineRead)
    ensures TakeLine(c, s, l.line, l.began, l.continues).tally.stamped == s.tally.stamped + StampedOf(c, [l])
  {
    HeadIs(l.line);
    assert Front([l]) == [] && StampedOf(c, []) == 0;
    CloseAtClosesEntry(c, s, l.began);
    CloseKeepsStamped(c, s);
    hide CloseEntry, CloseAt;
  }

  lemma CloseKeepsStamped(c: Config, s: Sink)
    ensures CloseEntry(c, s).tally.stamped == s.tally.stamped
  {
  }

  lemma {:induction false} CutStamped(c: Config, s: Sink)
    ensures CutLong(c, s).tally.stamped == s.tally.stamped + StampedOf(c, Fragments(s))
    decreases |s.line|
  {
    if |s.line| >= LINE_CAP {
      var l := LineRead(s.line[..LINE_CAP], s.lineBegin, s.midLine, s.cur);
      var u := s.(line := s.line[LINE_CAP..], lineBegin := s.lineBegin + LINE_CAP, midLine := true);
      CutOnceLeaves(c, s);
      TakeLineKeepsLine(c, u, l.line, l.began, l.continues);
      SameFragments(u, CutOnce(c, s));
      hide TakeLine, Fragments, CutLong, StampedOf;
      TakeLineStamped(c, u, l);
      CutStamped(c, CutOnce(c, s));
      FragmentsFirst(s, l, u);
      StampedConcat(c, [l], Fragments(u));
    }
  }

  lemma StepStamped(c: Config, s: Sink, e: Event)
    ensures Step(c, s, e).tally.stamped == s.tally.stamped + StampedOf(c, ReadBy(s, e))
  {
    hide TakeLine, CutLong, Fragments, CloseEntry;
    assert StampedOf(c, []) == 0;
    match e
    case Byte(b, at) =>
      if b == NEWLINE {
        TakeLineStamped(c, s.(line := [], lineBegin := at + 1, midLine := false),
                        LineRead(s.line + [b], s.lineBegin, s.midLine, s.cur));
      }
    case End => CutStamped(c, s);
    case Flush => CloseKeepsStamped(c, s);
    case _ =>
  }

  /** The lines counted as stamped are those that are, over any run. */
  lemma {:induction false} StampedAreCounted(c: Config, evs: seq<Event>)
    ensures Run(c, New, evs).tally.stamped == StampedOf(c, LinesRead(c, evs))
  {
    if evs != [] {
      var s, e := Run(c, New, Front(evs)), Last(evs);
      StampedAreCounted(c, Front(evs));
      hide Step, ReadBy, StampedOf;
      StampedConcat(c, LinesRead(c, Front(evs)), ReadBy(s, e));
      StepStamped(c, s, e);
    }
  }
}
