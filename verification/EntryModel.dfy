/**
 * The read path's entry sink (src/entry.rs): chunk bytes are cut into lines,
 * lines are grouped into entries, entries are filtered and emitted, and the
 * sink remembers where a caller may resume.
 *
 * `Sink` is the sink's value and `Run` its meaning as a fold over events: one
 * event per byte pushed, with the two ends of every push marked. The source's
 * object is `EntrySinks.EntrySink`; each of its methods is proved to move the
 * value exactly as the fold does.
 */
module EntryModel {
  import opened Common

  const ENTRY_CAP: nat := 0x100_0000
  const LINE_CAP: nat := ENTRY_CAP
  /** How much of a line the timestamp extractor is shown. */
  const HEAD_LEN: nat := 256

  type Window = (nat, nat)

  /** What a sink is built with. `preds` is absent when the search is chunk-granular. */
  datatype Config = Config(
    stamp: seq<byte> -> Option<nat>,
    window: Option<Window>,
    preds: Option<seq<byte> -> bool>,
    limit: Option<nat>)

  /** One emitted entry, as the typed record stream states it. */
  datatype Record = Record(
    offset: nat,
    ts: Option<nat>,
    chunk: Option<nat>,
    win: Window,
    payload: seq<byte>)
  {
    function End(): nat { offset + |payload| }
  }

  /** Which chunk bytes came from, and the window it was written in. */
  datatype Source = Source(chunk: Option<nat>, win: Window)

  /** The sink's counters; `count` is the one siblings share. */
  datatype Tally = Tally(emitted: nat, filteredOut: nat, suppressed: nat, stamped: nat, count: nat)

  /** The sink's value, with what it has written so far in `out`. */
  datatype Sink = Sink(
    line: seq<byte>,
    lineBegin: nat,
    midLine: bool,
    entry: seq<byte>,
    ts: Option<nat>,
    entryFrom: Source,
    entryBegin: nat,
    cur: Source,
    emittedEnd: Option<nat>,
    tally: Tally,
    out: seq<Record>)

  const Nowhere := Source(None, (0, 0))

  const New := Sink([], 0, false, [], None, Nowhere, 0, Nowhere, None, Tally(0, 0, 0, 0, 0), [])

  function Head(line: seq<byte>): seq<byte> {
    line[..Min(|line|, HEAD_LEN)]
  }

  predicate InWindow(c: Config, ts: Option<nat>) {
    c.window.Some? && ts.Some? ==> c.window.value.0 <= ts.value <= c.window.value.1
  }

  predicate Keep(c: Config, ts: Option<nat>, entry: seq<byte>) {
    InWindow(c, ts) && (c.preds.Some? ==> c.preds.value(entry))
  }

  function OpenRecord(s: Sink): Record {
    Record(s.entryBegin, s.ts, s.entryFrom.chunk, s.entryFrom.win, s.entry)
  }

  /** The shared count has reached the cap. */
  predicate Full(c: Config, s: Sink) {
    c.limit.Some? && s.tally.count >= c.limit.value
  }

  function CloseEntry(c: Config, s: Sink): (t: Sink)
    ensures t.entry == []
    ensures t.line == s.line && t.lineBegin == s.lineBegin && t.midLine == s.midLine && t.cur == s.cur
    ensures t.out == s.out || (s.entry != [] && t.out == s.out + [OpenRecord(s)])
  {
    if s.entry == [] then s
    else
      var t := s.(entry := [], ts := None);
      if !Keep(c, s.ts, s.entry) then
        t.(tally := s.tally.(filteredOut := s.tally.filteredOut + 1))
      else if Full(c, s) then
        t.(tally := s.tally.(suppressed := s.tally.suppressed + 1))
      else
        t.(tally := s.tally.(emitted := s.tally.emitted + 1,
                             count := s.tally.count + if c.limit.Some? then 1 else 0),
           out := s.out + [OpenRecord(s)])
  }

  /**
   * A closed entry is counted once. It is written out, as it was read and
   * opened, exactly when its stamp is between the bounds of the window, if it
   * has one and there is a window, its bytes pass the predicates, if there are
   * any, and fewer entries than the limit, if there is one, went out before.
   */
  lemma ClosedOnce(c: Config, s: Sink)
    requires s.entry != []
    ensures var t := CloseEntry(c, s);
            var kept := && (c.window.Some? && s.ts.Some? ==> c.window.value.0 <= s.ts.value <= c.window.value.1)
                        && (c.preds.Some? ==> c.preds.value(s.entry));
            var full := c.limit.Some? && s.tally.count >= c.limit.value;
            && t.out == s.out + (if kept && !full
                                 then [Record(s.entryBegin, s.ts, s.entryFrom.chunk, s.entryFrom.win, s.entry)] else [])
            && t.tally.filteredOut == s.tally.filteredOut + (if kept then 0 else 1)
            && t.tally.suppressed == s.tally.suppressed + (if kept && full then 1 else 0)
            && t.tally.emitted == s.tally.emitted + (if kept && !full then 1 else 0)
            && t.tally.count == s.tally.count + (if kept && !full && c.limit.Some? then 1 else 0)
  {
    assert s.out + [] == s.out;
  }

  /** What the extractor is shown of a line: the whole of it, or its first 256 bytes. */
  lemma HeadIs(line: seq<byte>)
    ensures Head(line) == if |line| <= 256 then line else line[..256]
  {
  }

  lemma CloseNothing(c: Config, s: Sink)
    requires s.entry == []
    ensures CloseEntry(c, s) == s
  {
  }

  function CloseAt(c: Config, s: Sink, end: nat): Sink {
    var t := CloseEntry(c, s);
    if s.entry != [] && t.tally.emitted > s.tally.emitted then t.(emittedEnd := Some(end)) else t
  }

  lemma CloseAtClosesEntry(c: Config, s: Sink, end: nat)
    ensures CloseAt(c, s, end) == CloseEntry(c, s).(emittedEnd := CloseAt(c, s, end).emittedEnd)
  {
    hide CloseEntry;
  }

  function StampOf(c: Config, line: seq<byte>, continues: bool): Option<nat> {
    if continues then None else c.stamp(Head(line))
  }

  /** A line joins the open entry unless it is stamped, there is none, or it would pass the cap. */
  predicate Joins(c: Config, s: Sink, line: seq<byte>, continues: bool) {
    StampOf(c, line, continues).None? && s.entry != [] && |s.entry| + |line| <= ENTRY_CAP
  }

  /** The line opens an entry, attributed to the chunk being pushed. */
  function OpenEntry(s: Sink, line: seq<byte>, began: nat, stamp: Option<nat>): Sink {
    s.(entry := line, entryFrom := s.cur, entryBegin := began,
       ts := if stamp.Some? then stamp else s.ts,
       tally := s.tally.(stamped := s.tally.stamped + if stamp.Some? then 1 else 0))
  }

  /** `began` is where the line starts, which is where a stamped one ends the entry before it. */
  function TakeLine(c: Config, s: Sink, line: seq<byte>, began: nat, continues: bool): Sink {
    var stamp := StampOf(c, line, continues);
    if Joins(c, s, line, continues) then s.(entry := s.entry + line)
    else if stamp.Some? then OpenEntry(CloseAt(c, s, began), line, began, stamp)
    else OpenEntry(CloseEntry(c, s), line, began, stamp)
  }

  /** One `LINE_CAP` fragment leaves an overlong line. */
  function CutOnce(c: Config, s: Sink): Sink
    requires |s.line| >= LINE_CAP
  {
    TakeLine(c, s.(line := s.line[LINE_CAP..], lineBegin := s.lineBegin + LINE_CAP, midLine := true),
             s.line[..LINE_CAP], s.lineBegin, s.midLine)
  }

  lemma TakeLineKeepsLine(c: Config, s: Sink, line: seq<byte>, began: nat, continues: bool)
    ensures var t := TakeLine(c, s, line, began, continues);
            t.line == s.line && t.lineBegin == s.lineBegin && t.midLine == s.midLine
            && t.cur == s.cur
  {
  }

  function CutLong(c: Config, s: Sink): (t: Sink)
    ensures |t.line| < LINE_CAP
    decreases |s.line|
  {
    if |s.line| < LINE_CAP then s
    else
      TakeLineKeepsLine(c, s.(line := s.line[LINE_CAP..], lineBegin := s.lineBegin + LINE_CAP, midLine := true),
                        s.line[..LINE_CAP], s.lineBegin, s.midLine);
      CutLong(c, CutOnce(c, s))
  }

  function TakeByte(c: Config, s: Sink, b: byte, at: nat): Sink {
    if b == NEWLINE then
      TakeLine(c, s.(line := [], lineBegin := at + 1, midLine := false),
               s.line + [b], s.lineBegin, s.midLine)
    else
      s.(line := s.line + [b])
  }

  /** `s` with more of the line in hand, the bytes read since the last newline. */
  function Holding(s: Sink, more: seq<byte>): Sink {
    s.(line := s.line + more)
  }

  /** `base` and `at` are absolute offsets on the tape. */
  datatype Event =
    | Begin(chunk: Option<nat>, win: Window, base: nat)
    | Byte(b: byte, at: nat)
    | End
    | Flush
    | Others(taken: nat)  // sibling sinks count entries against the shared limit

  function Step(c: Config, s: Sink, e: Event): Sink {
    match e
    case Begin(chunk, win, base) =>
      s.(cur := Source(chunk, win), lineBegin := if s.line == [] then base else s.lineBegin)
    case Byte(b, at) => TakeByte(c, s, b, at)
    case End => CutLong(c, s)
    case Flush => CloseEntry(c, s)
    case Others(n) => s.(tally := s.tally.(count := s.tally.count + n))
  }

  function Run(c: Config, s: Sink, evs: seq<Event>): Sink {
    if evs == [] then s else Step(c, Run(c, s, Front(evs)), Last(evs))
  }

  lemma {:induction false} RunConcat(c: Config, s: Sink, a: seq<Event>, b: seq<Event>)
    ensures Run(c, s, a + b) == Run(c, Run(c, s, a), b)
  {
    if b == [] {
      assert a + b == a;
    } else {
      assert Front(a + b) == a + Front(b);
      RunConcat(c, s, a, Front(b));
    }
  }

  function Bytes(data: seq<byte>, base: nat): (evs: seq<Event>)
    ensures |evs| == |data|
  {
    seq(|data|, i requires 0 <= i < |data| => Byte(data[i], base + i))
  }

  function PushEvents(data: seq<byte>, chunk: Option<nat>, win: Window, base: nat): seq<Event> {
    [Begin(chunk, win, base)] + Bytes(data, base) + [End]
  }

  /** The bytes of one push, without the events' case split. */
  function RunBytes(c: Config, s: Sink, data: seq<byte>, base: nat): Sink {
    if data == [] then s
    else TakeByte(c, RunBytes(c, s, Front(data), base), Last(data), base + |data| - 1)
  }

  lemma RunBytesLast(c: Config, s: Sink, data: seq<byte>, base: nat, at: nat)
    requires data != [] && at == base + |data| - 1
    ensures RunBytes(c, s, data, base) == TakeByte(c, RunBytes(c, s, Front(data), base), Last(data), at)
  {
    hide TakeByte;
  }

  lemma RunBytesSnoc(c: Config, s: Sink, data: seq<byte>, base: nat, i: nat, at: nat)
    requires i < |data| && at == base + i
    ensures RunBytes(c, s, data[..i + 1], base) == TakeByte(c, RunBytes(c, s, data[..i], base), data[i], at)
  {
    hide TakeByte;
    assert Front(data[..i + 1]) == data[..i];
    assert base + |data[..i + 1]| - 1 == at;
  }

  /** A loop over a push that has `data[start..i]` of the line in hand, at a newline ... */
  lemma RunNewline(c: Config, s: Sink, data: seq<byte>, base: nat, start: nat, i: nat, at: nat, t: Sink, u: Sink)
    requires start <= i < |data| && data[i] == NEWLINE && at == base + i
    requires Holding(t, data[start..i]) == RunBytes(c, s, data[..i], base)
    requires u == TakeByte(c, Holding(t, data[start..i]), data[i], at)
    ensures Holding(u, data[i + 1..i + 1]) == RunBytes(c, s, data[..i + 1], base)
  {
    RunBytesSnoc(c, s, data, base, i, at);
    assert u.line + data[i + 1..i + 1] == u.line;
  }

  /** ... and at any other byte. */
  lemma RunNonNewline(c: Config, s: Sink, data: seq<byte>, base: nat, start: nat, i: nat, t: Sink)
    requires start <= i < |data| && data[i] != NEWLINE
    requires Holding(t, data[start..i]) == RunBytes(c, s, data[..i], base)
    ensures Holding(t, data[start..i + 1]) == RunBytes(c, s, data[..i + 1], base)
  {
    RunBytesSnoc(c, s, data, base, i, base + i);
    SliceSnoc(t.line, data, start, i);
  }

  lemma {:induction false} RunBytesIsRun(c: Config, s: Sink, data: seq<byte>, base: nat)
    ensures Run(c, s, Bytes(data, base)) == RunBytes(c, s, data, base)
  {
    if data != [] {
      hide TakeByte;
      var evs := Bytes(data, base);
      assert Front(evs) == Bytes(Front(data), base);
      assert Last(evs) == Byte(Last(data), base + |data| - 1);
      RunBytesIsRun(c, s, Front(data), base);
    }
  }

  lemma RunPush(c: Config, s: Sink, data: seq<byte>, chunk: Option<nat>, win: Window, base: nat)
    ensures Run(c, s, PushEvents(data, chunk, win, base))
         == CutLong(c, RunBytes(c, Step(c, s, Begin(chunk, win, base)), data, base))
  {
    var b := [Begin(chunk, win, base)];
    assert Front(PushEvents(data, chunk, win, base)) == b + Bytes(data, base);
    RunConcat(c, s, b, Bytes(data, base));
    assert Run(c, s, b) == Step(c, s, b[0]) by {
      assert Front(b) == [];
    }
    RunBytesIsRun(c, Step(c, s, b[0]), data, base);
  }

  lemma CutOnceLeaves(c: Config, s: Sink)
    requires |s.line| >= LINE_CAP
    ensures var u := CutOnce(c, s);
            && u.line == s.line[LINE_CAP..] && u.lineBegin == s.lineBegin + LINE_CAP && u.midLine
            && CutLong(c, s) == CutLong(c, u)
  {
    TakeLineKeepsLine(c, s.(line := s.line[LINE_CAP..], lineBegin := s.lineBegin + LINE_CAP, midLine := true),
                      s.line[..LINE_CAP], s.lineBegin, s.midLine);
    hide TakeLine;
  }

  /** What a push leaves in hand is what `n` whole fragments of `LINE_CAP` leave of the line. */
  lemma {:induction false} CutLongLeaves(c: Config, s: Sink, n: nat)
    requires n * LINE_CAP <= |s.line| < (n + 1) * LINE_CAP
    ensures var t := CutLong(c, s);
            && t.line == s.line[n * LINE_CAP..] && t.lineBegin == s.lineBegin + n * LINE_CAP
            && (t.midLine <==> s.midLine || n > 0)
    decreases |s.line|
  {
    if n > 0 {
      CutOnceLeaves(c, s);
      var u, m := CutOnce(c, s), n - 1;
      hide CutLong, CutOnce;
      CutLongLeaves(c, u, m);
      assert u.line[m * LINE_CAP..] == s.line[n * LINE_CAP..];
    }
  }

  // ------------------------------------------------ the limit over a whole run

  /**
   * As many records as are counted emitted, and never more than the limit; and
   * none is suppressed before as many have gone out, siblings' included.
   */
  predicate WithinLimit(c: Config, s: Sink) {
    && s.tally.emitted == |s.out|
    && (c.limit.Some? ==> |s.out| <= c.limit.value && |s.out| <= s.tally.count)
    && (s.tally.suppressed > 0 ==> c.limit.Some? && s.tally.count >= c.limit.value)
  }

  lemma CloseWithinLimit(c: Config, s: Sink)
    requires WithinLimit(c, s)
    ensures WithinLimit(c, CloseEntry(c, s))
  {
  }

  lemma TakeLineWithinLimit(c: Config, s: Sink, line: seq<byte>, began: nat, continues: bool)
    requires WithinLimit(c, s)
    ensures WithinLimit(c, TakeLine(c, s, line, began, continues))
  {
    CloseWithinLimit(c, s);
    CloseAtClosesEntry(c, s, began);
    hide CloseEntry, CloseAt;
  }

  lemma {:induction false} CutLongWithinLimit(c: Config, s: Sink)
    requires WithinLimit(c, s)
    ensures WithinLimit(c, CutLong(c, s))
    decreases |s.line|
  {
    if |s.line| >= LINE_CAP {
      var u := s.(line := s.line[LINE_CAP..], lineBegin := s.lineBegin + LINE_CAP, midLine := true);
      TakeLineKeepsLine(c, u, s.line[..LINE_CAP], s.lineBegin, s.midLine);
      TakeLineWithinLimit(c, u, s.line[..LINE_CAP], s.lineBegin, s.midLine);
      hide TakeLine;
      CutLongWithinLimit(c, CutOnce(c, s));
    }
  }

  /** Whatever is pushed, flushed and counted elsewhere. */
  lemma {:induction false} RunWithinLimit(c: Config, evs: seq<Event>)
    ensures WithinLimit(c, Run(c, New, evs))
  {
    if evs != [] {
      RunWithinLimit(c, Front(evs));
      var s, e := Run(c, New, Front(evs)), Last(evs);
      hide TakeLine, CutLong, CloseEntry;
      match e
      case Byte(b, at) =>
        if b == NEWLINE {
          TakeLineWithinLimit(c, s.(line := [], lineBegin := at + 1, midLine := false), s.line + [b], s.lineBegin, s.midLine);
        }
      case End => CutLongWithinLimit(c, s);
      case Flush => CloseWithinLimit(c, s);
      case _ =>
    }
  }

  function Finish(c: Config, s: Sink): Sink {
    var end := s.lineBegin + |s.line|;
    var t := if s.line == [] then s
             else TakeLine(c, s.(line := [], midLine := false), s.line, s.lineBegin, s.midLine);
    CloseAt(c, t, end)
  }

  function DiscardPending(s: Sink): Sink {
    s.(line := [], midLine := false, entry := [], ts := None)
  }

  /** What was being put together is forgotten, and nothing else. */
  lemma DiscardedIs(s: Sink)
    ensures var t := DiscardPending(s);
            && t.line == [] && !t.midLine && t.entry == [] && t.ts == None
            && t.out == s.out && t.emittedEnd == s.emittedEnd && t.tally == s.tally && t.cur == s.cur
  {
  }
}
