/**
 * Resuming: a sink stopped between chunks, its pending entry discarded, and a
 * fresh sink started at `emittedEnd` together emit what one uninterrupted,
 * unlimited run emits, if and only if the last record emitted ends where
 * `emittedEnd` says. `EntryStops` says of which inputs that is so.
 */
module EntryResume {
  import opened Common
  import opened EntryModel
  import opened EntryTape

  function Unlimited(c: Config): Config {
    c.(limit := None)
  }

  // ----------------------------------------- what closing and lines emit

  function Yield(c: Config, s: Sink): seq<Record> {
    if s.entry != [] && Keep(c, s.ts, s.entry) && !Full(c, s) then [OpenRecord(s)] else []
  }

  lemma TakeLineYields(c: Config, s: Sink, line: seq<byte>, began: nat, continues: bool)
    ensures TakeLine(c, s, line, began, continues).out
         == if Joins(c, s, line, continues) then s.out else s.out + Yield(c, s)
    ensures TakeLine(c, s, line, began, continues).emittedEnd
         == if StampOf(c, line, continues).Some? && Yield(c, s) != [] then Some(began) else s.emittedEnd
  {
    CloseAtClosesEntry(c, s, began);
    assert s.out + [] == s.out;
  }

  /** Two sinks in the middle of the same entry and the same line. */
  predicate Same(a: Sink, b: Sink) {
    && a.line == b.line && a.lineBegin == b.lineBegin && a.midLine == b.midLine
    && a.cur == b.cur && a.entry == b.entry && a.ts == b.ts
    && (a.entry != [] ==> a.entryFrom == b.entryFrom && a.entryBegin == b.entryBegin)
  }

  lemma SameTakeLine(c: Config, d: Config, a: Sink, b: Sink, line: seq<byte>, began: nat, continues: bool)
    requires Same(a, b) && d.stamp == c.stamp && line != []
    ensures Same(TakeLine(c, a, line, began, continues), TakeLine(d, b, line, began, continues))
  {
    CloseAtClosesEntry(c, a, began);
    CloseAtClosesEntry(d, b, began);
    CloseForgetsStamp(c, a);
    CloseForgetsStamp(d, b);
    hide CloseEntry, CloseAt;
  }

  lemma CloseForgetsStamp(c: Config, s: Sink)
    ensures CloseEntry(c, s).ts == if s.entry == [] then s.ts else None
  {
  }

  // -------------------------------------------------- the four relations

  /** `f`, started later, follows the unlimited `u`; `pre` is what `u` had emitted by then. */
  predicate Follows(u: Sink, f: Sink, pre: seq<Record>) {
    Same(u, f) && u.out == pre + f.out
  }

  /** `s`, limited, against `u`, which is not: `s` lacks records only once the count is full. */
  predicate Limits(c: Config, s: Sink, u: Sink) {
    Same(s, u) && s.out <= u.out && (s.out == u.out || Full(c, s))
  }

  /** `g`, started where the line being read began, has read only that line. */
  predicate AtLine(u: Sink, g: Sink) {
    && g.entry == [] && g.ts == None && g.out == []
    && g.line == u.line && g.lineBegin == u.lineBegin && g.midLine == u.midLine && g.cur == u.cur
  }

  lemma FollowsTakeLine(c: Config, u: Sink, f: Sink, pre: seq<Record>, line: seq<byte>, began: nat, continues: bool)
    requires Follows(u, f, pre) && c.limit.None? && line != []
    ensures Follows(TakeLine(c, u, line, began, continues), TakeLine(c, f, line, began, continues), pre)
  {
    SameTakeLine(c, c, u, f, line, began, continues);
    TakeLineYields(c, u, line, began, continues);
    TakeLineYields(c, f, line, began, continues);
    hide TakeLine;
    assert Yield(c, u) == Yield(c, f);
    assert (pre + f.out) + Yield(c, f) == pre + (f.out + Yield(c, f));
  }

  lemma {:induction false} LimitsTakeLine(c: Config, s: Sink, u: Sink, line: seq<byte>, began: nat, continues: bool)
    requires Limits(c, s, u) && line != []
    ensures Limits(c, TakeLine(c, s, line, began, continues), TakeLine(Unlimited(c), u, line, began, continues))
  {
    var d := Unlimited(c);
    SameTakeLine(c, d, s, u, line, began, continues);
    TakeLineYields(c, s, line, began, continues);
    TakeLineYields(d, u, line, began, continues);
    FullStays(c, s, line, began, continues);
    hide TakeLine;
    assert Full(c, s) || Yield(c, s) == Yield(d, u);
    assert s.out <= u.out + Yield(d, u);
  }

  lemma FullStays(c: Config, s: Sink, line: seq<byte>, began: nat, continues: bool)
    ensures Full(c, s) ==> Full(c, TakeLine(c, s, line, began, continues))
  {
  }

  /** A stamped line that makes `s` emit starts the entry in `g` that it starts in `u`. */
  lemma StampedLineRestarts(c: Config, s: Sink, u: Sink, g: Sink, line: seq<byte>, began: nat, continues: bool)
    requires Limits(c, s, u) && AtLine(u, g) && line != []
    requires StampOf(c, line, continues).Some? && Yield(c, s) != []
    ensures var s', u', g' := TakeLine(c, s, line, began, continues),
                              TakeLine(Unlimited(c), u, line, began, continues),
                              TakeLine(Unlimited(c), g, line, began, continues);
            s'.out == s.out + [OpenRecord(s)] && Follows(u', g', s'.out)
  {
    var d := Unlimited(c);
    TakeLineYields(c, s, line, began, continues);
    TakeLineYields(d, u, line, began, continues);
    TakeLineYields(d, g, line, began, continues);
    CloseAtClosesEntry(d, u, began);
    CloseAtClosesEntry(d, g, began);
    hide CloseEntry, CloseAt;
    assert Yield(d, u) == Yield(c, s) == [OpenRecord(s)];
    assert s.out == u.out;
  }

  // ------------------------------------------------------------ the steps

  lemma {:induction false} FollowsCutLong(c: Config, u: Sink, f: Sink, pre: seq<Record>)
    requires Follows(u, f, pre) && c.limit.None?
    ensures Follows(CutLong(c, u), CutLong(c, f), pre)
    decreases |u.line|
  {
    if |u.line| >= LINE_CAP {
      FollowsCutOnce(c, u, f, pre);
      hide CutOnce, Follows;
      FollowsCutLong(c, CutOnce(c, u), CutOnce(c, f), pre);
    }
  }

  lemma FollowsCutOnce(c: Config, u: Sink, f: Sink, pre: seq<Record>)
    requires Follows(u, f, pre) && c.limit.None? && |u.line| >= LINE_CAP
    ensures Follows(CutOnce(c, u), CutOnce(c, f), pre)
    ensures |CutOnce(c, u).line| == |CutOnce(c, f).line| < |u.line| == |f.line|
  {
    var rest, began := u.line[LINE_CAP..], u.lineBegin + LINE_CAP;
    var fragment := u.line[..LINE_CAP];
    var u', f' := u.(line := rest, lineBegin := began, midLine := true),
                  f.(line := rest, lineBegin := began, midLine := true);
    FollowsTakeLine(c, u', f', pre, fragment, u.lineBegin, u.midLine);
    TakeLineKeepsLine(c, u', fragment, u.lineBegin, u.midLine);
    TakeLineKeepsLine(c, f', fragment, u.lineBegin, u.midLine);
  }

  lemma FollowsStep(c: Config, u: Sink, f: Sink, pre: seq<Record>, e: Event)
    requires Follows(u, f, pre) && c.limit.None?
    ensures Follows(Step(c, u, e), Step(c, f, e), pre)
  {
    hide TakeLine, CutLong;
    match e
    case Byte(b, at) =>
      if b == NEWLINE {
        FollowsTakeLine(c, u.(line := [], lineBegin := at + 1, midLine := false),
                        f.(line := [], lineBegin := at + 1, midLine := false),
                        pre, u.line + [b], u.lineBegin, u.midLine);
      }
    case End => FollowsCutLong(c, u, f, pre);
    case Flush => FollowsClose(c, u, f, pre);
    case _ =>
  }

  lemma {:induction false} FollowsRun(c: Config, u: Sink, f: Sink, pre: seq<Record>, evs: seq<Event>)
    requires Follows(u, f, pre) && c.limit.None?
    ensures Follows(Run(c, u, evs), Run(c, f, evs), pre)
  {
    if evs != [] {
      FollowsRun(c, u, f, pre, Front(evs));
      FollowsStep(c, Run(c, u, Front(evs)), Run(c, f, Front(evs)), pre, Last(evs));
    }
  }

  lemma {:induction false} FollowsFinish(c: Config, u: Sink, f: Sink, pre: seq<Record>)
    requires Follows(u, f, pre) && c.limit.None?
    ensures Finish(c, u).out == pre + Finish(c, f).out
  {
    hide TakeLine, CloseEntry;
    var line, began, end := u.line, u.lineBegin, u.lineBegin + |u.line|;
    var u', f' := u.(line := [], midLine := false), f.(line := [], midLine := false);
    if line != [] {
      FollowsTakeLine(c, u', f', pre, line, began, u.midLine);
      u', f' := TakeLine(c, u', line, began, u.midLine), TakeLine(c, f', line, began, u.midLine);
    } else {
      u', f' := u, f;
    }
    CloseAtClosesEntry(c, u', end);
    CloseAtClosesEntry(c, f', end);
    FollowsClose(c, u', f', pre);
  }

  lemma FollowsClose(c: Config, u: Sink, f: Sink, pre: seq<Record>)
    requires Follows(u, f, pre) && c.limit.None?
    ensures Follows(CloseEntry(c, u), CloseEntry(c, f), pre)
  {
    assert Yield(c, u) == Yield(c, f);
    assert (pre + f.out) + Yield(c, f) == pre + (f.out + Yield(c, f));
  }

  lemma LimitsClose(c: Config, s: Sink, u: Sink)
    requires Limits(c, s, u)
    ensures Limits(c, CloseEntry(c, s), CloseEntry(Unlimited(c), u))
  {
  }

  /** The line restarts the resume point: it is stamped and makes `s` emit. */
  predicate Restarts(c: Config, s: Sink, line: seq<byte>, continues: bool) {
    StampOf(c, line, continues).Some? && Yield(c, s) != []
  }

  /** One line, with the follower kept or, when the line restarts, replaced by `g`. */
  lemma {:induction false} MarkLine(c: Config, s: Sink, u: Sink, f: Sink, g: Sink, pre: seq<Record>,
                 line: seq<byte>, began: nat, continues: bool)
    requires Limits(c, s, u) && Follows(u, f, pre) && |pre| <= |s.out| && line != []
    requires !continues ==> AtLine(u, g)
    ensures var d := Unlimited(c);
            var s', u', f', g' := TakeLine(c, s, line, began, continues), TakeLine(d, u, line, began, continues),
                                  TakeLine(d, f, line, began, continues), TakeLine(d, g, line, began, continues);
            && Limits(c, s', u') && Follows(u', f', pre) && |pre| <= |s'.out|
            && (if Restarts(c, s, line, continues)
                then s'.emittedEnd == Some(began) && Follows(u', g', s'.out) && g'.out == []
                     && s'.out == s.out + [OpenRecord(s)] && s.entry != []
                else s'.emittedEnd == s.emittedEnd)
  {
    var d := Unlimited(c);
    LimitsTakeLine(c, s, u, line, began, continues);
    FollowsTakeLine(d, u, f, pre, line, began, continues);
    TakeLineYields(c, s, line, began, continues);
    if Restarts(c, s, line, continues) {
      StampedLineRestarts(c, s, u, g, line, began, continues);
      TakeLineYields(d, g, line, began, continues);
    }
    hide TakeLine;
  }

  lemma {:induction false} LimitsCutLong(c: Config, s: Sink, u: Sink)
    requires Limits(c, s, u) && s.midLine
    ensures var s' := CutLong(c, s);
            Limits(c, s', CutLong(Unlimited(c), u)) && s'.emittedEnd == s.emittedEnd && s.out <= s'.out && s'.midLine
    decreases |s.line|
  {
    if |s.line| >= LINE_CAP {
      var d := Unlimited(c);
      var rest, began, fragment := s.line[LINE_CAP..], s.lineBegin + LINE_CAP, s.line[..LINE_CAP];
      var s1, u1 := s.(line := rest, lineBegin := began, midLine := true),
                    u.(line := rest, lineBegin := began, midLine := true);
      LimitsTakeLine(c, s1, u1, fragment, s.lineBegin, true);
      TakeLineKeepsLine(c, s1, fragment, s.lineBegin, true);
      TakeLineKeepsLine(d, u1, fragment, s.lineBegin, true);
      TakeLineYields(c, s1, fragment, s.lineBegin, true);
      hide TakeLine;
      LimitsCutLong(c, CutOnce(c, s), CutOnce(d, u));
    }
  }

  // ---------------------------------------------------- events and marks

  function Events(ins: seq<Input>, start: nat): seq<Event> {
    if ins == [] then []
    else Events(Front(ins), start) + EventsOf(Last(ins), start + |Data(Front(ins))|)
  }

  function EventData(evs: seq<Event>): seq<byte> {
    if evs == [] then [] else EventData(Front(evs)) + if Last(evs).Byte? then [Last(evs).b] else []
  }

  predicate Pushing(evs: seq<Event>) {
    evs != [] && (Last(evs).Begin? || Last(evs).Byte?)
  }

  /** `e` comes where a caller puts it: bytes inside a push, each at the tape's end so far. */
  predicate MayFollow(pushing: bool, pos: nat, e: Event) {
    match e
    case Begin(_, _, base) => !pushing && base == pos
    case Byte(_, at) => pushing && at == pos
    case End => pushing
    case _ => !pushing
  }

  predicate Placed(evs: seq<Event>, start: nat) {
    evs == [] || (Placed(Front(evs), start)
                  && MayFollow(Pushing(Front(evs)), start + |EventData(Front(evs))|, Last(evs)))
  }

  lemma SnocPlaced(evs: seq<Event>, e: Event, start: nat, pos: nat)
    requires Placed(evs, start) && pos == start + |EventData(evs)| && MayFollow(Pushing(evs), pos, e)
    ensures Placed(evs + [e], start) && Pushing(evs + [e]) == (e.Begin? || e.Byte?)
    ensures EventData(evs + [e]) == EventData(evs) + if e.Byte? then [e.b] else []
  {
    assert Front(evs + [e]) == evs;
  }

  lemma {:induction false} EventsLaid(c: Config, evs: seq<Event>, start: nat)
    requires Placed(evs, start)
    ensures SinkLaid(false, Run(c, New, evs), start, EventData(evs), Pushing(evs))
  {
    if evs != [] {
      var s, x := Run(c, New, Front(evs)), EventData(Front(evs));
      var pos := start + |x|;
      EventsLaid(c, Front(evs), start);
      assert x + [] == x;
      hide TakeByte, CutLong, Laid, CloseEntry;
      match Last(evs)
      case Byte(b, at) => TakeByteLaid(false, c, s, b, at, start, x);
      case End => CutLongLaid(false, c, s, start, x);
      case Flush => CloseEntryLaid(false, c, s, start, x[..|x| - |s.line|]);
      case _ =>
    }
  }

  function SourceAfter(evs: seq<Event>): Source {
    if evs == [] then Nowhere
    else if Last(evs).Begin? then Source(Last(evs).chunk, Last(evs).win)
    else SourceAfter(Front(evs))
  }

  lemma {:induction false} RunSource(c: Config, evs: seq<Event>)
    ensures Run(c, New, evs).cur == SourceAfter(evs)
  {
    if evs != [] {
      RunSource(c, Front(evs));
      StepSource(c, Run(c, New, Front(evs)), Last(evs));
    }
  }

  lemma StepSource(c: Config, s: Sink, e: Event)
    ensures !e.Begin? ==> Step(c, s, e).cur == s.cur
  {
    hide TakeLine, CloseEntry, CutLong;
    match e
    case Byte(b, at) =>
      TakeLineKeepsLine(c, s.(line := [], lineBegin := at + 1, midLine := false), s.line + [b], s.lineBegin, s.midLine);
    case End => CutLongSource(c, s);
    case _ =>
  }

  lemma {:induction false} CutLongSource(c: Config, s: Sink)
    ensures CutLong(c, s).cur == s.cur
    decreases |s.line|
  {
    if |s.line| >= LINE_CAP {
      TakeLineKeepsLine(c, s.(line := s.line[LINE_CAP..], lineBegin := s.lineBegin + LINE_CAP, midLine := true),
                        s.line[..LINE_CAP], s.lineBegin, s.midLine);
      hide TakeLine;
      CutLongSource(c, CutOnce(c, s));
    }
  }

  /** A place between events to start a fresh sink: the beginning, or just past a byte. */
  predicate Mark(evs: seq<Event>, k: nat) {
    k <= |evs| && (k > 0 ==> evs[k - 1].Byte?)
  }

  function MarkAt(evs: seq<Event>, k: nat): nat
    requires Mark(evs, k) && k > 0
  {
    evs[k - 1].at + 1
  }

  function MarkEnd(evs: seq<Event>, k: nat): Option<nat>
    requires Mark(evs, k)
  {
    if k == 0 then None else Some(MarkAt(evs, k))
  }

  /** A fresh sink given the rest of the chunk it starts in. */
  function Restart(from: Source, at: nat): Sink {
    New.(cur := from, lineBegin := at)
  }

  function FreshAt(c: Config, evs: seq<Event>, k: nat): Sink
    requires Mark(evs, k)
  {
    if k == 0 then Run(c, New, evs)
    else Run(c, Restart(SourceAfter(evs[..k]), MarkAt(evs, k)), evs[k..])
  }

  lemma FreshStep(c: Config, evs: seq<Event>, k: nat)
    requires evs != [] && Mark(Front(evs), k)
    ensures Mark(evs, k) && MarkEnd(evs, k) == MarkEnd(Front(evs), k)
    ensures FreshAt(c, evs, k) == Step(c, FreshAt(c, Front(evs), k), Last(evs))
  {
    hide Step;
    if k > 0 {
      assert Front(evs)[..k] == evs[..k] && Front(evs)[k - 1] == evs[k - 1];
      assert Front(evs[k..]) == Front(evs)[k..] && Last(evs[k..]) == Last(evs);
    }
  }

  function Pre(u: Sink, f: Sink): seq<Record>
    requires |f.out| <= |u.out|
  {
    u.out[..|u.out| - |f.out|]
  }

  /** The follower started at mark `k` is where `emittedEnd` points, and `l` begins the line in hand. */
  ghost predicate Marked(c: Config, evs: seq<Event>, start: nat, k: nat, l: nat) {
    && Mark(evs, k) && Mark(evs, l)
    && MarkedBy(c, Run(c, New, evs), Run(Unlimited(c), New, evs), FreshAt(Unlimited(c), evs, k),
                FreshAt(Unlimited(c), evs, l), MarkEnd(evs, k), MarkEnd(evs, l), start + |EventData(evs)|)
  }

  /** A follower `f` of the unlimited run `u` started where `s` says to resume. */
  ghost predicate EntryMark(c: Config, s: Sink, u: Sink, f: Sink, end: Option<nat>) {
    && Limits(c, s, u)
    && |f.out| <= |u.out| && |u.out| - |f.out| <= |s.out|
    && Follows(u, f, Pre(u, f))
    && s.emittedEnd == end
    && (end.None? ==> f.out == u.out)
    && (end.Some? ==> Pre(u, f) != [] && Last(Pre(u, f)).End() == end.value)
  }

  /** A fresh sink `g` started where the line in hand begins. */
  predicate LineMark(u: Sink, g: Sink, end: Option<nat>, pos: nat) {
    !u.midLine ==> AtLine(u, g) && (end.None? ==> g == u) && (end.Some? ==> end.value + |u.line| == pos)
  }

  ghost predicate MarkedBy(c: Config, s: Sink, u: Sink, f: Sink, g: Sink,
                           entryEnd: Option<nat>, lineEnd: Option<nat>, pos: nat) {
    EntryMark(c, s, u, f, entryEnd) && LineMark(u, g, lineEnd, pos)
  }

  /** What reading a line does to the marks. */
  lemma {:induction false} MarkedLine(c: Config, s: Sink, u: Sink, f: Sink, g: Sink, entryEnd: Option<nat>, lineEnd: Option<nat>,
                   line: seq<byte>, began: nat, continues: bool)
    requires EntryMark(c, s, u, f, entryEnd) && line != []
    requires !continues ==> AtLine(u, g) && (lineEnd.Some? ==> lineEnd.value == began)
    requires !continues && lineEnd.None? ==> s.entry == []
    requires s.entry != [] ==> s.entryBegin + |s.entry| == began
    ensures var d, again := Unlimited(c), Restarts(c, s, line, continues);
            && EntryMark(c, TakeLine(c, s, line, began, continues), TakeLine(d, u, line, began, continues),
                         TakeLine(d, if again then g else f, line, began, continues),
                         if again then lineEnd else entryEnd)
            && (again ==> !continues)
  {
    hide TakeLine, CloseEntry, Restarts;
    var d := Unlimited(c);
    var s', u' := TakeLine(c, s, line, began, continues), TakeLine(d, u, line, began, continues);
    MarkLine(c, s, u, f, g, Pre(u, f), line, began, continues);
    hide Limits, Follows;
    if Restarts(c, s, line, continues) {
      RestartsUncut(c, s, line, continues);
      MarkMoves(c, s', u', TakeLine(d, g, line, began, continues), began);
    } else {
      MarkStays(c, s, u, f, s', u', TakeLine(d, f, line, began, continues), entryEnd);
    }
  }

  lemma RestartsUncut(c: Config, s: Sink, line: seq<byte>, continues: bool)
    requires Restarts(c, s, line, continues)
    ensures !continues && s.entry != []
  {
  }

  /** The mark moves to where a record has just been emitted up to. */
  lemma MarkMoves(c: Config, s: Sink, u: Sink, g: Sink, end: nat)
    requires Limits(c, s, u) && Follows(u, g, s.out) && g.out == []
    requires s.emittedEnd == Some(end) && s.out != [] && Last(s.out).End() == end
    ensures EntryMark(c, s, u, g, Some(end))
  {
    assert s.out + [] == s.out;
  }

  /** Nothing was emitted that moves it. */
  lemma MarkStays(c: Config, s: Sink, u: Sink, f: Sink, s': Sink, u': Sink, f': Sink, end: Option<nat>)
    requires EntryMark(c, s, u, f, end) && Limits(c, s', u') && Follows(u', f', Pre(u, f))
    requires |Pre(u, f)| <= |s'.out| && s'.emittedEnd == s.emittedEnd
    ensures EntryMark(c, s', u', f', end)
  {
    assert (Pre(u, f) + f'.out)[..|Pre(u, f)|] == Pre(u, f);
    if end.None? {
      assert [] + f'.out == f'.out;
    }
  }

  /** The same line in every hand leaves the entry mark as it was. */
  lemma Relined(c: Config, s: Sink, u: Sink, f: Sink, end: Option<nat>, line: seq<byte>, at: nat, mid: bool)
    requires EntryMark(c, s, u, f, end)
    ensures EntryMark(c, s.(line := line, lineBegin := at, midLine := mid), u.(line := line, lineBegin := at, midLine := mid),
                      f.(line := line, lineBegin := at, midLine := mid), end)
  {
  }

  lemma {:induction false} MarkedCutLong(c: Config, s: Sink, u: Sink, f: Sink, g: Sink,
                                         entryEnd: Option<nat>, lineEnd: Option<nat>, pos: nat)
    requires MarkedBy(c, s, u, f, g, entryEnd, lineEnd, pos) && u.midLine
    ensures MarkedBy(c, CutLong(c, s), CutLong(Unlimited(c), u), CutLong(Unlimited(c), f), CutLong(Unlimited(c), g),
                     entryEnd, lineEnd, pos)
    ensures CutLong(Unlimited(c), u).midLine
  {
    LimitsCutLong(c, s, u);
    FollowsCutLong(Unlimited(c), u, f, Pre(u, f));
    hide CutLong;
  }

  lemma CutLongCuts(c: Config, s: Sink)
    requires |s.line| >= LINE_CAP
    ensures CutLong(c, s) == CutLong(c, CutOnce(c, s))
  {
    hide CutOnce;
  }

  lemma {:induction false} MarksNewline(c: Config, s: Sink, u: Sink, f: Sink, g: Sink, entryEnd: Option<nat>, lineEnd: Option<nat>,
                     b: byte, at: nat, r: Sink)
    requires MarkedBy(c, s, u, f, g, entryEnd, lineEnd, at) && b == NEWLINE
    requires s.lineBegin + |s.line| == at
    requires s.entry != [] ==> s.entryBegin + |s.entry| + |s.line| == at
    requires r == Restart(u.cur, at + 1)
    ensures var d, again := Unlimited(c), Restarts(c, s, s.line + [b], s.midLine);
            MarkedBy(c, TakeByte(c, s, b, at), TakeByte(d, u, b, at), TakeByte(d, if again then g else f, b, at), r,
                     if again then lineEnd else entryEnd, Some(at + 1), at + 1)
  {
    var d, next, line, began := Unlimited(c), at + 1, s.line + [b], s.lineBegin;
    var s0, u0 := s.(line := [], lineBegin := next, midLine := false), u.(line := [], lineBegin := next, midLine := false);
    var f0, g0 := f.(line := [], lineBegin := next, midLine := false), g.(line := [], lineBegin := next, midLine := false);
    MarkedAlike(c, s, u, f, g, entryEnd, lineEnd, at);
    Relined(c, s, u, f, entryEnd, [], next, false);
    hide TakeLine, Restarts, EntryMark, LineMark, MarkedBy;
    MarkedLine(c, s0, u0, f0, g0, entryEnd, lineEnd, line, began, s.midLine);
    TakeLineKeepsLine(d, u0, line, began, s.midLine);
    FreshLine(TakeLine(d, u0, line, began, s.midLine), next);
    Both(c, TakeByte(c, s, b, at), TakeByte(d, u, b, at),
         TakeByte(d, if Restarts(c, s, s.line + [b], s.midLine) then g else f, b, at), r,
         if Restarts(c, s, s.line + [b], s.midLine) then lineEnd else entryEnd, Some(next), next);
  }

  lemma FreshLine(u: Sink, at: nat)
    requires u.line == [] && u.lineBegin == at
    ensures LineMark(u, Restart(u.cur, at), Some(at), at)
  {
  }

  lemma Both(c: Config, s: Sink, u: Sink, f: Sink, g: Sink, entryEnd: Option<nat>, lineEnd: Option<nat>, pos: nat)
    requires EntryMark(c, s, u, f, entryEnd) && LineMark(u, g, lineEnd, pos)
    ensures MarkedBy(c, s, u, f, g, entryEnd, lineEnd, pos)
  {
    hide EntryMark, LineMark;
  }

  /** What the marked sinks have in hand is the same line, where it matters. */
  lemma MarkedAlike(c: Config, s: Sink, u: Sink, f: Sink, g: Sink, entryEnd: Option<nat>, lineEnd: Option<nat>, pos: nat)
    requires MarkedBy(c, s, u, f, g, entryEnd, lineEnd, pos)
    ensures s.line == u.line == f.line && s.lineBegin == u.lineBegin == f.lineBegin
    ensures s.midLine == u.midLine == f.midLine && s.entry == u.entry
    ensures !s.midLine ==> AtLine(u, g) && (lineEnd.Some? ==> lineEnd.value + |u.line| == pos)
    ensures !s.midLine && lineEnd.None? ==> s.entry == []
  {
  }

  lemma {:induction false} MarksCut(c: Config, s: Sink, u: Sink, f: Sink, g: Sink, entryEnd: Option<nat>, lineEnd: Option<nat>, pos: nat)
    requires MarkedBy(c, s, u, f, g, entryEnd, lineEnd, pos) && |s.line| >= LINE_CAP
    requires s.lineBegin + |s.line| == pos
    requires s.entry != [] ==> s.entryBegin + |s.entry| + |s.line| == pos
    ensures var d, again := Unlimited(c), Restarts(c, s, s.line[..LINE_CAP], s.midLine);
            var h := if again then g else f;
            |h.line| >= LINE_CAP &&
            MarkedBy(c, CutOnce(c, s), CutOnce(d, u), CutOnce(d, h), CutOnce(d, h),
                     if again then lineEnd else entryEnd, lineEnd, pos) && CutOnce(d, u).midLine
  {
    var d, next, fragment, began := Unlimited(c), s.lineBegin + LINE_CAP, s.line[..LINE_CAP], s.lineBegin;
    var rest := s.line[LINE_CAP..];
    var s0, u0 := s.(line := rest, lineBegin := next, midLine := true), u.(line := rest, lineBegin := next, midLine := true);
    var f0, g0 := f.(line := rest, lineBegin := next, midLine := true), g.(line := rest, lineBegin := next, midLine := true);
    MarkedAlike(c, s, u, f, g, entryEnd, lineEnd, pos);
    Relined(c, s, u, f, entryEnd, rest, next, true);
    hide TakeLine, CutOnce, Restarts, EntryMark;
    CutOnceIs(c, s, rest, next, fragment);
    CutOnceIs(d, u, rest, next, fragment);
    MarkedLine(c, s0, u0, f0, g0, entryEnd, lineEnd, fragment, began, s.midLine);
    TakeLineKeepsLine(d, u0, fragment, began, s.midLine);
    CutOnceIs(d, if Restarts(c, s, fragment, s.midLine) then g else f, rest, next, fragment);
  }

  lemma CutOnceIs(c: Config, s: Sink, rest: seq<byte>, next: nat, fragment: seq<byte>)
    requires |s.line| >= LINE_CAP && rest == s.line[LINE_CAP..] && fragment == s.line[..LINE_CAP]
    requires next == s.lineBegin + LINE_CAP
    ensures CutOnce(c, s)
         == TakeLine(c, s.(line := rest, lineBegin := next, midLine := true), fragment, s.lineBegin, s.midLine)
  {
    hide TakeLine;
  }

  predicate RestartsAtEnd(c: Config, s: Sink) {
    |s.line| >= LINE_CAP && Restarts(c, s, s.line[..LINE_CAP], s.midLine)
  }

  lemma MarksEnd(c: Config, s: Sink, u: Sink, f: Sink, g: Sink, entryEnd: Option<nat>, lineEnd: Option<nat>, pos: nat)
    requires MarkedBy(c, s, u, f, g, entryEnd, lineEnd, pos)
    requires s.lineBegin + |s.line| == pos
    requires s.entry != [] ==> s.entryBegin + |s.entry| + |s.line| == pos
    ensures var d, again := Unlimited(c), RestartsAtEnd(c, s);
            MarkedBy(c, CutLong(c, s), CutLong(d, u), CutLong(d, if again then g else f), CutLong(d, g),
                     if again then lineEnd else entryEnd, lineEnd, pos)
  {
    var d, again := Unlimited(c), RestartsAtEnd(c, s);
    var h, end := if again then g else f, if again then lineEnd else entryEnd;
    if |s.line| < LINE_CAP {
      MarksNoCut(c, s, u, f, g, entryEnd, lineEnd, pos);
    } else {
      MarksCut(c, s, u, f, g, entryEnd, lineEnd, pos);
      CutLongCuts(c, s);
      CutLongCuts(d, u);
      CutLongCuts(d, h);
      hide CutLong, CutOnce, Restarts;
      var s1, u1, h1 := CutOnce(c, s), CutOnce(d, u), CutOnce(d, h);
      MarkedCutLong(c, s1, u1, h1, h1, end, lineEnd, pos);
      MarksCutDone(c, CutLong(c, s), CutLong(d, u), CutLong(d, h), CutLong(d, g), end, lineEnd, pos);
    }
  }

  /** The states one event takes to the next, by the marks that were there before it. */
  lemma {:induction false} MarksBefore(c: Config, evs: seq<Event>, start: nat, k: nat, l: nat)
    requires evs != [] && Placed(evs, start) && Marked(c, Front(evs), start, k, l)
    ensures var d, e, pos := Unlimited(c), Last(evs), start + |EventData(Front(evs))|;
            var s, u, f, g := Run(c, New, Front(evs)), Run(d, New, Front(evs)),
                              FreshAt(d, Front(evs), k), FreshAt(d, Front(evs), l);
            && Mark(evs, k) && Mark(evs, l)
            && MarkedBy(c, s, u, f, g, MarkEnd(evs, k), MarkEnd(evs, l), pos)
            && Run(c, New, evs) == Step(c, s, e) && Run(d, New, evs) == Step(d, u, e)
            && FreshAt(d, evs, k) == Step(d, f, e) && FreshAt(d, evs, l) == Step(d, g, e)
            && (e.Byte? || e.End? ==> s.lineBegin + |s.line| == pos)
            && (s.entry != [] ==> s.entryBegin + |s.entry| + |s.line| == pos)
  {
    hide Step, MarkedBy, FreshAt, SinkLaid;
    EventsLaid(c, Front(evs), start);
    FreshStep(Unlimited(c), evs, k);
    FreshStep(Unlimited(c), evs, l);
    EntryEnds(Run(c, New, Front(evs)), start, EventData(Front(evs)), Pushing(Front(evs)));
  }

  lemma MarkedIs(c: Config, evs: seq<Event>, start: nat, k: nat, l: nat, pos: nat)
    requires Mark(evs, k) && Mark(evs, l) && pos == start + |EventData(evs)|
    requires MarkedBy(c, Run(c, New, evs), Run(Unlimited(c), New, evs), FreshAt(Unlimited(c), evs, k),
                      FreshAt(Unlimited(c), evs, l), MarkEnd(evs, k), MarkEnd(evs, l), pos)
    ensures Marked(c, evs, start, k, l)
  {
    hide MarkedBy, Run, FreshAt;
  }

  lemma MarkedMarks(c: Config, evs: seq<Event>, start: nat, k: nat, l: nat)
    requires Marked(c, evs, start, k, l)
    ensures Mark(evs, k) && Mark(evs, l)
  {
    hide MarkedBy, Run, FreshAt;
  }

  lemma BytePlaced(evs: seq<Event>, start: nat)
    requires evs != [] && Placed(evs, start) && Last(evs).Byte?
    ensures Last(evs).at == start + |EventData(Front(evs))| && Last(evs).at + 1 == start + |EventData(evs)|
  {
  }

  lemma StepIsByte(c: Config, s: Sink, e: Event)
    requires e.Byte?
    ensures Step(c, s, e) == TakeByte(c, s, e.b, e.at)
  {
    hide TakeByte;
  }

  lemma SourceStays(c: Config, evs: seq<Event>)
    requires evs != [] && Last(evs).Byte?
    ensures SourceAfter(evs) == Run(c, New, Front(evs)).cur
  {
    RunSource(c, Front(evs));
    hide Run;
  }

  lemma {:induction false} MarksStepNewline(c: Config, evs: seq<Event>, start: nat, k: nat, l: nat) returns (k': nat)
    requires evs != [] && Placed(evs, start) && Marked(c, Front(evs), start, k, l)
    requires Last(evs).Byte? && Last(evs).b == NEWLINE
    ensures Marked(c, evs, start, k', |evs|)
  {
    hide TakeByte, Step, FreshAt, MarkedBy, Restarts, Run, Marked, EventData, Placed, SourceAfter;
    var d, e := Unlimited(c), Last(evs);
    var at := e.at;
    MarkedMarks(c, Front(evs), start, k, l);
    MarksBefore(c, evs, start, k, l);
    FreshHere(d, evs);
    SourceStays(d, evs);
    BytePlaced(evs, start);
    var s, u := Run(c, New, Front(evs)), Run(d, New, Front(evs));
    var f, g := FreshAt(d, Front(evs), k), FreshAt(d, Front(evs), l);
    StepIsByte(c, s, e);
    StepIsByte(d, u, e);
    StepIsByte(d, f, e);
    StepIsByte(d, g, e);
    MarksNewline(c, s, u, f, g, MarkEnd(evs, k), MarkEnd(evs, l), e.b, at, Restart(u.cur, at + 1));
    k' := if Restarts(c, s, s.line + [e.b], s.midLine) then l else k;
    MarkedIs(c, evs, start, k', |evs|, at + 1);
  }

  lemma MarksStepByte(c: Config, evs: seq<Event>, start: nat, k: nat, l: nat)
    requires evs != [] && Placed(evs, start) && Marked(c, Front(evs), start, k, l)
    requires Last(evs).Byte? && Last(evs).b != NEWLINE
    ensures Marked(c, evs, start, k, l)
  {
    var d, b, at := Unlimited(c), Last(evs).b, Last(evs).at;
    var s, u := Run(c, New, Front(evs)), Run(d, New, Front(evs));
    var f, g := FreshAt(d, Front(evs), k), FreshAt(d, Front(evs), l);
    MarksBefore(c, evs, start, k, l);
    hide TakeByte, FreshAt, MarkedBy, Run;
    MarksByte(c, s, u, f, g, MarkEnd(evs, k), MarkEnd(evs, l), b, at);
  }

  lemma MarksStepEnd(c: Config, evs: seq<Event>, start: nat, k: nat, l: nat) returns (k': nat)
    requires evs != [] && Placed(evs, start) && Marked(c, Front(evs), start, k, l) && Last(evs).End?
    ensures Marked(c, evs, start, k', l)
  {
    var d, pos := Unlimited(c), start + |EventData(Front(evs))|;
    var s, u := Run(c, New, Front(evs)), Run(d, New, Front(evs));
    var f, g := FreshAt(d, Front(evs), k), FreshAt(d, Front(evs), l);
    MarksBefore(c, evs, start, k, l);
    assert EventData(evs) == EventData(Front(evs));
    hide CutLong, FreshAt, MarkedBy, Run, RestartsAtEnd;
    MarksEnd(c, s, u, f, g, MarkEnd(evs, k), MarkEnd(evs, l), pos);
    k' := if RestartsAtEnd(c, s) then l else k;
  }

  lemma MarksStepOther(c: Config, evs: seq<Event>, start: nat, k: nat, l: nat)
    requires evs != [] && Placed(evs, start) && Marked(c, Front(evs), start, k, l)
    requires !Last(evs).Byte? && !Last(evs).End?
    ensures Marked(c, evs, start, k, l)
  {
    var d, pos := Unlimited(c), start + |EventData(Front(evs))|;
    var s, u := Run(c, New, Front(evs)), Run(d, New, Front(evs));
    var f, g := FreshAt(d, Front(evs), k), FreshAt(d, Front(evs), l);
    MarksBefore(c, evs, start, k, l);
    assert EventData(evs) == EventData(Front(evs));
    hide Step, FreshAt, MarkedBy, Run;
    MarksOther(c, s, u, f, g, MarkEnd(evs, k), MarkEnd(evs, l), pos, Last(evs));
  }

  /** Every run has its two marks. */
  lemma {:induction false} FindMarks(c: Config, evs: seq<Event>, start: nat) returns (k: nat, l: nat)
    requires Placed(evs, start)
    ensures Marked(c, evs, start, k, l)
  {
    k, l := 0, 0;
    if evs != [] {
      k, l := FindMarks(c, Front(evs), start);
      var e := Last(evs);
      hide Marked;
      if e.Byte? && e.b == NEWLINE {
        k := MarksStepNewline(c, evs, start, k, l);
        l := |evs|;
      } else if e.Byte? {
        MarksStepByte(c, evs, start, k, l);
      } else if e.End? {
        k := MarksStepEnd(c, evs, start, k, l);
      } else {
        MarksStepOther(c, evs, start, k, l);
      }
    }
  }

  lemma EntryEnds(s: Sink, start: nat, x: seq<byte>, pushing: bool)
    requires SinkLaid(false, s, start, x, pushing)
    ensures pushing ==> s.lineBegin + |s.line| == start + |x|
    ensures s.entry != [] ==> s.entryBegin + |s.entry| + |s.line| == start + |x|
  {
  }

  lemma MarksByte(c: Config, s: Sink, u: Sink, f: Sink, g: Sink, entryEnd: Option<nat>, lineEnd: Option<nat>,
                  b: byte, at: nat)
    requires MarkedBy(c, s, u, f, g, entryEnd, lineEnd, at) && b != NEWLINE
    ensures var d := Unlimited(c);
            MarkedBy(c, TakeByte(c, s, b, at), TakeByte(d, u, b, at), TakeByte(d, f, b, at), TakeByte(d, g, b, at),
                     entryEnd, lineEnd, at + 1)
  {
  }

  lemma MarksNoCut(c: Config, s: Sink, u: Sink, f: Sink, g: Sink, entryEnd: Option<nat>, lineEnd: Option<nat>, pos: nat)
    requires MarkedBy(c, s, u, f, g, entryEnd, lineEnd, pos) && |s.line| < LINE_CAP
    ensures var d := Unlimited(c);
            MarkedBy(c, CutLong(c, s), CutLong(d, u), CutLong(d, f), CutLong(d, g), entryEnd, lineEnd, pos)
  {
  }

  lemma MarksCutDone(c: Config, s: Sink, u: Sink, h: Sink, g': Sink, end: Option<nat>, lineEnd: Option<nat>, pos: nat)
    requires u.midLine && MarkedBy(c, s, u, h, h, end, lineEnd, pos)
    ensures MarkedBy(c, s, u, h, g', end, lineEnd, pos)
  {
  }

  lemma {:induction false} MarksOther(c: Config, s: Sink, u: Sink, f: Sink, g: Sink, entryEnd: Option<nat>, lineEnd: Option<nat>,
                   pos: nat, e: Event)
    requires MarkedBy(c, s, u, f, g, entryEnd, lineEnd, pos) && !e.Byte? && !e.End?
    ensures var d := Unlimited(c);
            MarkedBy(c, Step(c, s, e), Step(d, u, e), Step(d, f, e), Step(d, g, e), entryEnd, lineEnd, pos)
  {
    var d := Unlimited(c);
    match e
    case Begin(_, _, _) => MarksBegin(c, s, u, f, g, entryEnd, lineEnd, pos, e);
    case Flush =>
      FollowsClose(d, u, f, Pre(u, f));
      LimitsClose(c, s, u);
      hide CloseEntry, Limits, Follows;
      MarkStays(c, s, u, f, CloseEntry(c, s), CloseEntry(d, u), CloseEntry(d, f), entryEnd);
      LineMarkFlushed(d, u, g, lineEnd, pos);
    case Others(n) => MarksCounted(c, s, u, f, g, entryEnd, lineEnd, pos, n);
  }

  lemma MarksBegin(c: Config, s: Sink, u: Sink, f: Sink, g: Sink, entryEnd: Option<nat>, lineEnd: Option<nat>,
                   pos: nat, e: Event)
    requires MarkedBy(c, s, u, f, g, entryEnd, lineEnd, pos) && e.Begin?
    ensures var d := Unlimited(c);
            MarkedBy(c, Step(c, s, e), Step(d, u, e), Step(d, f, e), Step(d, g, e), entryEnd, lineEnd, pos)
  {
  }

  lemma MarksCounted(c: Config, s: Sink, u: Sink, f: Sink, g: Sink, entryEnd: Option<nat>, lineEnd: Option<nat>,
                     pos: nat, n: nat)
    requires MarkedBy(c, s, u, f, g, entryEnd, lineEnd, pos)
    ensures var d, e := Unlimited(c), Others(n);
            MarkedBy(c, Step(c, s, e), Step(d, u, e), Step(d, f, e), Step(d, g, e), entryEnd, lineEnd, pos)
  {
  }

  /** A flush does not move where the line in hand begins. */
  lemma LineMarkFlushed(d: Config, u: Sink, g: Sink, end: Option<nat>, pos: nat)
    requires LineMark(u, g, end, pos)
    ensures LineMark(CloseEntry(d, u), CloseEntry(d, g), end, pos)
  {
    if !u.midLine {
      CloseNothing(d, g);
      if u.entry == [] {
        CloseNothing(d, u);
      }
    }
    hide CloseEntry;
  }

  lemma FreshHere(c: Config, evs: seq<Event>)
    requires evs != [] && Last(evs).Byte?
    ensures Mark(evs, |evs|) && MarkEnd(evs, |evs|) == Some(Last(evs).at + 1)
    ensures FreshAt(c, evs, |evs|) == Restart(SourceAfter(evs), Last(evs).at + 1)
  {
    assert evs[..|evs|] == evs && evs[|evs|..] == [];
  }

  // ------------------------------------------------------ down to inputs

  lemma {:induction false} FeedIsRun(c: Config, ins: seq<Input>, start: nat)
    ensures Feed(c, New, ins, start) == Run(c, New, Events(ins, start))
  {
    if ins != [] {
      FeedIsRun(c, Front(ins), start);
      RunConcat(c, New, Events(Front(ins), start), EventsOf(Last(ins), start + |Data(Front(ins))|));
    }
  }

  lemma {:induction false} EventsPlaced(ins: seq<Input>, start: nat)
    ensures Placed(Events(ins, start), start) && !Pushing(Events(ins, start))
    ensures EventData(Events(ins, start)) == Data(ins)
  {
    if ins != [] {
      hide Placed, Pushing, EventData, EventsOf, DataOf, Events, Data;
      EventsPlaced(Front(ins), start);
      var pos := start + |Data(Front(ins))|;
      EventsLast(ins, start, pos);
      InputPlaced(Events(Front(ins), start), Last(ins), start, pos);
    }
  }

  lemma InputPlaced(evs: seq<Event>, i: Input, start: nat, pos: nat)
    requires Placed(evs, start) && !Pushing(evs) && pos == start + |EventData(evs)|
    ensures var all := evs + EventsOf(i, pos);
            Placed(all, start) && !Pushing(all) && EventData(all) == EventData(evs) + DataOf(i)
  {
    hide Placed, EventData, Pushing;
    match i
    case Push(data, chunk, win) =>
      var b := evs + [Begin(chunk, win, pos)];
      SnocPlaced(evs, Begin(chunk, win, pos), start, pos);
      assert EventData(evs) + [] == EventData(evs);
      BytesPlaced(b, data, pos, start);
      var all := b + Bytes(data, pos);
      SnocPlaced(all, End, start, pos + |data|);
      assert EventData(all) + [] == EventData(all);
      PushJoins(evs, data, chunk, win, pos);
    case Idle => SnocPlaced(evs, Flush, start, pos);
    case Siblings(n) => SnocPlaced(evs, Others(n), start, pos);
  }

  lemma PushJoins(evs: seq<Event>, data: seq<byte>, chunk: Option<nat>, win: Window, pos: nat)
    ensures evs + PushEvents(data, chunk, win, pos) == evs + [Begin(chunk, win, pos)] + Bytes(data, pos) + [End]
  {
  }

  lemma {:induction false} BytesPlaced(evs: seq<Event>, data: seq<byte>, pos: nat, start: nat)
    requires Placed(evs, start) && Pushing(evs) && pos == start + |EventData(evs)|
    ensures var all := evs + Bytes(data, pos);
            Placed(all, start) && Pushing(all) && EventData(all) == EventData(evs) + data
  {
    hide Placed, EventData, Pushing;
    if data == [] {
      assert evs + Bytes(data, pos) == evs;
      assert EventData(evs) + data == EventData(evs);
    } else {
      var at := pos + |data| - 1;
      BytesPlaced(evs, Front(data), pos, start);
      SnocPlaced(evs + Bytes(Front(data), pos), Byte(Last(data), at), start, at);
      assert evs + Bytes(data, pos) == evs + Bytes(Front(data), pos) + [Byte(Last(data), at)];
      assert EventData(evs) + data == EventData(evs) + Front(data) + [Last(data)];
    }
  }

  lemma {:induction false} BytePlaces(evs: seq<Event>, start: nat, i: nat)
    requires Placed(evs, start) && i < |evs| && evs[i].Byte?
    ensures start <= evs[i].at < start + |EventData(evs)|
  {
    if i < |evs| - 1 {
      BytePlaces(Front(evs), start, i);
    }
  }

  /** What remains to be pushed from the offset `p` on; an empty remainder of a chunk is pushed too. */
  function Tail(ins: seq<Input>, start: nat, p: nat): seq<Input> {
    if ins == [] then []
    else
      var pos := start + |Data(Front(ins))|;
      if p <= pos then Tail(Front(ins), start, p) + [Last(ins)]
      else if Last(ins).Push? && p - pos <= |Last(ins).data| then [Last(ins).(data := Last(ins).data[p - pos..])]
      else []
  }

  /** `tail` restarts in the chunk that holds the byte before `p` and goes on as `evs` does. */
  predicate Continues(tail: seq<Event>, evs: seq<Event>, k: nat, from: Source, p: nat) {
    k <= |evs| && tail == [Begin(from.chunk, from.win, p)] + evs[k..]
  }

  lemma {:induction false} TailEvents(ins: seq<Input>, start: nat, evs: seq<Event>, k: nat, p: nat)
    requires evs == Events(ins, start) && Mark(evs, k) && k > 0 && p == MarkAt(evs, k)
    ensures Continues(Events(Tail(ins, start, p), p), evs, k, SourceAfter(evs[..k]), p)
    ensures p + |Data(Tail(ins, start, p))| == start + |Data(ins)|
  {
    if ins == [] {
      return;
    }
    hide Placed, SourceAfter, EventsOf, Continues, Tail, Events, Data, EventData;
    var front, pos := Events(Front(ins), start), start + |Data(Front(ins))|;
    EventsPlaced(Front(ins), start);
    EventsLast(ins, start, pos);
    if k <= |front| {
      assert evs[..k] == front[..k];
      BytePlaces(front, start, k - 1);
      TailEvents(Front(ins), start, front, k, p);
      TailInFront(ins, start, front, k, p, pos);
    } else {
      TailInLast(ins, start, front, k, p, pos);
    }
  }

  lemma TailInFront(ins: seq<Input>, start: nat, front: seq<Event>, k: nat, p: nat, pos: nat)
    requires ins != [] && front == Events(Front(ins), start) && pos == start + |Data(Front(ins))|
    requires k <= |front| && p <= pos
    requires Continues(Events(Tail(Front(ins), start, p), p), front, k, SourceAfter(front[..k]), p)
    requires p + |Data(Tail(Front(ins), start, p))| == pos
    ensures var evs := Events(ins, start);
            k <= |evs| && Continues(Events(Tail(ins, start, p), p), evs, k, SourceAfter(evs[..k]), p)
    ensures p + |Data(Tail(ins, start, p))| == start + |Data(ins)|
  {
    hide EventsOf, SourceAfter, Tail, Events, DataOf, Data;
    var evs, rest, i := Events(ins, start), Tail(Front(ins), start, p), Last(ins);
    var more := EventsOf(i, pos);
    EventsLast(ins, start, pos);
    assert evs[..k] == front[..k] && evs[k..] == front[k..] + more;
    TailFront(ins, start, p);
    EventsSnoc(rest, i, p, pos);
  }

  lemma EventsLast(ins: seq<Input>, start: nat, pos: nat)
    requires ins != [] && pos == start + |Data(Front(ins))|
    ensures Events(ins, start) == Events(Front(ins), start) + EventsOf(Last(ins), pos)
    ensures Data(ins) == Data(Front(ins)) + DataOf(Last(ins))
  {
    hide EventsOf, DataOf;
  }

  lemma TailFront(ins: seq<Input>, start: nat, p: nat)
    requires ins != [] && p <= start + |Data(Front(ins))|
    ensures Tail(ins, start, p) == Tail(Front(ins), start, p) + [Last(ins)]
  {
    hide Data;
  }

  lemma TailLast(ins: seq<Input>, start: nat, p: nat, pos: nat)
    requires ins != [] && pos == start + |Data(Front(ins))| && pos < p
    requires Last(ins).Push? && p - pos <= |Last(ins).data|
    ensures Tail(ins, start, p) == [Push(Last(ins).data[p - pos..], Last(ins).chunk, Last(ins).win)]
  {
    hide Data;
  }

  lemma EventsSnoc(ins: seq<Input>, i: Input, start: nat, pos: nat)
    requires pos == start + |Data(ins)|
    ensures Events(ins + [i], start) == Events(ins, start) + EventsOf(i, pos)
    ensures Data(ins + [i]) == Data(ins) + DataOf(i)
  {
    hide EventsOf, DataOf;
    assert Front(ins + [i]) == ins;
  }

  lemma TailInLast(ins: seq<Input>, start: nat, front: seq<Event>, k: nat, p: nat, pos: nat)
    requires ins != [] && front == Events(Front(ins), start) && pos == start + |Data(Front(ins))|
    requires var evs := Events(ins, start); Mark(evs, k) && k > |front| && p == MarkAt(evs, k)
    ensures var evs := Events(ins, start);
            Continues(Events(Tail(ins, start, p), p), evs, k, SourceAfter(evs[..k]), p)
    ensures p + |Data(Tail(ins, start, p))| == start + |Data(ins)|
  {
    hide SourceAfter, Tail, Events, Bytes, Data;
    var evs, i := Events(ins, start), Last(ins);
    EventsLast(ins, start, pos);
    LastIsPush(front, i, pos, k);
    var q, data := k - |front| - 1, i.data;
    PushJoins(front, data, i.chunk, i.win, pos);
    var b := front + [Begin(i.chunk, i.win, pos)];
    ByteAt(b, data, pos, k - 1, q - 1);
    var rest := Push(data[q..], i.chunk, i.win);
    TailLast(ins, start, p, pos);
    EventsOne(rest, p);
    SourceInPush(front, data, i.chunk, i.win, pos, q);
    BytesSplit(data, pos, q, p);
    SplitPush(b, Bytes(data[..q], pos), Bytes(data[q..], p), k);
  }

  lemma LastIsPush(front: seq<Event>, i: Input, pos: nat, k: nat)
    requires Mark(front + EventsOf(i, pos), k) && k > |front|
    ensures i.Push?
  {
    hide PushEvents;
  }

  lemma EventsOne(i: Input, start: nat)
    ensures Events([i], start) == EventsOf(i, start) && Data([i]) == DataOf(i)
  {
    EventsSnoc([], i, start, start);
    assert [] + [i] == [i];
  }

  lemma ByteAt(b: seq<Event>, data: seq<byte>, pos: nat, k: nat, q: int)
    requires k == |b| + q && k < |b| + |data| + 1
    requires (b + Bytes(data, pos) + [End])[k].Byte? && -1 <= q && (q == -1 ==> b != [] && b[|b| - 1].Begin?)
    ensures 0 <= q < |data| && (b + Bytes(data, pos) + [End])[k].at == pos + q
  {
  }

  lemma SplitPush(b: seq<Event>, x: seq<Event>, y: seq<Event>, k: nat)
    requires k == |b| + |x|
    ensures var all := b + (x + y) + [End]; all[..k] == b + x && all[k..] == y + [End]
  {
  }

  lemma BytesSplit(data: seq<byte>, pos: nat, q: nat, p: nat)
    requires q <= |data| && p == pos + q
    ensures Bytes(data, pos) == Bytes(data[..q], pos) + Bytes(data[q..], p)
  {
  }

  lemma {:induction false} SourceInPush(front: seq<Event>, data: seq<byte>, chunk: Option<nat>, win: Window,
                                        pos: nat, q: nat)
    requires q <= |data|
    ensures SourceAfter(front + [Begin(chunk, win, pos)] + Bytes(data[..q], pos)) == Source(chunk, win)
  {
    var evs := front + [Begin(chunk, win, pos)] + Bytes(data[..q], pos);
    if q > 0 {
      assert Front(evs) == front + [Begin(chunk, win, pos)] + Bytes(data[..q - 1], pos);
      SourceInPush(front, data, chunk, win, pos, q - 1);
    }
  }

  // ----------------------------------------------------------- the theorem

  /** A sink stopped by a bound: its pending entry is discarded, not emitted. */
  function Stopped(c: Config, ins: seq<Input>, start: nat): Sink {
    Finish(c, DiscardPending(Feed(c, New, ins, start)))
  }

  /** What an unlimited fresh sink emits from where `stopped` says to resume. */
  function EmittedFrom(c: Config, stopped: Sink, ins: seq<Input>, start: nat): seq<Record> {
    match stopped.emittedEnd
    case None => Emitted(Unlimited(c), ins, start)
    case Some(p) => Emitted(Unlimited(c), Tail(ins, start, p), p)
  }

  lemma {:induction false} EventsExtend(ins: seq<Input>, n: nat, start: nat)
    requires n <= |ins|
    ensures Events(ins[..n], start) <= Events(ins, start)
  {
    if n < |ins| {
      assert Front(ins)[..n] == ins[..n];
      EventsExtend(Front(ins), n, start);
    } else {
      assert ins[..n] == ins;
    }
  }

  lemma FreshAtExtends(c: Config, evs: seq<Event>, more: seq<Event>, k: nat)
    requires Mark(evs, k)
    ensures Mark(evs + more, k) && FreshAt(c, evs + more, k) == Run(c, FreshAt(c, evs, k), more)
  {
    var all := evs + more;
    if k == 0 {
      RunConcat(c, New, evs, more);
    } else {
      assert all[..k] == evs[..k] && all[k - 1] == evs[k - 1] && all[k..] == evs[k..] + more;
      RunConcat(c, Restart(SourceAfter(evs[..k]), MarkAt(evs, k)), evs[k..], more);
    }
  }

  /** A fresh sink fed the tail from a mark is the follower started at that mark. */
  lemma TailIsFresh(c: Config, ins: seq<Input>, start: nat, evs: seq<Event>, k: nat, p: nat)
    requires evs == Events(ins, start) && Mark(evs, k) && k > 0 && p == MarkAt(evs, k)
    ensures Feed(c, New, Tail(ins, start, p), p) == FreshAt(c, evs, k)
  {
    var from := SourceAfter(evs[..k]);
    var b := Begin(from.chunk, from.win, p);
    assert Step(c, New, b) == Restart(from, p);
    hide Run, Step, Events, Tail, SourceAfter, Feed, Restart;
    TailEvents(ins, start, evs, k, p);
    FeedIsRun(c, Tail(ins, start, p), p);
    RunConcat(c, New, [b], evs[k..]);
    RunOne(c, New, b);
  }

  lemma FreshAtStart(c: Config, evs: seq<Event>)
    ensures FreshAt(c, evs, 0) == Run(c, New, evs)
  {
  }

  lemma StoppedKeeps(c: Config, s: Sink)
    ensures var t := Finish(c, DiscardPending(s)); t.out == s.out && t.emittedEnd == s.emittedEnd
  {
  }

  /** The follower's share begins at the last record exactly when that record ends at `end`. */
  lemma PreIsAll(out: seq<Record>, pre: seq<Record>, end: Option<nat>, start: nat, x: seq<byte>)
    requires pre <= out && Laid(false, out, start, x)
    requires end.None? ==> pre == []
    requires end.Some? ==> pre != [] && Last(pre).End() == end.value
    ensures pre == out <==> out == [] || end == Some(Last(out).End())
  {
    if |pre| < |out| {
      LaidAt(out, start, x, |out| - 1);
    }
  }

  /** What was emitted before the follower of record started. */
  ghost function Before(c: Config, evs: seq<Event>, start: nat, k: nat, l: nat): seq<Record>
    requires Marked(c, evs, start, k, l)
  {
    Pre(Run(Unlimited(c), New, evs), FreshAt(Unlimited(c), evs, k))
  }

  lemma ResumedOutput(c: Config, ins: seq<Input>, n: nat, start: nat, k: nat, l: nat)
    requires n <= |ins| && Marked(c, Events(ins[..n], start), start, k, l)
    ensures var d, evs, stopped := Unlimited(c), Events(ins[..n], start), Stopped(c, ins[..n], start);
            Emitted(d, ins, start) == Before(c, evs, start, k, l) + EmittedFrom(c, stopped, ins, start)
  {
    var d, evs, all := Unlimited(c), Events(ins[..n], start), Events(ins, start);
    EventsExtend(ins, n, start);
    var more := all[|evs|..];
    assert all == evs + more;
    var u, f := Run(d, New, evs), FreshAt(d, evs, k);
    var pre := Pre(u, f);
    hide Run, Finish, FreshAt, Follows, Limits, AtLine, Feed, Events, Tail, DiscardPending;
    FeedIsRun(c, ins[..n], start);
    FeedIsRun(d, ins, start);
    RunConcat(d, New, evs, more);
    FreshAtExtends(d, evs, more, k);
    FollowsRun(d, u, f, pre, more);
    FollowsFinish(d, Run(d, u, more), Run(d, f, more), pre);
    StoppedKeeps(c, Feed(c, New, ins[..n], start));
    assert Finish(d, FreshAt(d, all, k)).out == EmittedFrom(c, Stopped(c, ins[..n], start), ins, start) by {
      if k > 0 {
        TailIsFresh(d, ins, start, all, k, MarkAt(all, k));
      } else {
        FreshAtStart(d, all);
      }
    }
  }

  lemma PreOfMarks(c: Config, evs: seq<Event>, start: nat, k: nat, l: nat)
    requires Marked(c, evs, start, k, l) && Placed(evs, start)
    ensures var s, pre := Run(c, New, evs), Before(c, evs, start, k, l);
            pre <= s.out && (pre == s.out <==> s.out == [] || s.emittedEnd == Some(Last(s.out).End()))
  {
    var s, pre := Run(c, New, evs), Before(c, evs, start, k, l);
    MarkedFacts(c, evs, start, k, l);
    EventsLaid(c, evs, start);
    OutLaid(s, start, EventData(evs), Pushing(evs));
    hide Run, FreshAt, Marked, Before, Laid, SinkLaid, Pushing, EventData;
    var x :| Laid(false, s.out, start, x);
    PreIsAll(s.out, pre, MarkEnd(evs, k), start, x);
  }

  lemma OutLaid(s: Sink, start: nat, x: seq<byte>, pushing: bool)
    requires SinkLaid(false, s, start, x, pushing)
    ensures exists y :: Laid(false, s.out, start, y)
  {
    hide Laid;
  }

  lemma MarkedFacts(c: Config, evs: seq<Event>, start: nat, k: nat, l: nat)
    requires Marked(c, evs, start, k, l)
    ensures var s, pre, end := Run(c, New, evs), Before(c, evs, start, k, l), MarkEnd(evs, k);
            && pre <= s.out && s.emittedEnd == end
            && (end.None? ==> pre == [])
            && (end.Some? ==> pre != [] && Last(pre).End() == end.value)
  {
    hide Run, FreshAt, Same, AtLine;
  }

  /** Stop after any `n` inputs, for any window, predicates and limit, wherever the caps cut. */
  lemma ResumingIsExact(c: Config, ins: seq<Input>, n: nat, start: nat)
    requires n <= |ins|
    ensures var stopped := Stopped(c, ins[..n], start);
            stopped.out + EmittedFrom(c, stopped, ins, start) == Emitted(Unlimited(c), ins, start)
            <==> stopped.out == [] || stopped.emittedEnd == Some(Last(stopped.out).End())
  {
    hide Run, FreshAt, Feed, Events, Finish, DiscardPending, Marked, Placed, EmittedFrom, Emitted, Pre;
    var evs := Events(ins[..n], start);
    EventsPlaced(ins[..n], start);
    var k, l := FindMarks(c, evs, start);
    FeedIsRun(c, ins[..n], start);
    StoppedKeeps(c, Run(c, New, evs));
    ResumedOutput(c, ins, n, start, k, l);
    PreOfMarks(c, evs, start, k, l);
    var stopped := Stopped(c, ins[..n], start);
    CancelRight(stopped.out, Before(c, evs, start, k, l), EmittedFrom(c, stopped, ins, start));
  }

  lemma CancelRight<T>(a: seq<T>, b: seq<T>, rest: seq<T>)
    requires b <= a
    ensures a + rest == b + rest <==> b == a
  {
    assert |a + rest| == |b + rest| ==> |a| == |b|;
  }
}
