/**
 * When a stopped sink resumes exactly, read off what it was given: if and only
 * if the last record it emitted was closed by a stamped line. The other two
 * ways to close one, an unstamped line that finds no room and an idle flush,
 * leave `emittedEnd` where it was.
 */
module EntryStops {
  import opened Common
  import opened EntryModel
  import opened EntryTape
  import opened EntryResume
  import opened EntryCutting

  datatype Closing = ByStamp | ByCap | ByIdle

  /** What closed the last record emitted, `was` being what had closed the one before. */
  function LineCloses(c: Config, s: Sink, line: seq<byte>, continues: bool, was: Option<Closing>): Option<Closing> {
    if Joins(c, s, line, continues) || Yield(c, s) == [] then was
    else Some(if StampOf(c, line, continues).Some? then ByStamp else ByCap)
  }

  function CutCloses(c: Config, s: Sink, was: Option<Closing>): Option<Closing>
    decreases |s.line|
  {
    if |s.line| < LINE_CAP then was
    else
      CutOnceShortens(c, s);
      CutCloses(c, CutOnce(c, s), LineCloses(c, s, s.line[..LINE_CAP], s.midLine, was))
  }

  lemma CutOnceShortens(c: Config, s: Sink)
    requires |s.line| >= LINE_CAP
    ensures |CutOnce(c, s).line| < |s.line|
  {
    TakeLineKeepsLine(c, s.(line := s.line[LINE_CAP..], lineBegin := s.lineBegin + LINE_CAP, midLine := true),
                      s.line[..LINE_CAP], s.lineBegin, s.midLine);
  }

  function EventCloses(c: Config, s: Sink, e: Event, was: Option<Closing>): Option<Closing> {
    match e
    case Byte(b, _) => if b == NEWLINE then LineCloses(c, s, s.line + [b], s.midLine, was) else was
    case End => CutCloses(c, s, was)
    case Flush => if Yield(c, s) == [] then was else Some(ByIdle)
    case _ => was
  }

  function LastClosing(c: Config, evs: seq<Event>): Option<Closing> {
    if evs == [] then None
    else EventCloses(c, Run(c, New, Front(evs)), Last(evs), LastClosing(c, Front(evs)))
  }

  /** Nothing was emitted, or a stamped line closed what was emitted last. */
  predicate Stamped(was: Option<Closing>) {
    was in {None, Some(ByStamp)}
  }

  // ------------------------------------------------ what `emittedEnd` says

  /** `emittedEnd` is where the last record ended exactly when a stamped line closed it. */
  predicate Says(out: seq<Record>, end: Option<nat>, was: Option<Closing>) {
    && (was.None? <==> out == [])
    && (out == [] ==> end.None?)
    && (out != [] && end.Some? ==> end.value <= Last(out).End())
    && (out != [] ==> (end == Some(Last(out).End()) <==> was == Some(ByStamp)))
  }

  /** `emittedEnd` is no further than where the open entry, or else the next line, begins. */
  predicate Behind(s: Sink, began: nat) {
    s.emittedEnd.Some? ==> s.emittedEnd.value <= if s.entry != [] then s.entryBegin else began
  }

  predicate EntryAt(s: Sink, began: nat) {
    s.entry != [] ==> s.entryBegin + |s.entry| == began
  }

  predicate Told(s: Sink, began: nat, was: Option<Closing>) {
    Says(s.out, s.emittedEnd, was) && Behind(s, began) && EntryAt(s, began)
  }

  lemma YieldTold(c: Config, s: Sink, began: nat, was: Option<Closing>, how: Closing)
    requires Told(s, began, was) && Yield(c, s) != []
    ensures Says(s.out + Yield(c, s), if how == ByStamp then Some(began) else s.emittedEnd, Some(how))
  {
    assert Last(s.out + [OpenRecord(s)]) == OpenRecord(s);
  }

  lemma LineTold(c: Config, s: Sink, line: seq<byte>, began: nat, next: nat, continues: bool, was: Option<Closing>)
    requires Told(s, began, was) && line != [] && next == began + |line|
    ensures Told(TakeLine(c, s, line, began, continues), next, LineCloses(c, s, line, continues, was))
  {
    TakeLineYields(c, s, line, began, continues);
    TakeLineOpens(c, s, line, began, continues);
    var t := TakeLine(c, s, line, began, continues);
    hide TakeLine, Says, Yield;
    assert s.out + [] == s.out;
    if Joins(c, s, line, continues) || Yield(c, s) == [] {
      assert t.out == s.out && t.emittedEnd == s.emittedEnd;
    } else {
      YieldTold(c, s, began, was, if StampOf(c, line, continues).Some? then ByStamp else ByCap);
    }
  }

  lemma TakeLineOpens(c: Config, s: Sink, line: seq<byte>, began: nat, continues: bool)
    requires line != []
    ensures var t := TakeLine(c, s, line, began, continues);
            if Joins(c, s, line, continues) then t.entry == s.entry + line && t.entryBegin == s.entryBegin && s.entry != []
            else t.entry == line && t.entryBegin == began
  {
    hide CloseEntry, CloseAt;
  }

  /** The line in hand ends at `pos`. */
  predicate ToldAt(s: Sink, pos: nat, was: Option<Closing>) {
    |s.line| <= pos && Told(s, pos - |s.line|, was)
  }

  lemma CutOnceTold(c: Config, s: Sink, pos: nat, was: Option<Closing>)
    requires ToldAt(s, pos, was) && s.lineBegin + |s.line| == pos && |s.line| >= LINE_CAP
    ensures ToldAt(CutOnce(c, s), pos, LineCloses(c, s, s.line[..LINE_CAP], s.midLine, was))
    ensures var t := CutOnce(c, s); t.lineBegin + |t.line| == pos && |t.line| < |s.line|
  {
    var next, fragment := s.lineBegin + LINE_CAP, s.line[..LINE_CAP];
    var u := s.(line := s.line[LINE_CAP..], lineBegin := next, midLine := true);
    hide TakeLine, Told, LineCloses, CutOnce;
    CutOnceIs(c, s, u.line, next, fragment);
    Retold(s, u, s.lineBegin, was);
    LineTold(c, u, fragment, s.lineBegin, next, s.midLine, was);
    TakeLineKeepsLine(c, u, fragment, s.lineBegin, s.midLine);
    SameCloses(c, s, u, fragment, s.midLine, was);
  }

  lemma {:induction false} CutTold(c: Config, s: Sink, pos: nat, was: Option<Closing>)
    requires ToldAt(s, pos, was) && s.lineBegin + |s.line| == pos
    ensures ToldAt(CutLong(c, s), pos, CutCloses(c, s, was))
    decreases |s.line|
  {
    if |s.line| >= LINE_CAP {
      CutOnceTold(c, s, pos, was);
      hide ToldAt, CutOnce, LineCloses;
      CutTold(c, CutOnce(c, s), pos, LineCloses(c, s, s.line[..LINE_CAP], s.midLine, was));
    }
  }

  lemma Retold(s: Sink, t: Sink, began: nat, was: Option<Closing>)
    requires Told(s, began, was) && t.out == s.out && t.emittedEnd == s.emittedEnd
    requires t.entry == s.entry && t.entryBegin == s.entryBegin
    ensures Told(t, began, was)
  {
  }

  lemma SameCloses(c: Config, s: Sink, t: Sink, line: seq<byte>, continues: bool, was: Option<Closing>)
    requires t == s.(line := t.line, lineBegin := t.lineBegin, midLine := t.midLine)
    ensures LineCloses(c, s, line, continues, was) == LineCloses(c, t, line, continues, was)
  {
  }

  lemma NewlineTold(c: Config, s: Sink, b: byte, at: nat, was: Option<Closing>)
    requires ToldAt(s, at, was) && s.lineBegin + |s.line| == at && b == NEWLINE
    ensures ToldAt(TakeByte(c, s, b, at), at + 1, LineCloses(c, s, s.line + [b], s.midLine, was))
  {
    var u, line := s.(line := [], lineBegin := at + 1, midLine := false), s.line + [b];
    hide TakeLine, Told, LineCloses;
    Retold(s, u, s.lineBegin, was);
    LineTold(c, u, line, s.lineBegin, at + 1, s.midLine, was);
    TakeLineKeepsLine(c, u, line, s.lineBegin, s.midLine);
    SameCloses(c, s, u, line, s.midLine, was);
  }

  lemma FlushTold(c: Config, s: Sink, pos: nat, was: Option<Closing>)
    requires ToldAt(s, pos, was)
    ensures ToldAt(CloseEntry(c, s), pos, EventCloses(c, s, Flush, was))
  {
    if Yield(c, s) == [] {
      assert CloseEntry(c, s).out == s.out;
    } else {
      YieldTold(c, s, pos - |s.line|, was, ByIdle);
    }
    hide Says;
  }

  lemma StepTold(c: Config, s: Sink, e: Event, pos: nat, was: Option<Closing>)
    requires ToldAt(s, pos, was)
    requires e.Byte? ==> e.at == pos
    requires e.Byte? || e.End? ==> s.lineBegin + |s.line| == pos
    ensures ToldAt(Step(c, s, e), if e.Byte? then pos + 1 else pos, EventCloses(c, s, e, was))
  {
    hide TakeLine, CutLong, CutCloses, LineCloses, CloseEntry, Says;
    match e
    case Byte(b, at) =>
      if b == NEWLINE {
        NewlineTold(c, s, b, at, was);
      }
    case End => CutTold(c, s, pos, was);
    case Flush => FlushTold(c, s, pos, was);
    case _ =>
  }

  lemma {:induction false} RunTold(c: Config, evs: seq<Event>, start: nat)
    requires Placed(evs, start)
    ensures ToldAt(Run(c, New, evs), start + |EventData(evs)|, LastClosing(c, evs))
  {
    if evs != [] {
      var s, pos := Run(c, New, Front(evs)), start + |EventData(Front(evs))|;
      RunTold(c, Front(evs), start);
      EventsLaid(c, Front(evs), start);
      hide SinkLaid, Step, EventCloses, ToldAt;
      EntryEnds(s, start, EventData(Front(evs)), Pushing(Front(evs)));
      StepTold(c, s, Last(evs), pos, LastClosing(c, Front(evs)));
    }
  }

  lemma ToldStamped(s: Sink, pos: nat, was: Option<Closing>)
    requires ToldAt(s, pos, was)
    ensures Stamped(was) <==> s.out == [] || s.emittedEnd == Some(Last(s.out).End())
  {
  }

  // ----------------------------------------------------------- the theorem

  /** A fresh sink from `emittedEnd` emits exactly what the stopped one did not. */
  ghost predicate ResumesExactly(c: Config, ins: seq<Input>, n: nat, start: nat)
    requires n <= |ins|
  {
    var stopped := Stopped(c, ins[..n], start);
    stopped.out + EmittedFrom(c, stopped, ins, start) == Emitted(Unlimited(c), ins, start)
  }

  lemma StoppedIsRun(c: Config, ins: seq<Input>, start: nat)
    ensures var s, stopped := Run(c, New, Events(ins, start)), Stopped(c, ins, start);
            stopped.out == s.out && stopped.emittedEnd == s.emittedEnd
  {
    hide Run, Feed, Events, Finish, DiscardPending;
    FeedIsRun(c, ins, start);
    StoppedKeeps(c, Feed(c, New, ins, start));
  }

  lemma StoppedTold(c: Config, ins: seq<Input>, start: nat)
    ensures var stopped := Stopped(c, ins, start);
            Stamped(LastClosing(c, Events(ins, start)))
            <==> stopped.out == [] || stopped.emittedEnd == Some(Last(stopped.out).End())
  {
    var evs := Events(ins, start);
    EventsPlaced(ins, start);
    StoppedIsRun(c, ins, start);
    hide Run, Events, LastClosing, Placed, ToldAt, Stopped, Stamped, EventData;
    RunTold(c, evs, start);
    ToldStamped(Run(c, New, evs), start + |EventData(evs)|, LastClosing(c, evs));
  }

  /** Resuming is exact if and only if nothing was emitted, or a stamped line closed what was emitted last. */
  lemma {:induction false} ExactUnlessClosedUnstamped(c: Config, ins: seq<Input>, n: nat, start: nat)
    requires n <= |ins|
    ensures ResumesExactly(c, ins, n, start)
            <==> Stamped(LastClosing(c, Events(ins[..n], start)))
  {
    hide Stopped, EmittedFrom, Emitted, LastClosing, Events, Stamped;
    ResumingIsExact(c, ins, n, start);
    StoppedTold(c, ins[..n], start);
  }

  // ----------------------------------------------- inputs that always resume

  /** A line that is not stamped finds no entry open, or one with room for it: an entry is at most 16 MiB. */
  predicate Fits(c: Config, s: Sink, line: seq<byte>, continues: bool) {
    StampOf(c, line, continues).Some? || s.entry == [] || |s.entry| + |line| <= 0x100_0000
  }

  predicate CutFits(c: Config, s: Sink)
    decreases |s.line|
  {
    if |s.line| < LINE_CAP then true
    else
      CutOnceShortens(c, s);
      Fits(c, s, s.line[..LINE_CAP], s.midLine) && CutFits(c, CutOnce(c, s))
  }

  predicate EventFits(c: Config, s: Sink, e: Event) {
    && (e.Byte? && e.b == NEWLINE ==> Fits(c, s, s.line + [e.b], s.midLine))
    && (e.End? ==> CutFits(c, s))
  }

  /** Every line fits, whatever is pushed when. */
  predicate LinesFit(c: Config, evs: seq<Event>) {
    evs == [] || (LinesFit(c, Front(evs)) && EventFits(c, Run(c, New, Front(evs)), Last(evs)))
  }

  predicate NeverIdle(ins: seq<Input>) {
    forall i :: i in ins ==> !i.Idle?
  }

  lemma {:induction false} CutFitsStamped(c: Config, s: Sink, was: Option<Closing>)
    requires CutFits(c, s) && Stamped(was)
    ensures Stamped(CutCloses(c, s, was))
    decreases |s.line|
  {
    if |s.line| >= LINE_CAP {
      CutOnceShortens(c, s);
      CutFitsStamped(c, CutOnce(c, s), LineCloses(c, s, s.line[..LINE_CAP], s.midLine, was));
    }
  }

  lemma {:induction false} FitsStamped(c: Config, evs: seq<Event>)
    requires LinesFit(c, evs) && Flush !in evs
    ensures Stamped(LastClosing(c, evs))
  {
    if evs != [] {
      var s, e := Run(c, New, Front(evs)), Last(evs);
      FitsStamped(c, Front(evs));
      if e.End? {
        CutFitsStamped(c, s, LastClosing(c, Front(evs)));
      }
      hide CutCloses, CutFits, Run;
    }
  }

  lemma {:induction false} NeverFlushed(ins: seq<Input>, start: nat)
    requires NeverIdle(ins)
    ensures Flush !in Events(ins, start)
  {
    if ins != [] {
      NeverFlushed(Front(ins), start);
    }
  }

  /**
   * Without idle flushes, and with room in the open entry for every line that
   * joins it, every stop resumes exactly, whatever the window, predicates and limit.
   */
  lemma RoomyInputResumes(c: Config, ins: seq<Input>, n: nat, start: nat)
    requires n <= |ins| && NeverIdle(ins[..n]) && LinesFit(c, Events(ins[..n], start))
    ensures ResumesExactly(c, ins, n, start)
  {
    hide Events, LinesFit, LastClosing, ResumesExactly;
    NeverFlushed(ins[..n], start);
    FitsStamped(c, Events(ins[..n], start));
    ExactUnlessClosedUnstamped(c, ins, n, start);
  }

  lemma HandsFit(s: Sink, start: nat, x: seq<byte>, pushing: bool)
    requires SinkLaid(false, s, start, x, pushing)
    ensures |s.entry| + |s.line| <= |x|
  {
  }

  lemma ShortCutFits(c: Config, s: Sink)
    requires |s.entry| + |s.line| <= ENTRY_CAP
    ensures CutFits(c, s)
  {
    if |s.line| >= LINE_CAP {
      CutOnceLeaves(c, s);
      hide CutOnce;
      assert CutFits(c, CutOnce(c, s));
    }
  }

  lemma {:induction false} ShortFits(c: Config, evs: seq<Event>, start: nat)
    requires Placed(evs, start) && |EventData(evs)| <= ENTRY_CAP
    ensures LinesFit(c, evs)
  {
    if evs != [] {
      var s := Run(c, New, Front(evs));
      ShortFits(c, Front(evs), start);
      EventsLaid(c, Front(evs), start);
      HandsFit(s, start, EventData(Front(evs)), Pushing(Front(evs)));
      ShortCutFits(c, s);
      hide Run, SinkLaid, CutFits;
    }
  }

  /** As is any stop within the first 16 MiB, for any stamps and lines. */
  lemma {:induction false} ShortInputResumes(c: Config, ins: seq<Input>, n: nat, start: nat)
    requires n <= |ins| && NeverIdle(ins[..n]) && |Data(ins[..n])| <= 0x100_0000
    ensures ResumesExactly(c, ins, n, start)
  {
    hide Events, LinesFit, Placed, ResumesExactly;
    EventsPlaced(ins[..n], start);
    ShortFits(c, Events(ins[..n], start), start);
    RoomyInputResumes(c, ins, n, start);
  }

  // -------------------------------------------- inputs that do not resume

  /** No line is stamped, and every entry is kept. */
  const Plain: Config := Config((head: seq<byte>) => None, None, None, None)

  function Line(y: seq<byte>): Input {
    Push(y + [NEWLINE], None, PLAIN)
  }

  /** A push of one line takes just that line. */
  lemma LinePushed(ins: seq<Input>, y: seq<byte>, start: nat, pos: nat, end: nat)
    requires NEWLINE !in y && pos == start + |Data(ins)| && end == pos + |y| + 1
    requires Feed(Plain, New, ins, start).line == []
    ensures var s, line := Feed(Plain, New, ins, start), y + [NEWLINE];
            var u := s.(cur := Source(None, PLAIN), lineBegin := end, midLine := false);
            Feed(Plain, New, ins + [Line(y)], start) == TakeLine(Plain, u, line, pos, s.midLine)
  {
    var s, line := Feed(Plain, New, ins, start), y + [NEWLINE];
    hide TakeLine, Feed, Data, RunBytes, CutLong;
    FeedPush(Plain, ins, line, start, pos);
    var b := s.(cur := Source(None, PLAIN), lineBegin := pos);
    assert Step(Plain, s, Begin(None, PLAIN, pos)) == b;
    LineBytes(b, y, pos, end);
  }

  lemma LineBytes(b: Sink, y: seq<byte>, pos: nat, end: nat)
    requires NEWLINE !in y && end == pos + |y| + 1 && b.line == [] && b.lineBegin == pos
    ensures CutLong(Plain, RunBytes(Plain, b, y + [NEWLINE], pos))
         == TakeLine(Plain, b.(lineBegin := end, midLine := false), y + [NEWLINE], pos, b.midLine)
  {
    var line, u := y + [NEWLINE], b.(lineBegin := end, midLine := false);
    hide RunBytes, TakeLine;
    HoldBytes(Plain, b, y, pos);
    assert Front(line) == y && b.line + y == y;
    RunBytesLast(Plain, b, line, pos, pos + |y|);
    TakeLineKeepsLine(Plain, u, line, pos, b.midLine);
  }

  lemma {:induction false} EmittedUnmarked(ins: seq<Input>, start: nat)
    requires var s := Feed(Plain, New, ins, start); s.out != [] && s.emittedEnd.None?
    ensures !ResumesExactly(Plain, ins, |ins|, start)
  {
    hide Feed, EmittedFrom, Emitted, Finish, DiscardPending;
    assert ins[..|ins|] == ins;
    ResumingIsExact(Plain, ins, |ins|, start);
    StoppedKeeps(Plain, Feed(Plain, New, ins, start));
  }

  lemma FirstLine(y: seq<byte>, start: nat)
    requires NEWLINE !in y
    ensures var s := Feed(Plain, New, [Line(y)], start);
            && s.line == [] && !s.midLine && s.entry == y + [NEWLINE] && s.out == [] && s.emittedEnd.None?
            && Data([Line(y)]) == y + [NEWLINE]
  {
    assert [] + [Line(y)] == [Line(y)];
    LinePushed([], y, start, start, start + |y| + 1);
    FeedPush(Plain, [], y + [NEWLINE], start, start);
    hide Feed, Data;
  }

  /** An entry emitted by an idle flush is emitted again. */
  lemma IdleFlushRepeats(start: nat)
    ensures !ResumesExactly(Plain, [Line([97]), Idle], 2, start)
  {
    var line := Line([97]);
    var s := Feed(Plain, New, [line], start);
    FirstLine([97], start);
    FeedLast(Plain, New, [line, Idle], start, start + 2);
    assert Front([line, Idle]) == [line];
    hide Feed, Data;
    RunOne(Plain, s, Flush);
    EmittedUnmarked([line, Idle], start);
  }

  /** So is one that a line without a stamp found full. */
  lemma FullEntryRepeats(start: nat)
    ensures !ResumesExactly(Plain, [Line(seq(0xFF_FFFF, i => 97)), Line([97])], 2, start)
  {
    var y := seq(ENTRY_CAP - 1, i => 97);
    var s := Feed(Plain, New, [Line(y)], start);
    var pos := start + ENTRY_CAP;
    FirstLine(y, start);
    LinePushed([Line(y)], [97], start, pos, pos + 2);
    assert [Line(y)] + [Line([97])] == [Line(y), Line([97])];
    TakeLineYields(Plain, s.(cur := Source(None, PLAIN), lineBegin := pos + 2, midLine := false),
                   [97] + [NEWLINE], pos, false);
    hide Feed, Data, TakeLine;
    EmittedUnmarked([Line(y), Line([97])], start);
  }
}
