/**
 * The chunk a record names: whatever is filtered, cut, flushed or limited, a
 * record attributed to a chunk ends at or past that chunk's beginning. It is
 * what makes acknowledging the record release every chunk before it.
 */
module EntryAttribution {
  import opened Common
  import opened EntryModel
  import opened EntryTape

  /** Where each chunk begins on the tape. */
  type Bases = map<nat, nat>

  predicate Reaches(chunk: Option<nat>, end: nat, m: Bases) {
    chunk.Some? ==> chunk.value in m && m[chunk.value] <= end
  }

  /** Pushes of one chunk's bytes, or of what follows in it after a resume. */
  predicate FromChunks(ins: seq<Input>, start: nat, m: Bases) {
    ins == [] || (FromChunks(Front(ins), start, m)
                  && (Last(ins).Push? ==> Reaches(Last(ins).chunk, start + |Data(Front(ins))|, m)))
  }

  ghost predicate Attributed(s: Sink, m: Bases) {
    && (s.entry != [] ==> Reaches(s.entryFrom.chunk, s.entryBegin + |s.entry|, m))
    && forall r :: r in s.out ==> Reaches(r.chunk, r.End(), m)
  }

  lemma TakeLineAttributed(c: Config, s: Sink, line: seq<byte>, began: nat, continues: bool, m: Bases)
    requires Attributed(s, m) && Reaches(s.cur.chunk, began + |line|, m)
    ensures Attributed(TakeLine(c, s, line, began, continues), m)
  {
    CloseAtClosesEntry(c, s, began);
    hide CloseEntry, CloseAt;
  }

  /** Inside a push from `base`: a fragment cut from the line reaches into this push. */
  ghost predicate Pushing(s: Sink, base: nat, m: Bases) {
    && Attributed(s, m)
    && Reaches(s.cur.chunk, base, m)
    && base < s.lineBegin + LINE_CAP
  }

  lemma {:induction false} BytesAttributed(c: Config, s: Sink, data: seq<byte>, base: nat,
                                           start: nat, x: seq<byte>, m: Bases)
    requires SinkLaid(false, s, start, x, true) && base == start + |x| && Pushing(s, base, m)
    ensures Pushing(RunBytes(c, s, data, base), base, m)
  {
    if data != [] {
      var d, at := Front(data), base + |data| - 1;
      RunBytesLast(c, s, data, base, at);
      hide RunBytes, TakeByte, SinkLaid, Pushing;
      BytesAttributed(c, s, d, base, start, x, m);
      BytesLaid(false, c, s, d, base, start, x);
      var t := RunBytes(c, s, d, base);
      InLine(t, start, x + d, true);
      ByteAttributed(c, t, Last(data), at, base, m);
    }
  }

  lemma ByteAttributed(c: Config, s: Sink, b: byte, at: nat, base: nat, m: Bases)
    requires Pushing(s, base, m) && s.lineBegin + |s.line| == at >= base
    ensures Pushing(TakeByte(c, s, b, at), base, m)
  {
    if b == NEWLINE {
      hide TakeLine;
      var u, line := s.(line := [], lineBegin := at + 1, midLine := false), s.line + [b];
      TakeLineAttributed(c, u, line, s.lineBegin, s.midLine, m);
      TakeLineKeepsLine(c, u, line, s.lineBegin, s.midLine);
    }
  }

  lemma InLine(s: Sink, start: nat, x: seq<byte>, pushing: bool)
    requires SinkLaid(false, s, start, x, pushing)
    ensures s.line != [] || pushing ==> s.lineBegin + |s.line| == start + |x|
  {
  }

  lemma {:induction false} CutLongAttributed(c: Config, s: Sink, base: nat, m: Bases)
    requires Pushing(s, base, m)
    ensures Pushing(CutLong(c, s), base, m)
    decreases |s.line|
  {
    if |s.line| >= LINE_CAP {
      CutOnceAttributed(c, s, base, m);
      hide CutOnce, Pushing;
      CutLongAttributed(c, CutOnce(c, s), base, m);
    }
  }

  lemma CutOnceAttributed(c: Config, s: Sink, base: nat, m: Bases)
    requires Pushing(s, base, m) && |s.line| >= LINE_CAP
    ensures Pushing(CutOnce(c, s), base, m) && |CutOnce(c, s).line| < |s.line|
  {
    hide TakeLine;
    var u := s.(line := s.line[LINE_CAP..], lineBegin := s.lineBegin + LINE_CAP, midLine := true);
    TakeLineAttributed(c, u, s.line[..LINE_CAP], s.lineBegin, s.midLine, m);
    TakeLineKeepsLine(c, u, s.line[..LINE_CAP], s.lineBegin, s.midLine);
  }

  /** Between inputs, after the bytes `x`. */
  ghost predicate Resting(s: Sink, start: nat, x: seq<byte>, m: Bases) {
    Attributed(s, m) && Reaches(s.cur.chunk, start + |x|, m) && |s.line| < LINE_CAP
  }

  lemma InputAttributed(c: Config, s: Sink, i: Input, pos: nat, start: nat, x: seq<byte>, m: Bases)
    requires SinkLaid(false, s, start, x, false) && Resting(s, start, x, m) && pos == start + |x|
    requires i.Push? ==> Reaches(i.chunk, pos, m)
    ensures Resting(Run(c, s, EventsOf(i, pos)), start, x + DataOf(i), m)
  {
    match i
    case Push(data, chunk, win) =>
      hide CutLong;
      var t := Step(c, s, Begin(chunk, win, pos));
      BytesAttributed(c, t, data, pos, start, x, m);
      CutLongAttributed(c, RunBytes(c, t, data, pos), pos, m);
      RunPush(c, s, data, chunk, win, pos);
    case Idle =>
      RunOne(c, s, Flush);
    case Siblings(n) =>
      RunOne(c, s, Others(n));
  }

  lemma {:induction false} FeedAttributed(c: Config, ins: seq<Input>, start: nat, m: Bases)
    requires FromChunks(ins, start, m)
    ensures Resting(Feed(c, New, ins, start), start, Data(ins), m)
  {
    if ins != [] {
      var x := Data(Front(ins));
      var pos := start + |x|;
      assert Last(ins).Push? ==> Reaches(Last(ins).chunk, pos, m);
      FeedLast(c, New, ins, start, pos);
      hide Run, SinkLaid, Resting, Reaches, EventsOf, Data, DataOf, Feed;
      FeedAttributed(c, Front(ins), start, m);
      FeedLaid(false, c, Front(ins), start);
      InputAttributed(c, Feed(c, New, Front(ins), start), Last(ins), pos, start, x, m);
    }
  }

  /** Every record a sink emits, at its end or earlier, reaches the chunk it names. */
  lemma RecordsReachTheirChunk(c: Config, ins: seq<Input>, start: nat, m: Bases)
    requires FromChunks(ins, start, m)
    ensures forall r :: r in Feed(c, New, ins, start).out ==> Reaches(r.chunk, r.End(), m)
    ensures forall r :: r in Emitted(c, ins, start) ==> Reaches(r.chunk, r.End(), m)
  {
    var s := Feed(c, New, ins, start);
    FeedAttributed(c, ins, start, m);
    FeedLaid(false, c, ins, start);
    InLine(s, start, Data(ins), false);
    hide TakeLine, Feed, Run, CloseEntry;
    var u := s.(line := [], midLine := false);
    var end := s.lineBegin + |s.line|;
    var t := if s.line == [] then s else TakeLine(c, u, s.line, s.lineBegin, s.midLine);
    if s.line != [] {
      TakeLineAttributed(c, u, s.line, s.lineBegin, s.midLine, m);
    }
    CloseAtClosesEntry(c, t, end);
    assert Emitted(c, ins, start) == CloseEntry(c, t).out;
  }
}
