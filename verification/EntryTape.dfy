/**
 * What a sink emits is the tape: for every input, filter and limit, each
 * record is a verbatim stretch of the tape at the offset it states, in order;
 * with no filter nothing is left out, capped fragments and idle flushes
 * included.
 */
module EntryTape {
  import opened Common
  import opened EntryModel

  /** What a caller does to a sink, with each push beginning where the last ended. */
  datatype Input =
    | Push(data: seq<byte>, chunk: Option<nat>, win: Window)
    | Idle
    | Siblings(taken: nat)

  function DataOf(i: Input): seq<byte> {
    if i.Push? then i.data else []
  }

  function Data(ins: seq<Input>): seq<byte> {
    if ins == [] then [] else Data(Front(ins)) + DataOf(Last(ins))
  }

  function EventsOf(i: Input, pos: nat): seq<Event> {
    match i
    case Push(data, chunk, win) => PushEvents(data, chunk, win, pos)
    case Idle => [Flush]
    case Siblings(n) => [Others(n)]
  }

  function Feed(c: Config, s: Sink, ins: seq<Input>, start: nat): Sink {
    if ins == [] then s
    else Run(c, Feed(c, s, Front(ins), start), EventsOf(Last(ins), start + |Data(Front(ins))|))
  }

  predicate Unfiltered(c: Config) {
    c.window.None? && c.preds.None? && c.limit.None?
  }

  /**
   * `out` lies on the tape `x`, which begins at `start`; when `tight`, it also
   * covers all of it.
   */
  ghost predicate Laid(tight: bool, out: seq<Record>, start: nat, x: seq<byte>) {
    if out == [] then tight ==> x == []
    else
      var r := Last(out);
      && start <= r.offset < r.End() <= start + |x|
      && (tight ==> r.End() == start + |x|)
      && x[r.offset - start..r.End() - start] == r.payload
      && Laid(tight, Front(out), start, x[..r.offset - start])
  }

  ghost predicate EntryLaid(tight: bool, s: Sink, start: nat, x: seq<byte>) {
    PartsLaid(tight, s.entry, s.entryBegin, s.out, start, x)
  }

  ghost predicate PartsLaid(tight: bool, entry: seq<byte>, begin: nat, out: seq<Record>, start: nat, x: seq<byte>) {
    && |entry| <= |x|
    && x[|x| - |entry|..] == entry
    && (entry != [] ==> begin == start + |x| - |entry|)
    && Laid(tight, out, start, x[..|x| - |entry|])
  }

  ghost predicate SinkLaid(tight: bool, s: Sink, start: nat, x: seq<byte>, pushing: bool) {
    && |s.line| <= |x|
    && x[|x| - |s.line|..] == s.line
    && EntryLaid(tight, s, start, x[..|x| - |s.line|])
    && (s.line != [] || pushing ==> s.lineBegin == start + |x| - |s.line|)
  }

  lemma {:induction false} LaidGrows(out: seq<Record>, start: nat, x: seq<byte>, y: seq<byte>)
    requires Laid(false, out, start, x)
    ensures Laid(false, out, start, x + y)
  {
    if out != [] {
      var r := Last(out);
      assert (x + y)[..r.offset - start] == x[..r.offset - start];
      assert (x + y)[r.offset - start..r.End() - start] == r.payload;
    }
  }

  lemma CloseEmits(c: Config, s: Sink)
    requires s.entry != [] && Unfiltered(c)
    ensures CloseEntry(c, s).out == s.out + [OpenRecord(s)]
  {
  }

  /** With nothing open, the records are all there is. */
  lemma NoEntryLaid(tight: bool, s: Sink, start: nat, x: seq<byte>)
    requires s.entry == []
    ensures EntryLaid(tight, s, start, x) <==> Laid(tight, s.out, start, x)
  {
    hide Laid;
    assert x[..|x|] == x && x[|x|..] == [];
  }

  /** The open entry as a record. */
  lemma OpenRecordLaid(tight: bool, s: Sink, start: nat, x: seq<byte>)
    requires EntryLaid(tight, s, start, x) && s.entry != []
    ensures Laid(tight, s.out + [OpenRecord(s)], start, x)
  {
    var out := s.out + [OpenRecord(s)];
    assert Front(out) == s.out && Last(out) == OpenRecord(s);
  }

  /** The open entry left out. */
  lemma DroppedLaid(s: Sink, start: nat, x: seq<byte>)
    requires EntryLaid(false, s, start, x)
    ensures Laid(false, s.out, start, x)
  {
    var h := |x| - |s.entry|;
    hide Laid;
    LaidGrows(s.out, start, x[..h], x[h..]);
    SplitAt(x, h);
  }

  lemma CloseEntryLaid(tight: bool, c: Config, s: Sink, start: nat, x: seq<byte>)
    requires EntryLaid(tight, s, start, x)
    requires tight ==> Unfiltered(c)
    ensures EntryLaid(tight, CloseEntry(c, s), start, x)
    ensures Laid(tight, CloseEntry(c, s).out, start, x)
  {
    hide CloseEntry, EntryLaid, Laid;
    var t := CloseEntry(c, s);
    NoEntryLaid(tight, t, start, x);
    if s.entry == [] {
      NoEntryLaid(tight, s, start, x);
    } else {
      OpenRecordLaid(tight, s, start, x);
      if Unfiltered(c) {
        CloseEmits(c, s);
      } else {
        DroppedLaid(s, start, x);
      }
    }
  }

  lemma SplitAt(x: seq<byte>, h: nat)
    requires h <= |x|
    ensures x[..h] + x[h..] == x
  {
  }

  lemma JoinLaid(tight: bool, entry: seq<byte>, line: seq<byte>, begin: nat, out: seq<Record>, start: nat, x: seq<byte>)
    requires PartsLaid(tight, entry, begin, out, start, x) && entry != []
    ensures PartsLaid(tight, entry + line, begin, out, start, x + line)
  {
    var h := |x| - |entry|;
    assert (x + line)[..h] == x[..h];
    assert (x + line)[h..] == x[h..] + line;
  }

  lemma OpenLaid(tight: bool, line: seq<byte>, out: seq<Record>, start: nat, x: seq<byte>)
    requires Laid(tight, out, start, x)
    ensures PartsLaid(tight, line, start + |x|, out, start, x + line)
  {
    assert (x + line)[..|x|] == x;
    assert (x + line)[|x|..] == line;
  }

  lemma TakeLineLaid(tight: bool, c: Config, s: Sink, line: seq<byte>, began: nat, continues: bool,
                     start: nat, x: seq<byte>)
    requires EntryLaid(tight, s, start, x) && began == start + |x|
    requires tight ==> Unfiltered(c)
    ensures EntryLaid(tight, TakeLine(c, s, line, began, continues), start, x + line)
  {
    hide CloseEntry, CloseAt, PartsLaid;
    if Joins(c, s, line, continues) {
      JoinLaid(tight, s.entry, line, s.entryBegin, s.out, start, x);
    } else {
      CloseEntryLaid(tight, c, s, start, x);
      CloseAtClosesEntry(c, s, began);
      OpenLaid(tight, line, CloseEntry(c, s).out, start, x);
    }
  }

  lemma {:induction false} CutLongLaid(tight: bool, c: Config, s: Sink, start: nat, x: seq<byte>)
    requires SinkLaid(tight, s, start, x, true)
    requires tight ==> Unfiltered(c)
    ensures SinkLaid(tight, CutLong(c, s), start, x, false)
    decreases |s.line|
  {
    if |s.line| >= LINE_CAP {
      CutOnceLaid(tight, c, s, start, x);
      hide CutOnce, SinkLaid;
      CutLongLaid(tight, c, CutOnce(c, s), start, x);
    }
  }

  lemma CutOnceLaid(tight: bool, c: Config, s: Sink, start: nat, x: seq<byte>)
    requires SinkLaid(tight, s, start, x, true) && |s.line| >= LINE_CAP
    requires tight ==> Unfiltered(c)
    ensures SinkLaid(tight, CutOnce(c, s), start, x, true)
    ensures |CutOnce(c, s).line| == |s.line| - LINE_CAP
  {
    hide TakeLine, PartsLaid;
    var h, rest := |x| - |s.line|, s.line[LINE_CAP..];
    var fragment, began := s.line[..LINE_CAP], s.lineBegin;
    var u := s.(line := rest, lineBegin := s.lineBegin + LINE_CAP, midLine := true);
    CutSlices(x, h, LINE_CAP);
    TakeLineLaid(tight, c, u, fragment, began, s.midLine, start, x[..h]);
    TakeLineKeepsLine(c, u, fragment, began, s.midLine);
  }

  lemma CutSlices(x: seq<byte>, h: nat, n: nat)
    requires h + n <= |x|
    ensures x[..h] + x[h..][..n] == x[..h + n] && x[h..][n..] == x[h + n..]
  {
  }

  lemma TakeByteLaid(tight: bool, c: Config, s: Sink, b: byte, at: nat, start: nat, x: seq<byte>)
    requires SinkLaid(tight, s, start, x, true) && at == start + |x|
    requires tight ==> Unfiltered(c)
    ensures SinkLaid(tight, TakeByte(c, s, b, at), start, x + [b], true)
  {
    hide TakeLine;
    var h := |x| - |s.line|;
    var line := s.line + [b];
    assert (x + [b])[h..] == line;
    assert (x + [b])[..h] == x[..h];
    if b == NEWLINE {
      var u := s.(line := [], lineBegin := at + 1, midLine := false);
      TakeLineLaid(tight, c, u, line, s.lineBegin, s.midLine, start, x[..h]);
      TakeLineKeepsLine(c, u, line, s.lineBegin, s.midLine);
      assert x[..h] + line == x + [b];
      assert (x + [b])[..|x| + 1] == x + [b];
    }
  }

  lemma {:induction false} BytesLaid(tight: bool, c: Config, s: Sink, data: seq<byte>, base: nat,
                                     start: nat, x: seq<byte>)
    requires SinkLaid(tight, s, start, x, true) && base == start + |x|
    requires tight ==> Unfiltered(c)
    ensures SinkLaid(tight, RunBytes(c, s, data, base), start, x + data, true)
  {
    hide TakeByte, SinkLaid;
    if data == [] {
      assert x + data == x;
    } else {
      var d, at := Front(data), base + |data| - 1;
      BytesLaid(tight, c, s, d, base, start, x);
      TakeByteLaid(tight, c, RunBytes(c, s, d, base), Last(data), at, start, x + d);
      assert x + data == (x + d) + [Last(data)];
    }
  }

  lemma InputLaid(tight: bool, c: Config, s: Sink, i: Input, pos: nat, start: nat, x: seq<byte>)
    requires SinkLaid(tight, s, start, x, false) && pos == start + |x|
    requires tight ==> Unfiltered(c)
    ensures SinkLaid(tight, Run(c, s, EventsOf(i, pos)), start, x + DataOf(i), false)
  {
    hide CloseEntry, CutLong, Laid;
    match i
    case Push(data, chunk, win) =>
      var t := Step(c, s, Begin(chunk, win, pos));
      BytesLaid(tight, c, t, data, pos, start, x);
      CutLongLaid(tight, c, RunBytes(c, t, data, pos), start, x + data);
      RunPush(c, s, data, chunk, win, pos);
    case Idle =>
      RunOne(c, s, Flush);
      assert x + [] == x;
      CloseEntryLaid(tight, c, s, start, x[..|x| - |s.line|]);
    case Siblings(n) =>
      RunOne(c, s, Others(n));
      assert x + [] == x;
  }

  lemma RunOne(c: Config, s: Sink, e: Event)
    ensures Run(c, s, [e]) == Step(c, s, e)
  {
    assert Front([e]) == [];
  }

  lemma {:induction false} FeedLaid(tight: bool, c: Config, ins: seq<Input>, start: nat)
    requires tight ==> Unfiltered(c)
    ensures SinkLaid(tight, Feed(c, New, ins, start), start, Data(ins), false)
  {
    if ins != [] {
      var x := Data(Front(ins));
      var pos := start + |x|;
      FeedLast(c, New, ins, start, pos);
      hide Run, SinkLaid, EventsOf, Feed, Data, DataOf;
      FeedLaid(tight, c, Front(ins), start);
      InputLaid(tight, c, Feed(c, New, Front(ins), start), Last(ins), pos, start, x);
    }
  }

  lemma FeedLast(c: Config, s: Sink, ins: seq<Input>, start: nat, pos: nat)
    requires ins != [] && pos == start + |Data(Front(ins))|
    ensures Feed(c, s, ins, start) == Run(c, Feed(c, s, Front(ins), start), EventsOf(Last(ins), pos))
    ensures Data(ins) == Data(Front(ins)) + DataOf(Last(ins))
  {
    hide Run, EventsOf;
  }

  lemma {:induction false} FinishLaid(tight: bool, c: Config, s: Sink, start: nat, x: seq<byte>)
    requires SinkLaid(tight, s, start, x, false)
    requires tight ==> Unfiltered(c)
    ensures Laid(tight, Finish(c, s).out, start, x)
  {
    hide TakeLine, CloseEntry;
    var h := |x| - |s.line|;
    assert x[..h] + s.line == x;
    if s.line == [] {
      assert x[..h] == x;
      CloseEntryLaid(tight, c, s, start, x);
      CloseAtClosesEntry(c, s, s.lineBegin);
    } else {
      var u := s.(line := [], midLine := false);
      TakeLineLaid(tight, c, u, s.line, s.lineBegin, s.midLine, start, x[..h]);
      var t := TakeLine(c, u, s.line, s.lineBegin, s.midLine);
      CloseEntryLaid(tight, c, t, start, x);
      CloseAtClosesEntry(c, t, s.lineBegin + |s.line|);
    }
  }

  // ---------------------------------------------------------- the theorems

  function Emitted(c: Config, ins: seq<Input>, start: nat): seq<Record> {
    Finish(c, Feed(c, New, ins, start)).out
  }

  function Payloads(out: seq<Record>): seq<byte> {
    if out == [] then [] else Payloads(Front(out)) + Last(out).payload
  }

  /** Every record, whatever was filtered, dropped, cut or flushed, is the tape at its offset. */
  lemma {:induction false} RecordsAreTheTape(c: Config, ins: seq<Input>, start: nat, k: nat)
    requires k < |Emitted(c, ins, start)|
    ensures var r := Emitted(c, ins, start)[k];
            start <= r.offset < r.End() <= start + |Data(ins)|
            && r.payload == Data(ins)[r.offset - start..r.End() - start]
    ensures forall j :: 0 <= j < k ==>
              Emitted(c, ins, start)[j].End() <= Emitted(c, ins, start)[k].offset
  {
    hide Feed, Finish, SinkLaid;
    FeedLaid(false, c, ins, start);
    FinishLaid(false, c, Feed(c, New, ins, start), start, Data(ins));
    LaidAt(Emitted(c, ins, start), start, Data(ins), k);
  }

  lemma {:induction false} LaidAt(out: seq<Record>, start: nat, x: seq<byte>, k: nat)
    requires Laid(false, out, start, x) && k < |out|
    ensures start <= out[k].offset < out[k].End() <= start + |x|
    ensures out[k].payload == x[out[k].offset - start..out[k].End() - start]
    ensures forall j :: 0 <= j < k ==> out[j].End() <= out[k].offset
  {
    var r := Last(out);
    var y := x[..r.offset - start];
    forall j | 0 <= j < |out| - 1
      ensures start <= out[j].offset < out[j].End() <= r.offset
      ensures j == k ==> out[j].payload == x[out[j].offset - start..out[j].End() - start]
      ensures j == k ==> forall i :: 0 <= i < k ==> out[i].End() <= out[k].offset
    {
      LaidAt(Front(out), start, y, j);
      assert Front(out)[j] == out[j];
      assert y[out[j].offset - start..out[j].End() - start] == x[out[j].offset - start..out[j].End() - start];
    }
  }

  /** With no filter the sink conserves the tape: payloads concatenate to the input, offsets chain. */
  lemma {:induction false} SinkConservesTape(c: Config, ins: seq<Input>, start: nat)
    requires Unfiltered(c)
    ensures Payloads(Emitted(c, ins, start)) == Data(ins)
    ensures forall k :: 0 <= k < |Emitted(c, ins, start)| ==>
              Emitted(c, ins, start)[k].offset == start + |Payloads(Emitted(c, ins, start)[..k])|
  {
    hide Feed, Finish, SinkLaid;
    FeedLaid(true, c, ins, start);
    FinishLaid(true, c, Feed(c, New, ins, start), start, Data(ins));
    TightIsAll(Emitted(c, ins, start), start, Data(ins));
  }

  lemma {:induction false} TightIsAll(out: seq<Record>, start: nat, x: seq<byte>)
    requires Laid(true, out, start, x)
    ensures Payloads(out) == x
    ensures forall k :: 0 <= k < |out| ==> out[k].offset == start + |Payloads(out[..k])|
  {
    if out != [] {
      var r := Last(out);
      TightIsAll(Front(out), start, x[..r.offset - start]);
      assert x[..r.offset - start] + x[r.offset - start..] == x;
      forall k | 0 <= k < |out|
        ensures out[k].offset == start + |Payloads(out[..k])|
      {
        if k < |out| - 1 {
          assert Front(out)[..k] == out[..k] && Front(out)[k] == out[k];
        }
      }
    }
  }
}
