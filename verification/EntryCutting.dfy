/**
 * How the input is cut into chunks does not show in what a sink emits, if and
 * only if no newline-terminated line is longer than `LINE_CAP`: the cap is
 * tested only at the end of a push, so a longer line stays whole or becomes
 * fragments depending on where a push ends.
 */
module EntryCutting {
  import opened Common
  import opened EntryModel
  import opened EntryTape

  predicate AllPushes(ins: seq<Input>) {
    forall i :: i in ins ==> i.Push?
  }

  /** What a record says apart from the chunk that held it. */
  datatype Shown = Shown(offset: nat, ts: Option<nat>, payload: seq<byte>)

  function Show(out: seq<Record>): seq<Shown> {
    Map((r: Record) => Shown(r.offset, r.ts, r.payload), out)
  }

  /** How many bytes follow the last newline. */
  function Unended(x: seq<byte>): (n: nat)
    ensures n <= |x|
    ensures forall j :: |x| - n <= j < |x| ==> x[j] != NEWLINE
    ensures n < |x| ==> x[|x| - n - 1] == NEWLINE
  {
    if x == [] || Last(x) == NEWLINE then 0 else 1 + Unended(Front(x))
  }

  /** Every line is within the cap of 16 MiB, its newline included. */
  predicate LinesWithinCap(x: seq<byte>) {
    forall i :: 0 <= i < |x| && x[i] == NEWLINE ==> Unended(x[..i]) < 0x100_0000
  }

  // ----------------------------- any cutting is the bytes, one by one

  /** Two sinks that differ at most in the chunks they name. */
  predicate Alike(a: Sink, b: Sink) {
    && a.line == b.line && a.midLine == b.midLine && a.entry == b.entry && a.ts == b.ts
    && (a.line != [] ==> a.lineBegin == b.lineBegin)
    && (a.entry != [] ==> a.entryBegin == b.entryBegin)
    && a.tally.count == b.tally.count
    && Show(a.out) == Show(b.out)
  }

  lemma AlikeClose(c: Config, a: Sink, b: Sink)
    requires Alike(a, b)
    ensures Alike(CloseEntry(c, a), CloseEntry(c, b))
  {
    var f := (r: Record) => Shown(r.offset, r.ts, r.payload);
    ShowSnoc(a.out, OpenRecord(a));
    ShowSnoc(b.out, OpenRecord(b));
    hide Show;
  }

  lemma ShowSnoc(out: seq<Record>, r: Record)
    ensures Show(out + [r]) == Show(out) + [Shown(r.offset, r.ts, r.payload)]
  {
    assert Front(out + [r]) == out;
  }

  lemma {:induction false} AlikeTakeLine(c: Config, a: Sink, b: Sink, line: seq<byte>, began: nat, continues: bool)
    requires Alike(a, b) && line != []
    ensures Alike(TakeLine(c, a, line, began, continues), TakeLine(c, b, line, began, continues))
  {
    hide CloseEntry, CloseAt, Show;
    AlikeClose(c, a, b);
    CloseAtClosesEntry(c, a, began);
    CloseAtClosesEntry(c, b, began);
  }

  lemma {:induction false} AlikeTakeByte(c: Config, a: Sink, b: Sink, x: byte, at: nat)
    requires Alike(a, b) && a.lineBegin == b.lineBegin
    ensures Alike(TakeByte(c, a, x, at), TakeByte(c, b, x, at))
    ensures TakeByte(c, a, x, at).lineBegin == TakeByte(c, b, x, at).lineBegin
  {
    hide TakeLine;
    if x == NEWLINE {
      var a', b' := a.(line := [], lineBegin := at + 1, midLine := false), b.(line := [], lineBegin := at + 1, midLine := false);
      AlikeTakeLine(c, a', b', a.line + [x], a.lineBegin, a.midLine);
      TakeLineKeepsLine(c, a', a.line + [x], a.lineBegin, a.midLine);
      TakeLineKeepsLine(c, b', a.line + [x], a.lineBegin, a.midLine);
    }
  }

  lemma {:induction false} AlikeCutLong(c: Config, a: Sink, b: Sink)
    requires Alike(a, b) && a.lineBegin == b.lineBegin
    ensures Alike(CutLong(c, a), CutLong(c, b)) && CutLong(c, a).lineBegin == CutLong(c, b).lineBegin
    decreases |a.line|
  {
    if |a.line| >= LINE_CAP {
      AlikeCutOnce(c, a, b);
      hide CutOnce, Alike;
      AlikeCutLong(c, CutOnce(c, a), CutOnce(c, b));
    }
  }

  lemma {:induction false} AlikeCutOnce(c: Config, a: Sink, b: Sink)
    requires Alike(a, b) && a.lineBegin == b.lineBegin && |a.line| >= LINE_CAP
    ensures Alike(CutOnce(c, a), CutOnce(c, b)) && CutOnce(c, a).lineBegin == CutOnce(c, b).lineBegin
    ensures |CutOnce(c, a).line| < |a.line| == |b.line| && |CutOnce(c, b).line| < |b.line|
  {
    hide TakeLine;
    var rest, next, fragment := a.line[LINE_CAP..], a.lineBegin + LINE_CAP, a.line[..LINE_CAP];
    var a', b' := a.(line := rest, lineBegin := next, midLine := true), b.(line := rest, lineBegin := next, midLine := true);
    AlikeTakeLine(c, a', b', fragment, a.lineBegin, a.midLine);
    TakeLineKeepsLine(c, a', fragment, a.lineBegin, a.midLine);
    TakeLineKeepsLine(c, b', fragment, a.lineBegin, a.midLine);
  }

  lemma {:induction false} AlikeFinish(c: Config, a: Sink, b: Sink)
    requires Alike(a, b)
    ensures Show(Finish(c, a).out) == Show(Finish(c, b).out)
  {
    hide TakeLine, CloseEntry, Show;
    var line, began := a.line, a.lineBegin;
    var a', b' := a, b;
    if line != [] {
      a', b' := a.(line := [], midLine := false), b.(line := [], midLine := false);
      AlikeTakeLine(c, a', b', line, began, a.midLine);
      a', b' := TakeLine(c, a', line, began, a.midLine), TakeLine(c, b', line, began, a.midLine);
    }
    AlikeClose(c, a', b');
    CloseAtClosesEntry(c, a', a.lineBegin + |a.line|);
    CloseAtClosesEntry(c, b', b.lineBegin + |b.line|);
  }

  /** A sink that tests the cap after every byte. */
  function Eager(c: Config, s: Sink, data: seq<byte>, base: nat): Sink {
    if data == [] then s
    else CutLong(c, TakeByte(c, Eager(c, s, Front(data), base), Last(data), base + |data| - 1))
  }

  lemma EagerLast(c: Config, s: Sink, data: seq<byte>, base: nat, at: nat)
    requires data != [] && at == base + |data| - 1
    ensures Eager(c, s, data, base) == CutLong(c, TakeByte(c, Eager(c, s, Front(data), base), Last(data), at))
  {
    hide TakeByte, CutLong;
  }

  lemma {:induction false} EagerConcat(c: Config, s: Sink, x: seq<byte>, y: seq<byte>, base: nat, mid: nat)
    requires mid == base + |x|
    ensures Eager(c, s, x + y, base) == Eager(c, Eager(c, s, x, base), y, mid)
  {
    if y == [] {
      assert x + y == x;
    } else {
      var at := mid + |y| - 1;
      assert Front(x + y) == x + Front(y) && Last(x + y) == Last(y);
      EagerLast(c, s, x + y, base, at);
      EagerLast(c, Eager(c, s, x, base), y, mid, at);
      hide Eager, TakeByte, CutLong;
      EagerConcat(c, s, x, Front(y), base, mid);
    }
  }

  lemma {:induction false} AlikeEager(c: Config, a: Sink, b: Sink, data: seq<byte>, base: nat)
    requires Alike(a, b) && a.lineBegin == b.lineBegin
    ensures Alike(Eager(c, a, data, base), Eager(c, b, data, base))
    ensures Eager(c, a, data, base).lineBegin == Eager(c, b, data, base).lineBegin
  {
    if data != [] {
      var at := base + |data| - 1;
      AlikeEager(c, a, b, Front(data), base);
      EagerLast(c, a, data, base, at);
      EagerLast(c, b, data, base, at);
      hide Eager, TakeByte, CutLong, Alike;
      var a', b' := Eager(c, a, Front(data), base), Eager(c, b, Front(data), base);
      AlikeTakeByte(c, a', b', Last(data), at);
      AlikeCutLong(c, TakeByte(c, a', Last(data), at), TakeByte(c, b', Last(data), at));
    }
  }

  /** The line in hand is what the tape `x` has after its last newline, unless part of it is gone. */
  predicate Honest(s: Sink, x: seq<byte>) {
    if s.midLine then Unended(x) >= LINE_CAP else |s.line| == Unended(x)
  }

  lemma TakeByteHonest(c: Config, s: Sink, b: byte, at: nat, x: seq<byte>)
    requires Honest(s, x)
    ensures Honest(TakeByte(c, s, b, at), x + [b])
  {
    hide TakeLine;
    assert Front(x + [b]) == x;
    if b == NEWLINE {
      TakeLineKeepsLine(c, s.(line := [], lineBegin := at + 1, midLine := false), s.line + [b], s.lineBegin, s.midLine);
    }
  }

  lemma {:induction false} CutLongHonest(c: Config, s: Sink, x: seq<byte>)
    requires Honest(s, x)
    ensures Honest(CutLong(c, s), x)
    decreases |s.line|
  {
    if |s.line| >= LINE_CAP {
      hide TakeLine;
      var t := s.(line := s.line[LINE_CAP..], lineBegin := s.lineBegin + LINE_CAP, midLine := true);
      TakeLineKeepsLine(c, t, s.line[..LINE_CAP], s.lineBegin, s.midLine);
      CutLongHonest(c, CutOnce(c, s), x);
    }
  }

  /** Appending a byte commutes with cutting what is already too long. */
  lemma {:induction false} CutThenHold(c: Config, s: Sink, b: byte)
    ensures CutLong(c, s.(line := s.line + [b])) == CutLong(c, CutLong(c, s).(line := CutLong(c, s).line + [b]))
    decreases |s.line|
  {
    if |s.line| >= LINE_CAP {
      CutOnceHold(c, s, b);
      CutThenHold(c, CutOnce(c, s), b);
      hide CutOnce;
    }
  }

  lemma CutOnceHold(c: Config, s: Sink, b: byte)
    requires |s.line| >= LINE_CAP
    ensures CutOnce(c, s.(line := s.line + [b])) == CutOnce(c, s).(line := CutOnce(c, s).line + [b])
    ensures |CutOnce(c, s).line| < |s.line|
  {
    var rest, next, fragment := s.line[LINE_CAP..], s.lineBegin + LINE_CAP, s.line[..LINE_CAP];
    assert (s.line + [b])[LINE_CAP..] == rest + [b];
    assert (s.line + [b])[..LINE_CAP] == fragment;
    var t := s.(line := rest, lineBegin := next, midLine := true);
    hide TakeLine;
    TakeLineIgnoresLine(c, t, rest + [b], fragment, s.lineBegin, s.midLine);
    TakeLineKeepsLine(c, t, fragment, s.lineBegin, s.midLine);
    assert CutOnce(c, s) == TakeLine(c, t, fragment, s.lineBegin, s.midLine);
  }

  lemma {:induction false} TakeLineIgnoresLine(c: Config, s: Sink, held: seq<byte>, line: seq<byte>, began: nat, continues: bool)
    ensures TakeLine(c, s.(line := held), line, began, continues)
         == TakeLine(c, s, line, began, continues).(line := held)
  {
    var t := s.(line := held);
    CloseIgnoresLine(c, s, held);
    CloseAtClosesEntry(c, s, began);
    CloseAtClosesEntry(c, t, began);
    hide CloseEntry;
  }

  lemma CloseIgnoresLine(c: Config, s: Sink, held: seq<byte>)
    ensures CloseEntry(c, s.(line := held)) == CloseEntry(c, s).(line := held)
  {
  }

  /** Cutting once at the end of a push is cutting after every byte, while the lines ended are within the cap. */
  lemma {:induction false} PushIsEager(c: Config, s: Sink, data: seq<byte>, base: nat, x: seq<byte>)
    requires Honest(s, x) && |s.line| < LINE_CAP && LinesWithinCap(x + data)
    ensures CutLong(c, RunBytes(c, s, data, base)) == Eager(c, s, data, base)
    ensures Honest(RunBytes(c, s, data, base), x + data)
  {
    if data == [] {
      assert x + data == x;
    } else {
      var d, b, at := Front(data), Last(data), base + |data| - 1;
      assert x + data == (x + d) + [b];
      WithinCapFront(x + d, b);
      PushIsEager(c, s, d, base, x);
      RunBytesLast(c, s, data, base, at);
      EagerLast(c, s, data, base, at);
      var t := RunBytes(c, s, d, base);
      TakeByteHonest(c, t, b, at, x + d);
      hide RunBytes, Eager, TakeLine;
      if b == NEWLINE {
        assert CutLong(c, t) == t;
      } else {
        CutThenHold(c, t, b);
      }
    }
  }

  lemma WithinCapFront(x: seq<byte>, b: byte)
    requires LinesWithinCap(x + [b])
    ensures LinesWithinCap(x)
    ensures b == NEWLINE ==> Unended(x) < LINE_CAP
  {
    assert (x + [b])[|x|] == b && (x + [b])[..|x|] == x;
    forall i | 0 <= i < |x| && x[i] == NEWLINE
      ensures Unended(x[..i]) < LINE_CAP
    {
      assert (x + [b])[i] == x[i] && (x + [b])[..i] == x[..i];
    }
  }

  function Opening(start: nat): Sink {
    New.(lineBegin := start)
  }

  lemma {:induction false} EagerPlace(c: Config, start: nat, data: seq<byte>)
    ensures var e := Eager(c, Opening(start), data, start); e.lineBegin + |e.line| == start + |data|
  {
    if data != [] {
      var at := start + |data| - 1;
      EagerPlace(c, start, Front(data));
      EagerLast(c, Opening(start), data, start, at);
      hide Eager, TakeLine;
      var e := Eager(c, Opening(start), Front(data), start);
      TakeLineKeepsLine(c, e.(line := [], lineBegin := at + 1, midLine := false), e.line + [Last(data)], e.lineBegin, e.midLine);
      CutLongPlace(c, TakeByte(c, e, Last(data), at));
    }
  }

  lemma {:induction false} CutLongPlace(c: Config, s: Sink)
    ensures CutLong(c, s).lineBegin + |CutLong(c, s).line| == s.lineBegin + |s.line|
    decreases |s.line|
  {
    if |s.line| >= LINE_CAP {
      hide TakeLine;
      TakeLineKeepsLine(c, s.(line := s.line[LINE_CAP..], lineBegin := s.lineBegin + LINE_CAP, midLine := true),
                        s.line[..LINE_CAP], s.lineBegin, s.midLine);
      CutLongPlace(c, CutOnce(c, s));
    }
  }

  lemma {:induction false} FeedIsEager(c: Config, ins: seq<Input>, start: nat)
    requires AllPushes(ins) && LinesWithinCap(Data(ins))
    ensures var s := Feed(c, New, ins, start);
            Alike(s, Eager(c, Opening(start), Data(ins), start)) && Honest(s, Data(ins)) && |s.line| < LINE_CAP
  {
    if ins != [] {
      var x, i := Data(Front(ins)), Last(ins);
      var pos := start + |x|;
      assert i in ins && AllPushes(Front(ins));
      FeedLast(c, New, ins, start, pos);
      hide Run, Feed, Data, Eager, Alike, Honest, SinkLaid, LinesWithinCap, PushEvents, AllPushes, Opening;
      WithinCapPrefix(x, i.data);
      FeedIsEager(c, Front(ins), start);
      FeedLaid(false, c, Front(ins), start);
      PushAlike(c, Feed(c, New, Front(ins), start), i.data, i.chunk, i.win, pos, start, x);
    }
  }

  lemma WithinCapPrefix(x: seq<byte>, y: seq<byte>)
    requires LinesWithinCap(x + y)
    ensures LinesWithinCap(x)
  {
    forall i | 0 <= i < |x| && x[i] == NEWLINE
      ensures Unended(x[..i]) < LINE_CAP
    {
      assert (x + y)[i] == x[i] && (x + y)[..i] == x[..i];
    }
  }

  lemma {:induction false} PushAlike(c: Config, s: Sink, data: seq<byte>, chunk: Option<nat>, win: Window, pos: nat, start: nat, x: seq<byte>)
    requires Alike(s, Eager(c, Opening(start), x, start)) && Honest(s, x) && |s.line| < LINE_CAP
    requires SinkLaid(false, s, start, x, false) && pos == start + |x| && LinesWithinCap(x + data)
    ensures var t := Run(c, s, PushEvents(data, chunk, win, pos));
            Alike(t, Eager(c, Opening(start), x + data, start)) && Honest(t, x + data) && |t.line| < LINE_CAP
  {
    var e, s1 := Eager(c, Opening(start), x, start), Step(c, s, Begin(chunk, win, pos));
    EagerPlace(c, start, x);
    assert s1.lineBegin == e.lineBegin;
    hide Eager, RunBytes, CutLong, Show;
    PushIsEager(c, s1, data, pos, x);
    AlikeEager(c, s1, e, data, pos);
    EagerConcat(c, Opening(start), x, data, start, pos);
    RunPush(c, s, data, chunk, win, pos);
    CutLongHonest(c, RunBytes(c, s1, data, pos), x + data);
  }

  /** Within the cap, any two ways of cutting the same input emit the same entries, filtered or not. */
  lemma {:induction false} CuttingIsInvisible(c: Config, ins: seq<Input>, other: seq<Input>, start: nat)
    requires AllPushes(ins) && AllPushes(other) && Data(ins) == Data(other) && LinesWithinCap(Data(ins))
    ensures Show(Emitted(c, ins, start)) == Show(Emitted(c, other, start))
  {
    FeedIsEager(c, ins, start);
    FeedIsEager(c, other, start);
    var e := Eager(c, Opening(start), Data(ins), start);
    AlikeFinish(c, Feed(c, New, ins, start), e);
    AlikeFinish(c, Feed(c, New, other, start), e);
  }

  // ------------------------------------- past the cap, the cut can be seen

  /** An entry that begins at `o` is open or already out. */
  predicate Has(s: Sink, o: nat) {
    (s.entry != [] && s.entryBegin == o) || exists r :: r in s.out && r.offset == o
  }

  lemma HasTakeLine(c: Config, s: Sink, line: seq<byte>, began: nat, continues: bool, o: nat)
    requires Unfiltered(c) && line != []
    ensures Has(s, o) ==> Has(TakeLine(c, s, line, began, continues), o)
    ensures Has(TakeLine(c, s, line, began, continues), o) ==> Has(s, o) || began == o
  {
    HasClose(c, s, o);
    CloseAtClosesEntry(c, s, began);
    hide CloseEntry, CloseAt;
  }

  lemma HasClose(c: Config, s: Sink, o: nat)
    requires Unfiltered(c)
    ensures Has(CloseEntry(c, s), o) <==> Has(s, o)
  {
    if s.entry != [] {
      assert OpenRecord(s) in CloseEntry(c, s).out;
    }
  }

  lemma HasTakeByte(c: Config, s: Sink, b: byte, at: nat, o: nat)
    requires Unfiltered(c)
    ensures Has(s, o) ==> Has(TakeByte(c, s, b, at), o)
    ensures Has(TakeByte(c, s, b, at), o) ==> Has(s, o) || (b == NEWLINE && s.lineBegin == o)
  {
    hide TakeLine;
    if b == NEWLINE {
      HasTakeLine(c, s.(line := [], lineBegin := at + 1, midLine := false), s.line + [b], s.lineBegin, s.midLine, o);
    }
  }

  lemma {:induction false} HasCutLong(c: Config, s: Sink, o: nat)
    requires Unfiltered(c)
    ensures Has(s, o) ==> Has(CutLong(c, s), o)
    ensures Has(CutLong(c, s), o) ==> Has(s, o) || s.lineBegin <= o
    decreases |s.line|
  {
    if |s.line| >= LINE_CAP {
      hide TakeLine, Has;
      var t := s.(line := s.line[LINE_CAP..], lineBegin := s.lineBegin + LINE_CAP, midLine := true);
      TakeLineKeepsLine(c, t, s.line[..LINE_CAP], s.lineBegin, s.midLine);
      HasOnly(s, t, o);
      HasTakeLine(c, t, s.line[..LINE_CAP], s.lineBegin, s.midLine, o);
      HasCutLong(c, CutOnce(c, s), o);
    }
  }

  lemma HasOnly(s: Sink, t: Sink, o: nat)
    requires s.entry == t.entry && s.entryBegin == t.entryBegin && s.out == t.out
    ensures Has(s, o) == Has(t, o)
  {
  }

  lemma {:induction false} HasBytes(c: Config, s: Sink, data: seq<byte>, base: nat, o: nat)
    requires Unfiltered(c)
    ensures Has(s, o) ==> Has(RunBytes(c, s, data, base), o)
  {
    if data != [] {
      var at := base + |data| - 1;
      HasBytes(c, s, Front(data), base, o);
      RunBytesLast(c, s, data, base, at);
      hide Has, RunBytes, TakeByte;
      HasTakeByte(c, RunBytes(c, s, Front(data), base), Last(data), at, o);
    }
  }

  lemma HasFinish(c: Config, s: Sink, o: nat)
    requires Unfiltered(c)
    ensures Has(s, o) ==> exists r :: r in Finish(c, s).out && r.offset == o
    ensures forall r :: r in Finish(c, s).out && r.offset == o ==> Has(s, o) || (s.line != [] && s.lineBegin == o)
  {
    hide TakeLine, CloseEntry;
    var t := s;
    if s.line != [] {
      t := s.(line := [], midLine := false);
      HasOnly(s, t, o);
      HasTakeLine(c, t, s.line, s.lineBegin, s.midLine, o);
      t := TakeLine(c, t, s.line, s.lineBegin, s.midLine);
    }
    HasClose(c, t, o);
    CloseAtClosesEntry(c, t, s.lineBegin + |s.line|);
  }

  /** Inside one push no entry begins within a line. */
  lemma {:induction false} WholePush(c: Config, x: seq<byte>, start: nat, o: nat)
    requires Unfiltered(c)
    requires forall j :: 0 <= j < |x| && x[j] == NEWLINE ==> start + j + 1 != o
    requires start < o
    ensures var s := RunBytes(c, Opening(start), x, start);
            && !s.midLine && |s.line| == Unended(x) && s.lineBegin + |s.line| == start + |x| && s.lineBegin != o
            && !Has(s, o)
  {
    if x != [] {
      var d, b, at := Front(x), Last(x), start + |x| - 1;
      assert d + [b] == x;
      WholePush(c, d, start, o);
      RunBytesLast(c, Opening(start), x, start, at);
      var s := RunBytes(c, Opening(start), d, start);
      HasTakeByte(c, s, b, at, o);
      hide RunBytes, TakeLine, Has;
      if b == NEWLINE {
        TakeLineKeepsLine(c, s.(line := [], lineBegin := at + 1, midLine := false), s.line + [b], s.lineBegin, s.midLine);
      } else {
        HasOnly(s, s.(line := s.line + [b]), o);
      }
    }
  }

  lemma {:induction false} RunBytesConcat(c: Config, s: Sink, x: seq<byte>, y: seq<byte>, base: nat, mid: nat)
    requires mid == base + |x|
    ensures RunBytes(c, s, x + y, base) == RunBytes(c, RunBytes(c, s, x, base), y, mid)
  {
    if y == [] {
      assert x + y == x;
    } else {
      var at := mid + |y| - 1;
      assert Front(x + y) == x + Front(y) && Last(x + y) == Last(y);
      RunBytesLast(c, s, x + y, base, at);
      RunBytesLast(c, RunBytes(c, s, x, base), y, mid, at);
      hide RunBytes, TakeByte;
      RunBytesConcat(c, s, x, Front(y), base, mid);
    }
  }

  lemma {:induction false} HoldBytes(c: Config, s: Sink, y: seq<byte>, base: nat)
    requires NEWLINE !in y
    ensures RunBytes(c, s, y, base) == s.(line := s.line + y)
  {
    if y == [] {
      assert s.line + y == s.line;
    } else {
      var at := base + |y| - 1;
      HoldBytes(c, s, Front(y), base);
      RunBytesLast(c, s, y, base, at);
      hide RunBytes, TakeLine;
      assert s.line + y == s.line + Front(y) + [Last(y)];
    }
  }

  /** A fragment of exactly the cap becomes the open entry and fills it. */
  lemma FragmentFills(c: Config, s: Sink)
    requires |s.line| == LINE_CAP
    ensures var t := CutLong(c, s); t.line == [] && t.midLine && |t.entry| == LINE_CAP
  {
    var next := s.lineBegin + LINE_CAP;
    var u := s.(line := s.line[LINE_CAP..], lineBegin := next, midLine := true);
    TakeLineKeepsLine(c, u, s.line[..LINE_CAP], s.lineBegin, s.midLine);
    FullLineOpens(c, u, s.line[..LINE_CAP], s.lineBegin, s.midLine);
    hide TakeLine;
  }

  lemma FullLineOpens(c: Config, s: Sink, line: seq<byte>, began: nat, continues: bool)
    requires |s.entry| + |line| > ENTRY_CAP || s.entry == []
    ensures TakeLine(c, s, line, began, continues).entry == line
    ensures TakeLine(c, s, line, began, continues).entryBegin == began
  {
    hide CloseEntry;
  }

  const PLAIN: Window := (0, 0)

  function Whole(x: seq<byte>): seq<Input> {
    [Push(x, None, PLAIN)]
  }

  function Halves(x: seq<byte>, cut: nat): seq<Input>
    requires cut <= |x|
  {
    [Push(x[..cut], None, PLAIN), Push(x[cut..], None, PLAIN)]
  }

  lemma FeedPush(c: Config, ins: seq<Input>, data: seq<byte>, start: nat, pos: nat)
    requires pos == start + |Data(ins)|
    ensures var all := ins + [Push(data, None, PLAIN)];
            && Feed(c, New, all, start)
               == CutLong(c, RunBytes(c, Step(c, Feed(c, New, ins, start), Begin(None, PLAIN, pos)), data, pos))
            && Data(all) == Data(ins) + data
  {
    hide Run, RunBytes, CutLong, Step, PushEvents;
    var i := Push(data, None, PLAIN);
    assert Front(ins + [i]) == ins;
    RunPush(c, Feed(c, New, ins, start), data, None, PLAIN, pos);
  }

  lemma FeedWhole(c: Config, x: seq<byte>, start: nat)
    ensures Feed(c, New, Whole(x), start) == CutLong(c, RunBytes(c, Opening(start), x, start))
    ensures Data(Whole(x)) == x
  {
    assert [] + Whole(x) == Whole(x);
    FeedPush(c, [], x, start, start);
    assert Step(c, New, Begin(None, PLAIN, start)) == Opening(start);
    hide Step, RunBytes, CutLong;
  }

  lemma FeedHalves(c: Config, x: seq<byte>, cut: nat, start: nat, mid: nat)
    requires cut <= |x| && mid == start + cut
    ensures Feed(c, New, Halves(x, cut), start)
         == CutLong(c, RunBytes(c, Step(c, Feed(c, New, Whole(x[..cut]), start), Begin(None, PLAIN, mid)), x[cut..], mid))
    ensures Data(Halves(x, cut)) == x
  {
    hide Feed, Step, RunBytes, CutLong, Data;
    FeedWhole(c, x[..cut], start);
    FeedPush(c, Whole(x[..cut]), x[cut..], start, mid);
    assert Whole(x[..cut]) + [Push(x[cut..], None, PLAIN)] == Halves(x, cut);
    assert x[..cut] + x[cut..] == x;
  }

  /** Pushed whole, an overlong line is one entry ... */
  lemma WholeHidesCut(c: Config, x: seq<byte>, start: nat, i: nat, o: nat)
    requires Unfiltered(c) && i < |x| && x[i] == NEWLINE
    requires forall j :: 0 <= j < |x| && x[j] == NEWLINE ==> start + j + 1 != o
    requires start < o <= start + i
    ensures forall r :: r in Emitted(c, Whole(x), start) ==> r.offset != o
  {
    WholePush(c, x, start, o);
    FeedWhole(c, x, start);
    var s := RunBytes(c, Opening(start), x, start);
    assert |x| - Unended(x) > i;
    hide RunBytes, CutLong, Has, Finish;
    HasCutLong(c, s, o);
    CutLongPlace(c, s);
    CutShortens(c, s);
    HasFinish(c, CutLong(c, s), o);
  }

  lemma {:induction false} CutShortens(c: Config, s: Sink)
    ensures |CutLong(c, s).line| <= |s.line|
    decreases |s.line|
  {
    if |s.line| >= LINE_CAP {
      hide TakeLine;
      TakeLineKeepsLine(c, s.(line := s.line[LINE_CAP..], lineBegin := s.lineBegin + LINE_CAP, midLine := true),
                        s.line[..LINE_CAP], s.lineBegin, s.midLine);
      CutShortens(c, CutOnce(c, s));
    }
  }

  /** ... and cut `LINE_CAP` bytes into it, an entry begins at the cut. */
  lemma HalvesShowCut(c: Config, x: seq<byte>, start: nat, b: nat, i: nat, o: nat)
    requires Unfiltered(c) && b + LINE_CAP <= i < |x| && x[i] == NEWLINE && o == start + b + LINE_CAP
    requires forall j :: b <= j < i ==> x[j] != NEWLINE
    requires b == i - Unended(x[..i])
    ensures exists r :: r in Emitted(c, Halves(x, b + LINE_CAP), start) && r.offset == o
  {
    var cut := b + LINE_CAP;
    CutFills(c, x, start, b, i, o);
    FeedHalves(c, x, cut, start, o);
    var w := Feed(c, New, Whole(x[..cut]), start);
    var t, y, z := Step(c, w, Begin(None, PLAIN, o)), x[cut..i], x[i + 1..];
    hide RunBytes, CutLong, Has, Finish, Feed, Unended;
    ThreeParts(x, cut, i);
    EntryAtCut(c, t, y, x[i], z, o);
    var r := RunBytes(c, t, x[cut..], o);
    HasCutLong(c, r, o);
    HasFinish(c, CutLong(c, r), o);
  }

  lemma ThreeParts(x: seq<byte>, cut: nat, i: nat)
    requires cut <= i < |x|
    ensures x[cut..] == x[cut..i] + [x[i]] + x[i + 1..]
  {
  }

  lemma CutFills(c: Config, x: seq<byte>, start: nat, b: nat, i: nat, o: nat)
    requires Unfiltered(c) && b + LINE_CAP <= i < |x| && o == start + b + LINE_CAP
    requires forall j :: b <= j < i ==> x[j] != NEWLINE
    requires b == i - Unended(x[..i])
    ensures var t := Feed(c, New, Whole(x[..b + LINE_CAP]), start);
            t.line == [] && t.midLine && |t.entry| == LINE_CAP
  {
    var cut := b + LINE_CAP;
    hide RunBytes, CutLong, Has, Feed, Unended, Finish;
    UnendedCut(x, b, cut, i);
    forall j | 0 <= j < cut && x[..cut][j] == NEWLINE
      ensures start + j + 1 != o
    {
      assert x[j] == NEWLINE;
    }
    WholePush(c, x[..cut], start, o);
    FragmentFills(c, RunBytes(c, Opening(start), x[..cut], start));
    FeedWhole(c, x[..cut], start);
  }

  lemma EntryAtCut(c: Config, t: Sink, y: seq<byte>, nl: byte, z: seq<byte>, o: nat)
    requires Unfiltered(c) && NEWLINE !in y && nl == NEWLINE
    requires t.line == [] && t.midLine && t.lineBegin == o && |t.entry| == LINE_CAP
    ensures Has(RunBytes(c, t, y + [nl] + z, o), o)
  {
    var at, mid := o + |y|, o + |y| + 1;
    HoldBytes(c, t, y, o);
    RunBytesLast(c, t, y + [nl], o, at);
    assert Front(y + [nl]) == y;
    var h := t.(line := t.line + y);
    assert t.line + y == y;
    FullLineOpens(c, h.(line := [], lineBegin := mid, midLine := false), y + [nl], o, true);
    RunBytesConcat(c, t, y + [nl], z, o, mid);
    assert Has(TakeByte(c, h, nl, at), o);
    hide RunBytes, TakeLine, Has;
    HasBytes(c, RunBytes(c, t, y + [nl], o), z, mid, o);
  }

  lemma UnendedCut(x: seq<byte>, b: nat, cut: nat, i: nat)
    requires b <= cut <= i < |x| && b == i - Unended(x[..i])
    requires forall j :: b <= j < i ==> x[j] != NEWLINE
    ensures Unended(x[..cut]) == cut - b
  {
    assert b > 0 ==> x[..i][b - 1] == NEWLINE;
    assert b > 0 ==> x[..cut][b - 1] == NEWLINE;
    forall j | b <= j < cut
      ensures x[..cut][j] != NEWLINE
    {
      assert x[j] != NEWLINE;
    }
  }

  /** If `ins` is a cutting of `x`, it emits what `x` pushed whole does. */
  predicate EmitsAsWhole(c: Config, ins: seq<Input>, x: seq<byte>, start: nat) {
    AllPushes(ins) && Data(ins) == x ==> Show(Emitted(c, ins, start)) == Show(Emitted(c, Whole(x), start))
  }

  /** The input's emission is independent of its cutting if and only if its lines are within the cap. */
  lemma CuttingIsInvisibleIff(c: Config, x: seq<byte>, start: nat)
    requires Unfiltered(c)
    ensures (forall ins :: EmitsAsWhole(c, ins, x, start)) <==> LinesWithinCap(x)
  {
    hide Emitted, Feed, Show, Unended, Data;
    if LinesWithinCap(x) {
      FeedWhole(c, x, start);
      forall ins
        ensures EmitsAsWhole(c, ins, x, start)
      {
        if AllPushes(ins) && Data(ins) == x {
          CuttingIsInvisible(c, ins, Whole(x), start);
        }
      }
    } else {
      var i :| 0 <= i < |x| && x[i] == NEWLINE && Unended(x[..i]) >= LINE_CAP;
      CutShows(c, x, start, i);
      assert !EmitsAsWhole(c, Halves(x, i - Unended(x[..i]) + LINE_CAP), x, start);
    }
  }

  lemma CutShows(c: Config, x: seq<byte>, start: nat, i: nat)
    requires Unfiltered(c) && i < |x| && x[i] == NEWLINE && Unended(x[..i]) >= LINE_CAP
    ensures var two := Halves(x, i - Unended(x[..i]) + LINE_CAP);
            AllPushes(two) && Data(two) == x && Show(Emitted(c, two, start)) != Show(Emitted(c, Whole(x), start))
  {
    hide Emitted, Feed, Show;
    var b := i - Unended(x[..i]);
    var o := start + b + LINE_CAP;
    forall j | b <= j < i
      ensures x[j] != NEWLINE
    {
      assert x[..i][j] == x[j];
    }
    WholeHidesCut(c, x, start, i, o);
    HalvesShowCut(c, x, start, b, i, o);
    FeedHalves(c, x, b + LINE_CAP, start, o);
    OffsetsShow(Emitted(c, Whole(x), start), Emitted(c, Halves(x, b + LINE_CAP), start), o);
  }

  lemma OffsetsShow(one: seq<Record>, two: seq<Record>, o: nat)
    requires (forall r :: r in one ==> r.offset != o) && exists r :: r in two && r.offset == o
    ensures Show(two) != Show(one)
  {
    var r :| r in two && r.offset == o;
    var k :| 0 <= k < |two| && two[k] == r;
    assert Show(two)[k].offset == o;
    assert k < |one| ==> Show(one)[k].offset == one[k].offset;
  }
}
