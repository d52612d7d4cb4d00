/**
 * Every well-formed frame survives the wire: decoding what was encoded, with
 * anything after it, gives the frame back and its exact length, and with any
 * of it missing asks for more. So does a list of frames, those of kinds this
 * build does not know included, however the bytes arrive.
 */
module FrameWire {
  import opened Common
  import opened LittleEndian
  import opened FrameModel

  // ------------------------------------------------------------- taking back

  lemma TakeBack(x: seq<byte>, rest: seq<byte>, what: string)
    ensures Take(x + rest, |x|, what) == Got(x, rest)
    ensures |x| == 16 ==> TakeId(x + rest, what) == Got(x, rest)
    ensures |x| == 8 ==> TakeTag(x + rest, what) == Got(x, rest)
  {
    assert (x + rest)[..|x|] == x && (x + rest)[|x|..] == rest;
  }

  lemma Take32Back(v: u32, rest: seq<byte>, what: string)
    ensures Take32(Put32(v) + rest, what) == Got(v, rest)
  {
    Get32Put32(v);
    assert (Put32(v) + rest)[..4] == Put32(v) && (Put32(v) + rest)[4..] == rest;
  }

  lemma Take64Back(v: u64, rest: seq<byte>, what: string)
    ensures Take64(Put64(v) + rest, what) == Got(v, rest)
  {
    Get64Put64(v);
    assert (Put64(v) + rest)[..8] == Put64(v) && (Put64(v) + rest)[8..] == rest;
  }

  lemma EachFirst<T>(f: T -> seq<byte>, xs: seq<T>, rest: seq<byte>)
    requires xs != []
    ensures Each(f, xs) + rest == f(xs[0]) + (Each(f, xs[1..]) + rest)
  {
  }

  lemma {:induction false} EachSize<T>(f: T -> seq<byte>, xs: seq<T>, n: nat)
    requires forall x :: |f(x)| == n
    ensures |Each(f, xs)| == n * |xs|
  {
    if xs != [] {
      EachSize(f, xs[1..], n);
    }
  }

  // ------------------------------------------------------------------- runs

  predicate Ordered(runs: seq<Run>) {
    forall i :: 0 <= i < |runs| ==> runs[i].start <= runs[i].end
  }

  lemma RunBack(r: Run, rest: seq<byte>)
    ensures TakeRun(RunBytes(r) + rest)
         == if r.end < r.start then Bad(Inconsistent("run ends before it starts")) else Got(r, rest)
  {
    hide Take64, Put64;
    Assoc(Put64(r.start), Put64(r.end), rest);
    Take64Back(r.start, Put64(r.end) + rest, "run start");
    Take64Back(r.end, rest, "run end");
  }

  lemma {:induction false} TakeRunsBack(runs: seq<Run>, rest: seq<byte>)
    ensures TakeRuns(Each(RunBytes, runs) + rest, |runs|)
         == if Ordered(runs) then Got(runs, rest) else Bad(Inconsistent("run ends before it starts"))
  {
    if runs == [] {
      assert Each(RunBytes, runs) + rest == rest;
    } else {
      hide TakeRun, RunBytes;
      EachFirst(RunBytes, runs, rest);
      RunBack(runs[0], Each(RunBytes, runs[1..]) + rest);
      TakeRunsBack(runs[1..], rest);
      assert runs == [runs[0]] + runs[1..];
      assert Ordered(runs) <==> runs[0].start <= runs[0].end && Ordered(runs[1..]);
    }
  }

  lemma RunsBack(runs: seq<Run>, rest: seq<byte>)
    requires |PutRuns(runs)| <= MAX_PAYLOAD
    ensures GetRuns(PutRuns(runs) + rest)
         == if Ordered(runs) then Got(runs, rest) else Bad(Inconsistent("run ends before it starts"))
  {
    EachSize(RunBytes, runs, RUN_LEN);
    hide RunBytes, TakeRuns, Take32, Each;
    var n := |runs|;
    assert Low32(n) == n;
    Assoc(Put32(n), Each(RunBytes, runs), rest);
    Take32Back(n, Each(RunBytes, runs) + rest, "run count");
    TakeRunsBack(runs, rest);
  }

  // --------------------------------------------------------------- sidecars

  predicate Short(sidecars: seq<Sidecar>) {
    forall i :: 0 <= i < |sidecars| ==> |sidecars[i].bytes| <= MAX_PAYLOAD
  }

  function EntriesOf(sidecars: seq<Sidecar>): (es: seq<Entry>)
    ensures |es| == |sidecars|
  {
    if sidecars == [] then []
    else [Entry(sidecars[0].kind, |sidecars[0].bytes|)] + EntriesOf(sidecars[1..])
  }

  lemma EntryBack(s: Sidecar, rest: seq<byte>)
    requires |s.bytes| <= MAX_PAYLOAD
    ensures TakeEntry(EntryBytes(s) + rest) == Got(Entry(s.kind, |s.bytes|), rest)
  {
    hide Take32, Put32;
    var n := |s.bytes|;
    assert Low32(n) == n;
    Assoc(s.kind, Put32(n), rest);
    TakeBack(s.kind, Put32(n) + rest, "sidecar kind");
    Take32Back(n, rest, "sidecar length");
  }

  lemma {:induction false} TakeEntriesBack(sidecars: seq<Sidecar>, rest: seq<byte>)
    requires Short(sidecars)
    ensures TakeEntries(Each(EntryBytes, sidecars) + rest, |sidecars|) == Got(EntriesOf(sidecars), rest)
  {
    if sidecars == [] {
      assert Each(EntryBytes, sidecars) + rest == rest;
    } else {
      hide TakeEntry, EntryBytes;
      EachFirst(EntryBytes, sidecars, rest);
      EntryBack(sidecars[0], Each(EntryBytes, sidecars[1..]) + rest);
      TakeEntriesBack(sidecars[1..], rest);
    }
  }

  lemma TableBack(sidecars: seq<Sidecar>, rest: seq<byte>)
    requires |PutTable(sidecars)| <= MAX_PAYLOAD && Short(sidecars)
    ensures GetTable(PutTable(sidecars) + rest) == Got(EntriesOf(sidecars), rest)
  {
    EachSize(EntryBytes, sidecars, SIDECAR_ENTRY_LEN);
    hide EntryBytes, TakeEntries, Take32, Each, EntriesOf;
    var n := |sidecars|;
    assert Low32(n) == n;
    Assoc(Put32(n), Each(EntryBytes, sidecars), rest);
    Take32Back(n, Each(EntryBytes, sidecars) + rest, "sidecar count");
    TakeEntriesBack(sidecars, rest);
  }

  lemma {:induction false} BodiesBack(sidecars: seq<Sidecar>, rest: seq<byte>)
    ensures GetSidecars(PutBodies(sidecars) + rest, EntriesOf(sidecars)) == Got(sidecars, rest)
    ensures TotalLen(EntriesOf(sidecars)) == |PutBodies(sidecars)|
    ensures |PutBodies(sidecars)| <= MAX_PAYLOAD ==> Short(sidecars)
  {
    if sidecars == [] {
      assert PutBodies(sidecars) + rest == rest;
    } else {
      hide Take;
      EachFirst(BodyBytes, sidecars, rest);
      TakeBack(sidecars[0].bytes, PutBodies(sidecars[1..]) + rest, "sidecar body");
      BodiesBack(sidecars[1..], rest);
      assert sidecars == [sidecars[0]] + sidecars[1..];
    }
  }

  // ----------------------------------------------------------------- frames

  /** The chunk's bytes are absent, or there are some and exactly as many as it says. */
  predicate CompStated(comp: Option<seq<byte>>, compLen: u64) {
    comp.Some? ==> comp.value != [] && |comp.value| == compLen
  }

  predicate WellFormed(f: Frame) {
    match f
    case StreamOpen(_, _, _, _, _, _, _) => true
    case Chunk(_, _, compLen, comp, _, _, _) => CompStated(comp, compLen)
    case CoverageOf(runs) => Ordered(runs)
    case Accepted(_, runs) => Ordered(runs)
    case Conflict(_, runs, reason) => Ordered(runs) && Utf8(reason)
    case StreamClose => true
    case Unknown(kind, _) => !(1 <= kind <= 6)
  }

  predicate Comes(g: Got<Frame>, f: Frame) {
    g.Got? && g.value == f
  }

  lemma StreamOpenBack(f: Frame)
    requires f.StreamOpen? && |PayloadOf(f)| <= MAX_PAYLOAD
    ensures Comes(GetStreamOpen(PayloadOf(f)), f)
  {
    hide Take32, Take64, TakeId, Put32, Put64, PutTable, PutBodies, GetOpenTail;
    var n := |f.provenance|;
    assert Low32(n) == n;
    var b0 := PutTable(f.sidecars) + (f.provenance + PutBodies(f.sidecars));
    OpenTailBack(f, n, b0);
    var b1 := Put32(n) + b0;
    Take32Back(n, b0, "provenance length");
    var b2 := Put32(f.mode.Wire()) + b1;
    Take32Back(f.mode.Wire(), b1, "mode");
    var b3 := Put64(f.lastSeq) + b2;
    Take64Back(f.lastSeq, b2, "last seq");
    var b4 := Put64(f.firstSeq) + b3;
    Take64Back(f.firstSeq, b3, "first seq");
    var b5 := f.senderId + b4;
    TakeBack(f.senderId, b4, "sender id");
    TakeBack(f.originId, b5, "origin id");
    assert PayloadOf(f) == f.originId + b5;
  }

  lemma OpenTailBack(f: Frame, n: nat, b: seq<byte>)
    requires f.StreamOpen? && n == |f.provenance| && |b| <= MAX_PAYLOAD
    requires b == PutTable(f.sidecars) + (f.provenance + PutBodies(f.sidecars))
    ensures Comes(GetOpenTail(f.originId, f.senderId, f.firstSeq, f.lastSeq, f.mode, n, b), f)
  {
    hide GetTable, Take, GetSidecars, PutTable, PutBodies;
    BodiesBack(f.sidecars, []);
    assert PutBodies(f.sidecars) + [] == PutBodies(f.sidecars);
    TakeBack(f.provenance, PutBodies(f.sidecars), "provenance");
    TableBack(f.sidecars, f.provenance + PutBodies(f.sidecars));
  }

  lemma ChunkTailBack(f: Frame, b: seq<byte>)
    requires f.Chunk? && |b| <= MAX_PAYLOAD
    requires b == PutTable(f.sidecars) + ((if f.comp.Some? then f.comp.value else []) + PutBodies(f.sidecars))
    ensures var g := GetChunkTail(f.number, f.uncompLen, f.compLen, f.firstWriteMs, f.lastWriteMs, b);
            Comes(g, f) <==> CompStated(f.comp, f.compLen)
  {
    hide GetTable, GetSidecars, PutTable, PutBodies, EntriesOf;
    var comp := if f.comp.Some? then f.comp.value else [];
    var rest := comp + PutBodies(f.sidecars);
    BodiesBack(f.sidecars, []);
    assert PutBodies(f.sidecars) + [] == PutBodies(f.sidecars);
    TableBack(f.sidecars, rest);
    assert rest[..|comp|] == comp && rest[|comp|..] == PutBodies(f.sidecars);
  }

  lemma ChunkBack(f: Frame)
    requires f.Chunk? && |PayloadOf(f)| <= MAX_PAYLOAD
    ensures Comes(GetChunk(PayloadOf(f)), f) <==> CompStated(f.comp, f.compLen)
  {
    hide Take64, Put64, PutTable, PutBodies, GetChunkTail, CompStated;
    var b0 := PutTable(f.sidecars) + ((if f.comp.Some? then f.comp.value else []) + PutBodies(f.sidecars));
    ChunkTailBack(f, b0);
    var b1 := Put64(f.lastWriteMs) + b0;
    Take64Back(f.lastWriteMs, b0, "last write");
    var b2 := Put64(f.firstWriteMs) + b1;
    Take64Back(f.firstWriteMs, b1, "first write");
    var b3 := Put64(f.compLen) + b2;
    Take64Back(f.compLen, b2, "comp_len");
    var b4 := Put64(f.uncompLen) + b3;
    Take64Back(f.uncompLen, b3, "uncomp_len");
    Take64Back(f.number, b4, "seq");
    assert PayloadOf(f) == Put64(f.number) + b4;
  }

  lemma ConflictBack(f: Frame)
    requires f.Conflict? && |PayloadOf(f)| <= MAX_PAYLOAD
    ensures Comes(GetConflict(PayloadOf(f)), f) <==> Ordered(f.runs) && Utf8(f.reason)
  {
    hide Take32, TakeId, Take, Put32, PutRuns, GetRuns, Utf8, Ordered;
    var n := |f.reason|;
    assert Low32(n) == n;
    assert f.reason + [] == f.reason;
    TakeBack(f.reason, [], "reason");
    Take32Back(n, f.reason, "reason length");
    RunsBack(f.runs, Put32(n) + f.reason);
    TakeBack(f.holderOrigin, PutRuns(f.runs) + (Put32(n) + f.reason), "holder origin");
  }

  lemma RunsFrameBack(f: Frame)
    requires f.CoverageOf? || f.Accepted?
    requires |PayloadOf(f)| <= MAX_PAYLOAD
    ensures Comes(GetFrame(f.WireKind(), PayloadOf(f)), f) <==> Ordered(f.runs)
  {
    hide TakeId, PutRuns, GetRuns, Ordered;
    assert PutRuns(f.runs) + [] == PutRuns(f.runs);
    RunsBack(f.runs, []);
    if f.Accepted? {
      TakeBack(f.registrationId, PutRuns(f.runs), "registration id");
    }
  }

  /** A payload reads back as its frame if and only if the frame is well formed. */
  lemma FrameBack(f: Frame)
    requires |PayloadOf(f)| <= MAX_PAYLOAD
    ensures Comes(GetFrame(f.WireKind(), PayloadOf(f)), f) <==> WellFormed(f)
  {
    hide GetStreamOpen, GetChunk, GetConflict, GetAccepted, GetRuns, PutRuns, CompStated, Ordered, Utf8;
    match f
    case StreamOpen(_, _, _, _, _, _, _) => StreamOpenBack(f);
    case Chunk(_, _, _, _, _, _, _) => ChunkBack(f);
    case Conflict(_, _, _) => ConflictBack(f);
    case CoverageOf(_) => RunsFrameBack(f);
    case Accepted(_, _) => RunsFrameBack(f);
    case StreamClose =>
    case Unknown(_, _) => UnknownBack(f);
  }

  /** A kind that is known is never read as an unknown one. */
  lemma UnknownBack(f: Frame)
    requires f.Unknown?
    ensures Comes(GetFrame(f.kind, f.payload), f) <==> WellFormed(f)
  {
  }

  // ------------------------------------------------------- frames on the wire

  /** A header read back, whatever follows it. */
  lemma HeaderBack(f: Framed, rest: seq<byte>)
    ensures var buf, payload := Encode(f) + rest, PayloadOf(f.frame);
            && |Encode(f)| == FRAME_HEADER_LEN + |payload|
            && Get32(buf[0..4]) == f.stream && Get32(buf[4..8]) == f.frame.WireKind()
            && Get32(buf[8..12]) == Low32(|payload|)
            && buf[FRAME_HEADER_LEN..FRAME_HEADER_LEN + |payload|] == payload
  {
    hide PayloadOf, Put32, Get32;
    var payload := PayloadOf(f.frame);
    var buf := Encode(f) + rest;
    var a, b, c := Put32(f.stream), Put32(f.frame.WireKind()), Put32(Low32(|payload|));
    Get32Put32(f.stream);
    Get32Put32(f.frame.WireKind());
    Get32Put32(Low32(|payload|));
    assert buf == a + b + c + payload + rest;
    assert buf[0..4] == a && buf[4..8] == b && buf[8..12] == c;
  }

  /** What decoding comes to, the header being all there. */
  lemma DecodeIs(buf: seq<byte>, stream: u32, kind: u32, payload: seq<byte>)
    requires |payload| <= MAX_PAYLOAD && FRAME_HEADER_LEN + |payload| <= |buf|
    requires Get32(buf[0..4]) == stream && Get32(buf[4..8]) == kind && Get32(buf[8..12]) == |payload|
    requires buf[FRAME_HEADER_LEN..FRAME_HEADER_LEN + |payload|] == payload
    ensures Decode(buf)
         == match GetFrame(kind, payload)
            case Bad(e) => Malformed(e)
            case Got(f, _) => Whole(Framed(stream, f), FRAME_HEADER_LEN + |payload|)
  {
    hide GetFrame, Get32;
  }

  /** Every well-formed frame survives, and no other of its size does. */
  lemma FrameSurvives(f: Framed, rest: seq<byte>)
    requires |PayloadOf(f.frame)| <= MAX_PAYLOAD
    ensures Decode(Encode(f) + rest) == Whole(f, |Encode(f)|) <==> WellFormed(f.frame)
  {
    hide PayloadOf, Encode, Decode, GetFrame, WellFormed, Get32;
    HeaderBack(f, rest);
    FrameBack(f.frame);
    DecodeIs(Encode(f) + rest, f.stream, f.frame.WireKind(), PayloadOf(f.frame));
  }

  /** With any of it missing, more is asked for. */
  lemma PrefixNeedsMore(f: Framed, n: nat)
    requires |PayloadOf(f.frame)| <= MAX_PAYLOAD && n < |Encode(f)|
    ensures Decode(Encode(f)[..n]) == NeedMore
  {
    HeaderBack(f, []);
    var buf := Encode(f);
    assert buf + [] == buf;
    if n >= FRAME_HEADER_LEN {
      assert buf[..n][8..12] == buf[8..12];
    }
    hide PayloadOf, Encode, GetFrame, Get32;
  }

  /** What a reader makes of its input: frames until more is needed or the stream is malformed. */
  datatype Stream = Stream(frames: seq<Framed>, left: seq<byte>, error: Option<FrameError>)

  function ReadAll(buf: seq<byte>): Stream {
    match Decode(buf)
    case NeedMore => Stream([], buf, None)
    case Malformed(e) => Stream([], buf, Some(e))
    case Whole(f, n) =>
      DecodedLen(buf);
      var r := ReadAll(buf[n..]);
      r.(frames := [f] + r.frames)
  }

  lemma DecodedLen(buf: seq<byte>)
    ensures Decode(buf).Whole? ==> FRAME_HEADER_LEN <= Decode(buf).len <= |buf|
  {
    hide GetFrame;
  }

  predicate Sendable(f: Framed) {
    |PayloadOf(f.frame)| <= 0x400_0000 && WellFormed(f.frame)
  }

  /** A frame cut short, or nothing at all. */
  ghost predicate Unfinished(last: seq<byte>) {
    last == [] || exists f: Framed, n: nat :: CutShort(last, f, n)
  }

  predicate CutShort(last: seq<byte>, f: Framed, n: nat) {
    Sendable(f) && n < |Encode(f)| && last == Encode(f)[..n]
  }

  function EncodeAll(fs: seq<Framed>): seq<byte> {
    if fs == [] then [] else Encode(fs[0]) + EncodeAll(fs[1..])
  }

  /** A list of frames decodes back in order, up to a last frame that is not all there. */
  lemma {:induction false} FramesSurvive(fs: seq<Framed>, last: seq<byte>)
    requires forall f :: f in fs ==> Sendable(f)
    requires Unfinished(last)
    ensures ReadAll(EncodeAll(fs) + last) == Stream(fs, last, None)
  {
    if fs == [] {
      assert EncodeAll(fs) + last == last;
      if last != [] {
        var f, n :| CutShort(last, f, n);
        PrefixNeedsMore(f, n);
      }
    } else {
      hide ReadAll, Decode, Encode, PayloadOf, WellFormed, Unfinished;
      var rest := EncodeAll(fs[1..]) + last;
      assert Sendable(fs[0]);
      Assoc(Encode(fs[0]), EncodeAll(fs[1..]), last);
      FrameSurvives(fs[0], rest);
      FramesSurvive(fs[1..], last);
      ReadOne(Encode(fs[0]), rest, fs[0]);
      assert fs == [fs[0]] + fs[1..];
    }
  }

  lemma ReadOne(head: seq<byte>, rest: seq<byte>, f: Framed)
    requires Decode(head + rest) == Whole(f, |head|)
    ensures ReadAll(head + rest) == ReadAll(rest).(frames := [f] + ReadAll(rest).frames)
  {
    hide Decode;
    assert (head + rest)[|head|..] == rest;
  }

  // ------------------------------------------------------- however it arrives

  /** Whatever is decoded is decoded the same with more after it. */
  lemma MoreChangesNothing(buf: seq<byte>, more: seq<byte>)
    requires Decode(buf) != NeedMore
    ensures Decode(buf + more) == Decode(buf)
  {
    var all := buf + more;
    assert all[0..4] == buf[0..4] && all[4..8] == buf[4..8] && all[8..12] == buf[8..12];
    var total := FRAME_HEADER_LEN + Get32(buf[8..12]);
    if total <= |buf| {
      assert all[FRAME_HEADER_LEN..total] == buf[FRAME_HEADER_LEN..total];
    }
    hide GetFrame, Get32;
  }

  /** The input read so far, then the rest of it. */
  function Then(r: Stream, more: seq<byte>): Stream {
    if r.error.Some? then r.(left := r.left + more)
    else var t := ReadAll(r.left + more); t.(frames := r.frames + t.frames)
  }

  /** So a reader that is given its input in parts ends with the frames it would have got at once. */
  lemma {:induction false} PartsReadTheSame(buf: seq<byte>, more: seq<byte>)
    ensures ReadAll(buf + more) == Then(ReadAll(buf), more)
    decreases |buf|
  {
    match Decode(buf)
    case NeedMore =>
      assert [] + ReadAll(buf + more).frames == ReadAll(buf + more).frames;
    case Malformed(e) =>
      MoreChangesNothing(buf, more);
      hide Decode;
    case Whole(f, n) =>
      MoreChangesNothing(buf, more);
      DecodedLen(buf);
      hide Decode, ReadAll;
      var head, rest := buf[..n], buf[n..];
      PartsReadTheSame(rest, more);
      assert buf == head + rest;
      ReadOne(head, rest, f);
      Assoc(head, rest, more);
      ReadOne(head, rest + more, f);
      var r := ReadAll(rest);
      Assoc([f], r.frames, ReadAll(r.left + more).frames);
  }

  /** The hello, too; only this version's, with no flag set, is taken. */
  lemma HelloSurvives(h: Hello, rest: seq<byte>, n: nat)
    requires n < 16
    ensures |EncodeHello(h)| == 16
    ensures DecodeHello(EncodeHello(h)[..n]) == NeedMore
    ensures DecodeHello(EncodeHello(h) + rest)
         == if h.version != 1 then Malformed(BadVersion(h.version))
            else if h.incompat != 0 then Malformed(Incompatible(h.incompat))
            else Whole(h, 16)
  {
    Get32Put32(h.version);
    Get32Put32(h.incompat);
    hide Put32, Get32;
    var buf := EncodeHello(h) + rest;
    assert buf[..8] == MAGIC;
    assert buf[8..12] == Put32(h.version);
    assert buf[12..16] == Put32(h.incompat);
  }

  /** The kinds as the wire numbers them. */
  function KindNumber(f: Frame): u32 {
    match f
    case StreamOpen(_, _, _, _, _, _, _) => 1
    case Chunk(_, _, _, _, _, _, _) => 2
    case CoverageOf(_) => 3
    case Accepted(_, _) => 4
    case Conflict(_, _, _) => 5
    case StreamClose => 6
    case Unknown(kind, _) => kind
  }

  /** A frame is its stream, its kind, the length of its payload, and its payload. */
  lemma FrameLayout(f: Framed)
    requires |PayloadOf(f.frame)| < 0x1_0000_0000
    ensures var b := Encode(f);
            && |b| == 12 + |PayloadOf(f.frame)| && b[0..4] == Put32(f.stream) && b[4..8] == Put32(KindNumber(f.frame))
            && b[8..12] == Put32(|PayloadOf(f.frame)|) && b[12..] == PayloadOf(f.frame)
  {
    hide Put32, PayloadOf;
  }

  lemma OpenLayout(f: Frame)
    requires f.StreamOpen?
    ensures var p := PayloadOf(f);
            && |p| >= 56 && p[0..16] == f.originId && p[16..32] == f.senderId
            && p[32..40] == Put64(f.firstSeq) && p[40..48] == Put64(f.lastSeq)
            && p[48..52] == Put32(match f.mode case Coverage => 1 case Index => 2 case Frames => 3)
            && p[52..56] == Put32(Low32(|f.provenance|))
            && p[56..] == PutTable(f.sidecars) + (f.provenance + PutBodies(f.sidecars))
  {
    hide Put32, Put64, PutTable, PutBodies, Low32;
  }

  lemma ChunkLayout(f: Frame)
    requires f.Chunk?
    ensures var p := PayloadOf(f);
            && |p| >= 40 && p[0..8] == Put64(f.number) && p[8..16] == Put64(f.uncompLen) && p[16..24] == Put64(f.compLen)
            && p[24..32] == Put64(f.firstWriteMs) && p[32..40] == Put64(f.lastWriteMs)
            && p[40..] == PutTable(f.sidecars) + ((if f.comp.Some? then f.comp.value else []) + PutBodies(f.sidecars))
  {
    hide Put64, PutTable, PutBodies;
  }

  /** A hello is the magic, the version and the flags. */
  lemma HelloLayout(h: Hello)
    ensures EncodeHello(h)[0..8] == [84, 73, 77, 66, 83, 84, 82, 49]
    ensures EncodeHello(h)[8..12] == Put32(h.version) && EncodeHello(h)[12..16] == Put32(h.incompat)
  {
    hide Put32;
  }
}
