/**
 * The codec as the source writes it: encoding appends to a buffer, decoding
 * walks a payload with a cursor that cannot read past its end. Each is proved
 * to do what `FrameModel` says.
 */
module FrameCodec {
  import opened Common
  import opened LittleEndian
  import opened FrameModel

  // ---------------------------------------------------------------- encoding

  class Buffer {
    var bytes: seq<byte>

    constructor ()
      ensures bytes == []
    {
      bytes := [];
    }

    method Extend(more: seq<byte>)
      modifies this
      ensures bytes == old(bytes) + more
    {
      bytes := bytes + more;
    }

    method PutRuns(runs: seq<Run>)
      modifies this
      ensures bytes == old(bytes) + FrameModel.PutRuns(runs)
    {
      Extend(Put32(Low32(|runs|)));
      ghost var n := Put32(Low32(|runs|));
      hide Each, Put64;
      assert Each(RunBytes, runs[..0]) == [] by {
        EachNone(RunBytes, runs[..0]);
      }
      for i := 0 to |runs|
        invariant bytes == old(bytes) + (n + Each(RunBytes, runs[..i]))
      {
        EachSnoc(RunBytes, runs, i);
        Extend(Put64(runs[i].start));
        Extend(Put64(runs[i].end));
      }
      assert runs[..|runs|] == runs;
    }

    method PutTable(sidecars: seq<Sidecar>)
      modifies this
      ensures bytes == old(bytes) + FrameModel.PutTable(sidecars)
    {
      Extend(Put32(Low32(|sidecars|)));
      ghost var n := Put32(Low32(|sidecars|));
      hide Each, Put32;
      assert Each(EntryBytes, sidecars[..0]) == [] by {
        EachNone(EntryBytes, sidecars[..0]);
      }
      for i := 0 to |sidecars|
        invariant bytes == old(bytes) + (n + Each(EntryBytes, sidecars[..i]))
      {
        EachSnoc(EntryBytes, sidecars, i);
        Extend(sidecars[i].kind);
        Extend(Put32(Low32(|sidecars[i].bytes|)));
      }
      assert sidecars[..|sidecars|] == sidecars;
    }

    method PutBodies(sidecars: seq<Sidecar>)
      modifies this
      ensures bytes == old(bytes) + FrameModel.PutBodies(sidecars)
    {
      for i := 0 to |sidecars|
        invariant bytes == old(bytes) + Each(BodyBytes, sidecars[..i])
      {
        EachSnoc(BodyBytes, sidecars, i);
        Extend(sidecars[i].bytes);
      }
      assert sidecars[..|sidecars|] == sidecars;
    }
  }

  lemma EachNone<T>(f: T -> seq<byte>, xs: seq<T>)
    requires xs == []
    ensures Each(f, xs) == []
  {
  }

  lemma {:induction false} EachSnoc<T>(f: T -> seq<byte>, xs: seq<T>, i: nat)
    requires i < |xs|
    ensures Each(f, xs[..i + 1]) == Each(f, xs[..i]) + f(xs[i])
    decreases i
  {
    if i == 0 {
      assert xs[..1][1..] == [];
    } else {
      assert xs[..i + 1][1..] == xs[1..][..i] && xs[..i][1..] == xs[1..][..i - 1];
      EachSnoc(f, xs[1..], i - 1);
    }
  }

  /** Append the parts of `rest` in turn: what is written so far and what is to come make the whole. */
  method Put(out: Buffer, x: seq<byte>, ghost rest: seq<byte>, ghost whole: seq<byte>)
    requires out.bytes + (x + rest) == whole
    modifies out
    ensures out.bytes + rest == whole
  {
    Assoc(out.bytes, x, rest);
    out.Extend(x);
  }

  method PutStreamOpen(out: Buffer, f: Frame)
    requires f.StreamOpen? && out.bytes == []
    modifies out
    ensures out.bytes == PayloadOf(f)
  {
    hide FrameModel.PutTable, FrameModel.PutBodies, Put32, Put64;
    ghost var whole, bodies := PayloadOf(f), FrameModel.PutBodies(f.sidecars);
    ghost var b0 := f.provenance + bodies;
    ghost var b1 := FrameModel.PutTable(f.sidecars) + b0;
    ghost var b2 := Put32(Low32(|f.provenance|)) + b1;
    ghost var b3 := Put32(f.mode.Wire()) + b2;
    ghost var b4 := Put64(f.lastSeq) + b3;
    ghost var b5 := Put64(f.firstSeq) + b4;
    ghost var b6 := f.senderId + b5;
    assert [] + (f.originId + b6) == whole;
    hide PayloadOf;
    Put(out, f.originId, b6, whole);
    Put(out, f.senderId, b5, whole);
    Put(out, Put64(f.firstSeq), b4, whole);
    Put(out, Put64(f.lastSeq), b3, whole);
    Put(out, Put32(f.mode.Wire()), b2, whole);
    Put(out, Put32(Low32(|f.provenance|)), b1, whole);
    Assoc(out.bytes, FrameModel.PutTable(f.sidecars), b0);
    out.PutTable(f.sidecars);
    Put(out, f.provenance, bodies, whole);
    out.PutBodies(f.sidecars);
  }

  method PutChunk(out: Buffer, f: Frame)
    requires f.Chunk? && out.bytes == []
    modifies out
    ensures out.bytes == PayloadOf(f)
  {
    hide FrameModel.PutTable, FrameModel.PutBodies, Put64;
    ghost var whole, bodies := PayloadOf(f), FrameModel.PutBodies(f.sidecars);
    ghost var b0 := (if f.comp.Some? then f.comp.value else []) + bodies;
    ghost var b1 := FrameModel.PutTable(f.sidecars) + b0;
    ghost var b2 := Put64(f.lastWriteMs) + b1;
    ghost var b3 := Put64(f.firstWriteMs) + b2;
    ghost var b4 := Put64(f.compLen) + b3;
    ghost var b5 := Put64(f.uncompLen) + b4;
    assert [] + (Put64(f.number) + b5) == whole;
    hide PayloadOf;
    Put(out, Put64(f.number), b5, whole);
    Put(out, Put64(f.uncompLen), b4, whole);
    Put(out, Put64(f.compLen), b3, whole);
    Put(out, Put64(f.firstWriteMs), b2, whole);
    Put(out, Put64(f.lastWriteMs), b1, whole);
    Assoc(out.bytes, FrameModel.PutTable(f.sidecars), b0);
    out.PutTable(f.sidecars);
    if f.comp.Some? {
      Put(out, f.comp.value, bodies, whole);
    } else {
      assert [] + bodies == bodies;
    }
    out.PutBodies(f.sidecars);
  }

  method Payload(f: Frame) returns (out: Buffer)
    ensures fresh(out) && out.bytes == PayloadOf(f)
  {
    out := new Buffer();
    hide FrameModel.PutRuns, Put32;
    match f {
      case StreamOpen(_, _, _, _, _, _, _) =>
        PutStreamOpen(out, f);
      case Chunk(_, _, _, _, _, _, _) =>
        PutChunk(out, f);
      case CoverageOf(runs) =>
        out.PutRuns(runs);
      case Accepted(id, runs) =>
        out.Extend(id);
        out.PutRuns(runs);
      case Conflict(holder, runs, reason) =>
        out.Extend(holder);
        out.PutRuns(runs);
        out.Extend(Put32(Low32(|reason|)));
        out.Extend(reason);
      case StreamClose =>
      case Unknown(_, payload) =>
        out.Extend(payload);
    }
  }

  method Encode(f: Framed, out: Buffer)
    modifies out
    ensures out.bytes == old(out.bytes) + FrameModel.Encode(f)
  {
    var payload := Payload(f.frame);
    hide PayloadOf, Put32;
    out.Extend(Put32(f.stream));
    out.Extend(Put32(f.frame.WireKind()));
    out.Extend(Put32(Low32(|payload.bytes|)));
    out.Extend(payload.bytes);
  }

  // ---------------------------------------------------------------- decoding

  /** What a cursor answered, and where it was left, is what the function says. */
  predicate Agrees<T(==)>(r: Result<T, FrameError>, g: Got<T>, rest: seq<byte>) {
    match g
    case Got(v, left) => r == Ok(v) && rest == left
    case Bad(e) => r == Err(e)
  }

  class Cur {
    const b: seq<byte>
    var at: nat

    predicate Valid()
      reads this
    {
      at <= |b|
    }

    function Rest(): seq<byte>
      reads this
      requires Valid()
    {
      b[at..]
    }

    constructor (b: seq<byte>)
      ensures Valid() && Rest() == b
    {
      this.b, at := b, 0;
    }

    method Take(n: nat, what: string) returns (r: Result<seq<byte>, FrameError>)
      requires Valid()
      modifies this
      ensures Valid() && Agrees(r, FrameModel.Take(old(Rest()), n, what), Rest())
    {
      var end := at + n;
      if end > |b| {
        return Err(Inconsistent(what));
      }
      r := Ok(b[at..end]);
      assert b[at..][..n] == b[at..end] && b[at..][n..] == b[end..];
      at := end;
    }

    method U32(what: string) returns (r: Result<u32, FrameError>)
      requires Valid()
      modifies this
      ensures Valid() && Agrees(r, Take32(old(Rest()), what), Rest())
    {
      var x :- Take(4, what);
      return Ok(Get32(x));
    }

    method U64(what: string) returns (r: Result<u64, FrameError>)
      requires Valid()
      modifies this
      ensures Valid() && Agrees(r, Take64(old(Rest()), what), Rest())
    {
      var x :- Take(8, what);
      return Ok(Get64(x));
    }

    method Id(what: string) returns (r: Result<Uuid, FrameError>)
      requires Valid()
      modifies this
      ensures Valid() && Agrees(r, TakeId(old(Rest()), what), Rest())
    {
      var x :- Take(16, what);
      return Ok(x);
    }

    method Remaining() returns (n: nat)
      requires Valid()
      ensures n == |Rest()|
    {
      n := |b| - at;
    }
  }

  /** What has been read, put in front of what is still to be. */
  function Prepend<T>(xs: seq<T>, g: Got<seq<T>>): Got<seq<T>> {
    match g
    case Bad(e) => Bad(e)
    case Got(ys, rest) => Got(xs + ys, rest)
  }

  lemma PrependNone<T>(g: Got<seq<T>>)
    ensures Prepend([], g) == g
  {
    if g.Got? {
      assert [] + g.value == g.value;
    }
  }

  lemma PrependOne<T>(xs: seq<T>, x: T, g: Got<seq<T>>)
    ensures Prepend(xs, Prepend([x], g)) == Prepend(xs + [x], g)
  {
    if g.Got? {
      Assoc(xs, [x], g.value);
    }
  }

  method TakeRun(c: Cur) returns (r: Result<Run, FrameError>)
    requires c.Valid()
    modifies c
    ensures c.Valid() && Agrees(r, FrameModel.TakeRun(old(c.Rest())), c.Rest())
  {
    var start :- c.U64("run start");
    var end :- c.U64("run end");
    if end < start {
      return Err(Inconsistent("run ends before it starts"));
    }
    return Ok(Run(start, end));
  }

  method GetRuns(c: Cur) returns (r: Result<seq<Run>, FrameError>)
    requires c.Valid()
    modifies c
    ensures c.Valid() && Agrees(r, FrameModel.GetRuns(old(c.Rest())), c.Rest())
  {
    var n :- c.U32("run count");
    var remaining := c.Remaining();
    if n * RUN_LEN > remaining {
      return Err(Inconsistent("run count exceeds payload"));
    }
    r := GetRunList(c, n);
  }

  method GetRunList(c: Cur, n: nat) returns (r: Result<seq<Run>, FrameError>)
    requires c.Valid()
    modifies c
    ensures c.Valid() && Agrees(r, TakeRuns(old(c.Rest()), n), c.Rest())
  {
    hide FrameModel.TakeRun;
    var runs := [];
    ghost var all := TakeRuns(c.Rest(), n);
    PrependNone(all);
    for i := 0 to n
      invariant c.Valid() && all == Prepend(runs, TakeRuns(c.Rest(), n - i))
    {
      var run :- TakeRun(c);
      PrependOne(runs, run, TakeRuns(c.Rest(), n - (i + 1)));
      runs := runs + [run];
    }
    assert runs + [] == runs;
    return Ok(runs);
  }

  method TakeEntry(c: Cur) returns (r: Result<Entry, FrameError>)
    requires c.Valid()
    modifies c
    ensures c.Valid() && Agrees(r, FrameModel.TakeEntry(old(c.Rest())), c.Rest())
  {
    var kind :- c.Take(8, "sidecar kind");
    var len :- c.U32("sidecar length");
    return Ok(Entry(kind, len));
  }

  method GetSidecarTable(c: Cur) returns (r: Result<seq<Entry>, FrameError>)
    requires c.Valid()
    modifies c
    ensures c.Valid() && Agrees(r, GetTable(old(c.Rest())), c.Rest())
  {
    var n :- c.U32("sidecar count");
    var remaining := c.Remaining();
    if n * SIDECAR_ENTRY_LEN > remaining {
      return Err(Inconsistent("sidecar count exceeds payload"));
    }
    r := GetEntryList(c, n);
  }

  method GetEntryList(c: Cur, n: nat) returns (r: Result<seq<Entry>, FrameError>)
    requires c.Valid()
    modifies c
    ensures c.Valid() && Agrees(r, TakeEntries(old(c.Rest()), n), c.Rest())
  {
    hide FrameModel.TakeEntry;
    var table := [];
    ghost var all := TakeEntries(c.Rest(), n);
    PrependNone(all);
    for i := 0 to n
      invariant c.Valid() && all == Prepend(table, TakeEntries(c.Rest(), n - i))
    {
      var entry :- TakeEntry(c);
      PrependOne(table, entry, TakeEntries(c.Rest(), n - (i + 1)));
      table := table + [entry];
    }
    assert table + [] == table;
    return Ok(table);
  }

  method GetSidecars(c: Cur, table: seq<Entry>) returns (r: Result<seq<Sidecar>, FrameError>)
    requires c.Valid()
    modifies c
    ensures c.Valid() && Agrees(r, FrameModel.GetSidecars(old(c.Rest()), table), c.Rest())
  {
    hide FrameModel.Take;
    var out := [];
    ghost var all := FrameModel.GetSidecars(c.Rest(), table);
    PrependNone(all);
    assert table[0..] == table;
    for i := 0 to |table|
      invariant c.Valid() && all == Prepend(out, FrameModel.GetSidecars(c.Rest(), table[i..]))
    {
      assert table[i..][1..] == table[i + 1..];
      var bytes :- c.Take(table[i].len, "sidecar body");
      PrependOne(out, Sidecar(table[i].kind, bytes), FrameModel.GetSidecars(c.Rest(), table[i + 1..]));
      out := out + [Sidecar(table[i].kind, bytes)];
    }
    assert out + [] == out;
    return Ok(out);
  }

  // ------------------------------------------------------------ whole frames

  method GetStreamOpen(c: Cur) returns (r: Result<Frame, FrameError>)
    requires c.Valid()
    modifies c
    ensures c.Valid() && Agrees(r, FrameModel.GetStreamOpen(old(c.Rest())), c.Rest())
  {
    hide Take32, Take64, TakeId, FrameModel.Take, GetTable, FrameModel.GetSidecars;
    var origin :- c.Id("origin id");
    var sender :- c.Id("sender id");
    var first :- c.U64("first seq");
    var last :- c.U64("last seq");
    var m :- c.U32("mode");
    var mode :- ModeFrom(m);
    var n :- c.U32("provenance length");
    var table :- GetSidecarTable(c);
    var provenance :- c.Take(n, "provenance");
    var sidecars :- GetSidecars(c, table);
    return Ok(StreamOpen(origin, sender, first, last, mode, provenance, sidecars));
  }

  method SumOf(table: seq<Entry>) returns (total: nat)
    ensures total == TotalLen(table)
  {
    total := 0;
    for i := 0 to |table|
      invariant total + TotalLen(table[i..]) == TotalLen(table)
    {
      assert table[i..][1..] == table[i + 1..];
      total := total + table[i].len;
    }
  }

  method GetComp(c: Cur, bodies: nat, compLen: u64) returns (r: Result<Option<seq<byte>>, FrameError>)
    requires c.Valid()
    modifies c
    ensures c.Valid() && Agrees(r, FrameModel.GetComp(old(c.Rest()), bodies, compLen), c.Rest())
  {
    var remaining := c.Remaining();
    if remaining < bodies {
      return Err(Inconsistent("sidecar bodies exceed payload"));
    }
    var rest := remaining - bodies;
    if rest == 0 {
      return Ok(None);
    }
    if rest == compLen {
      var comp :- c.Take(rest, "chunk payload");
      return Ok(Some(comp));
    }
    return Err(Inconsistent("chunk payload is neither absent nor comp_len bytes"));
  }

  method GetChunk(c: Cur) returns (r: Result<Frame, FrameError>)
    requires c.Valid()
    modifies c
    ensures c.Valid() && Agrees(r, FrameModel.GetChunk(old(c.Rest())), c.Rest())
  {
    hide Take64, GetTable, FrameModel.GetSidecars, FrameModel.GetComp;
    var number :- c.U64("seq");
    var uncompLen :- c.U64("uncomp_len");
    var compLen :- c.U64("comp_len");
    var firstMs :- c.U64("first write");
    var lastMs :- c.U64("last write");
    var table :- GetSidecarTable(c);
    var bodies := SumOf(table);
    var comp :- GetComp(c, bodies, compLen);
    var sidecars :- GetSidecars(c, table);
    return Ok(Chunk(number, uncompLen, compLen, comp, firstMs, lastMs, sidecars));
  }

  method GetConflict(c: Cur) returns (r: Result<Frame, FrameError>)
    requires c.Valid()
    modifies c
    ensures c.Valid() && Agrees(r, FrameModel.GetConflict(old(c.Rest())), c.Rest())
  {
    hide Take32, TakeId, FrameModel.Take, FrameModel.GetRuns, Utf8;
    var holder :- c.Id("holder origin");
    var runs :- GetRuns(c);
    var n :- c.U32("reason length");
    var reason :- c.Take(n, "reason");
    if !Utf8(reason) {
      return Err(BadUtf8);
    }
    return Ok(Conflict(holder, runs, reason));
  }

  method GetFrame(kind: u32, payload: seq<byte>) returns (r: Result<Frame, FrameError>)
    ensures match FrameModel.GetFrame(kind, payload)
            case Bad(e) => r == Err(e)
            case Got(f, _) => r == Ok(f)
  {
    var c := new Cur(payload);
    hide FrameModel.GetStreamOpen, FrameModel.GetChunk, FrameModel.GetConflict, FrameModel.GetRuns, TakeId;
    if kind == 1 {
      r := GetStreamOpen(c);
    } else if kind == 2 {
      r := GetChunk(c);
    } else if kind == 3 {
      var runs :- GetRuns(c);
      r := Ok(CoverageOf(runs));
    } else if kind == 4 {
      var id :- c.Id("registration id");
      var runs :- GetRuns(c);
      r := Ok(Accepted(id, runs));
    } else if kind == 5 {
      r := GetConflict(c);
    } else if kind == 6 {
      r := Ok(StreamClose);
    } else {
      r := Ok(Unknown(kind, payload));
    }
  }

  /** One frame from the front of a buffer. */
  method Decode(buf: seq<byte>) returns (r: Decoded<Framed>)
    ensures r == FrameModel.Decode(buf)
  {
    if |buf| < FRAME_HEADER_LEN {
      return NeedMore;
    }
    var stream, kind, len := Get32(buf[0..4]), Get32(buf[4..8]), Get32(buf[8..12]);
    if len > MAX_PAYLOAD {
      return Malformed(TooLarge(len));
    }
    var total := FRAME_HEADER_LEN + len;
    if |buf| < total {
      return NeedMore;
    }
    hide FrameModel.GetFrame, Get32;
    var frame := GetFrame(kind, buf[FRAME_HEADER_LEN..total]);
    match frame {
      case Ok(f) => return Whole(Framed(stream, f), total);
      case Err(e) => return Malformed(e);
    }
  }
}
