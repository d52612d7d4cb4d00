/**
 * The index of a store (src/format.rs): a header that states its own length
 * and records of one stride after it, in two versions. Parsing and writing as
 * functions; `RingsFiles` holds the code that fills arrays and reads files.
 */
module RingsModel {
  import opened Common
  import opened LittleEndian

  const RINGS_MAGIC: seq<byte> := [82, 73, 78, 71, 48, 48, 48, 50]
  const RINGS_MAGIC_V1: seq<byte> := [82, 73, 78, 71, 48, 48, 48, 49]
  const RINGS_HEADER_LEN: u64 := 64
  const RINGS_HEADER_MIN: u64 := 32
  const RINGS_HEADER_LEN_V1: nat := 8
  const RECORD_LEN: nat := 56
  const RECORD_LEN_V1: nat := 48
  const STORE_ID_OFF: nat := 48

  const NO_ID: seq<byte> := [0, 0, 0, 0, 0, 0, 0, 0, 0, 0, 0, 0, 0, 0, 0, 0]

  type StoreId = b: seq<byte> | |b| == 16 witness NO_ID

  datatype ChunkRecord = ChunkRecord(
    uncompStart: u64, uncompLen: u64, compStart: u64, compLen: u64,
    firstWriteMs: u64, lastWriteMs: u64, number: u64)

  datatype Dropped = Dropped(uncompBytes: u64, compBytes: u64)

  datatype Version = V1 | V2
  {
    /** Where record `i` begins after the header. */
    function Offset(i: nat): nat {
      if V2? then RECORD_LEN * i else RECORD_LEN_V1 * i
    }

    /** How many whole records `len` bytes hold. */
    function Count(len: nat): nat {
      if V2? then len / RECORD_LEN else len / RECORD_LEN_V1
    }
  }

  datatype IndexError = BadMagic | ImpossibleHeader(declared: u64) | Unsupported(incompat: u64)

  datatype Layout = Layout(version: Version, header: nat)

  // ------------------------------------------------------------------ records

  function RecordBytes(r: ChunkRecord): (b: seq<byte>)
    ensures |b| == RECORD_LEN
  {
    Put64(r.uncompStart) + (Put64(r.uncompLen) + (Put64(r.compStart) + (Put64(r.compLen)
      + (Put64(r.firstWriteMs) + (Put64(r.lastWriteMs) + Put64(r.number))))))
  }

  function FromBytesV1(b: seq<byte>, number: u64): ChunkRecord
    requires |b| >= RECORD_LEN_V1
  {
    ChunkRecord(Get64(b[0..8]), Get64(b[8..16]), Get64(b[16..24]), Get64(b[24..32]),
                Get64(b[32..40]), Get64(b[40..48]), number)
  }

  function FromBytes(b: seq<byte>): ChunkRecord
    requires |b| == RECORD_LEN
  {
    FromBytesV1(b, Get64(b[48..56]))
  }

  /** An index as a chunk number. */
  function Low64(n: nat): u64 {
    n % 0x1_0000_0000_0000_0000
  }

  /** The record at place `i` of the index, in the bytes that hold it. */
  function Decoded(v: Version, b: seq<byte>, i: nat): ChunkRecord
    requires |b| == v.Offset(1)
  {
    if v.V2? then FromBytes(b) else FromBytesV1(b, Low64(i))
  }

  // ------------------------------------------------------------------- header

  function RingsHeader(nextSeq: u64, dropped: Dropped, id: Option<StoreId>): (h: seq<byte>)
    ensures |h| == RINGS_HEADER_LEN
  {
    RINGS_MAGIC + (Put64(RINGS_HEADER_LEN) + (Put64(0) + (Put64(nextSeq) + (Put64(dropped.uncompBytes)
      + (Put64(dropped.compBytes) + (if id.Some? then id.value else NO_ID))))))
  }

  /** The layout a file declares, from its first bytes and its whole length. */
  function IndexLayout(prefix: seq<byte>, total: nat): (r: Result<Layout, IndexError>)
    ensures r.Ok? ==> r.value.header <= Max(total, |prefix|)
  {
    if |prefix| < RINGS_HEADER_LEN_V1 then Err(BadMagic)
    else if prefix[..8] == RINGS_MAGIC then
      if |prefix| < RINGS_HEADER_MIN then Err(BadMagic)
      else
        var declared, incompat := Get64(prefix[8..16]), Get64(prefix[16..24]);
        if declared < RINGS_HEADER_MIN || declared > total then Err(ImpossibleHeader(declared))
        else if incompat != 0 then Err(Unsupported(incompat))
        else Ok(Layout(V2, declared))
    else if prefix[..8] == RINGS_MAGIC_V1 then Ok(Layout(V1, RINGS_HEADER_LEN_V1))
    else Err(BadMagic)
  }

  function HeaderNextSeq(buf: seq<byte>): u64 {
    if |buf| < RINGS_HEADER_MIN || buf[..8] != RINGS_MAGIC then 0 else Get64(buf[24..32])
  }

  function HeaderDropped(buf: seq<byte>): Dropped {
    if |buf| < 48 || buf[..8] != RINGS_MAGIC || Get64(buf[8..16]) < 48 then Dropped(0, 0)
    else Dropped(Get64(buf[32..40]), Get64(buf[40..48]))
  }

  function HeaderStoreId(buf: seq<byte>): Option<StoreId> {
    if |buf| < 64 || buf[..8] != RINGS_MAGIC || Get64(buf[8..16]) < 64 || buf[48..64] == NO_ID then None
    else Some(buf[48..64])
  }

  // ------------------------------------------------------------------ parsing

  /** Record `i` of an index whose records begin at `header`. */
  function RecordAt(buf: seq<byte>, v: Version, header: nat, i: nat): ChunkRecord
    requires header + v.Offset(i + 1) <= |buf|
  {
    Decoded(v, buf[header + v.Offset(i)..header + v.Offset(i + 1)], i)
  }

  function RecordsFrom(buf: seq<byte>, v: Version, header: nat, i: nat, n: nat): (rs: seq<ChunkRecord>)
    requires i <= n && header + v.Offset(n) <= |buf|
    ensures |rs| == n - i
    ensures forall k :: 0 <= k < n - i ==> rs[k] == RecordAt(buf, v, header, i + k)
  {
    if i == n then [] else RecordsFrom(buf, v, header, i, n - 1) + [RecordAt(buf, v, header, n - 1)]
  }

  lemma CountFits(v: Version, len: nat)
    ensures v.Offset(v.Count(len)) <= len < v.Offset(v.Count(len) + 1)
  {
  }

  datatype Index = Index(records: seq<ChunkRecord>, version: Version)

  /** The whole index. A record that is not all there is left out. */
  function Parse(buf: seq<byte>): Result<Index, IndexError> {
    var layout := IndexLayout(buf, |buf|);
    if layout.Err? then Err(layout.error)
    else
      var v, header := layout.value.version, layout.value.header;
      CountFits(v, |buf| - header);
      Ok(Index(RecordsFrom(buf, v, header, 0, v.Count(|buf| - header)), v))
  }

  /** The first eight bytes say which version it is, if any. */
  predicate Starts(buf: seq<byte>, magic: seq<byte>) {
    |buf| >= 8 && buf[..8] == magic
  }

  /**
   * An index is read if and only if it is of the first version, or of the
   * second with a header of at least 32 bytes that it holds, and needs no
   * feature this build lacks; its records begin after the eight bytes, or the
   * header it declares.
   */
  lemma LayoutIs(buf: seq<byte>)
    ensures var l := IndexLayout(buf, |buf|);
            && (l.Ok? <==> || Starts(buf, [82, 73, 78, 71, 48, 48, 48, 49])
                           || (&& Starts(buf, [82, 73, 78, 71, 48, 48, 48, 50]) && |buf| >= 32
                               && 32 <= Get64(buf[8..16]) <= |buf| && Get64(buf[16..24]) == 0))
            && (l.Ok? && Starts(buf, [82, 73, 78, 71, 48, 48, 48, 49]) ==> l.value == Layout(V1, 8))
            && (l.Ok? && Starts(buf, [82, 73, 78, 71, 48, 48, 48, 50]) ==> l.value == Layout(V2, Get64(buf[8..16])))
            && (l.Err? && Starts(buf, [82, 73, 78, 71, 48, 48, 48, 50]) && |buf| >= 32 ==>
                  l.error == if 32 <= Get64(buf[8..16]) <= |buf| then Unsupported(Get64(buf[16..24]))
                             else ImpossibleHeader(Get64(buf[8..16])))
  {
    hide Get64;
  }

  /** The records are as many as there is room for, one stride after another; those of the first version bear their place. */
  lemma ParsedAre(buf: seq<byte>, k: nat)
    requires Parse(buf).Ok? && k < |Parse(buf).value.records|
    ensures var i := Parse(buf).value;
            var header := IndexLayout(buf, |buf|).value.header;
            var stride := if i.version.V2? then 56 else 48;
            && header + stride * |i.records| <= |buf| < header + stride * (|i.records| + 1)
            && var at := header + stride * k;
               i.records[k] == if i.version.V2? then FromBytes(buf[at..at + 56])
                               else FromBytesV1(buf[at..at + 48], Low64(k))
  {
    hide IndexLayout, FromBytes, FromBytesV1;
  }

  // ----------------------------------------------------- written and read back

  lemma Get64Part(b: seq<byte>, from: nat, v: u64, rest: seq<byte>)
    requires from <= |b| && b[from..] == Put64(v) + rest
    ensures from + 8 <= |b| && Get64(b[from..from + 8]) == v && b[from + 8..] == rest
  {
    Get64Put64(v);
    assert b[from..from + 8] == b[from..][..8];
    assert b[from + 8..] == b[from..][8..];
  }

  lemma RecordBack(r: ChunkRecord)
    ensures FromBytes(RecordBytes(r)) == r
  {
    hide Put64, Get64;
    var b := RecordBytes(r);
    var b6 := Put64(r.number);
    var b5 := Put64(r.lastWriteMs) + b6;
    var b4 := Put64(r.firstWriteMs) + b5;
    var b3 := Put64(r.compLen) + b4;
    var b2 := Put64(r.compStart) + b3;
    var b1 := Put64(r.uncompLen) + b2;
    assert b[0..] == Put64(r.uncompStart) + b1;
    Get64Part(b, 0, r.uncompStart, b1);
    Get64Part(b, 8, r.uncompLen, b2);
    Get64Part(b, 16, r.compStart, b3);
    Get64Part(b, 24, r.compLen, b4);
    Get64Part(b, 32, r.firstWriteMs, b5);
    Get64Part(b, 40, r.lastWriteMs, b6);
    assert b6 == Put64(r.number) + [];
    Get64Part(b, 48, r.number, []);
  }

  /** Where a record's fields lie. */
  lemma RecordLayout(r: ChunkRecord)
    ensures var b := RecordBytes(r);
            && b[0..8] == Put64(r.uncompStart) && b[8..16] == Put64(r.uncompLen)
            && b[16..24] == Put64(r.compStart) && b[24..32] == Put64(r.compLen)
            && b[32..40] == Put64(r.firstWriteMs) && b[40..48] == Put64(r.lastWriteMs)
            && b[48..56] == Put64(r.number)
  {
    hide Put64;
  }

  /** And a header's. */
  lemma HeaderLayout(nextSeq: u64, dropped: Dropped, id: Option<StoreId>)
    ensures var h := RingsHeader(nextSeq, dropped, id);
            && h[0..8] == [82, 73, 78, 71, 48, 48, 48, 50] && h[8..16] == Put64(64) && h[16..24] == Put64(0)
            && h[24..32] == Put64(nextSeq) && h[32..40] == Put64(dropped.uncompBytes)
            && h[40..48] == Put64(dropped.compBytes) && (id.Some? ==> h[48..64] == id.value)
  {
    hide Put64;
  }

  /** A header that declares `declared` bytes, whatever follows. */
  function Declaring(declared: u64, nextSeq: u64, dropped: Dropped, id: StoreId, rest: seq<byte>): seq<byte> {
    RINGS_MAGIC + (Put64(declared) + (Put64(0) + (Put64(nextSeq) + (Put64(dropped.uncompBytes)
      + (Put64(dropped.compBytes) + (id + rest))))))
  }

  /** Fields a header is too short for, or declares itself too short for, are not read from what lies there. */
  lemma ShortHeaders(declared: u64, nextSeq: u64, dropped: Dropped, id: StoreId, rest: seq<byte>, n: nat)
    requires n <= 64 + |rest|
    ensures |Declaring(declared, nextSeq, dropped, id, rest)| == 64 + |rest|
    ensures var b := Declaring(declared, nextSeq, dropped, id, rest)[..n];
            && HeaderNextSeq(b) == (if n >= 32 then nextSeq else 0)
            && HeaderDropped(b) == (if n >= 48 && declared >= 48 then dropped else Dropped(0, 0))
            && HeaderStoreId(b) == if n >= 64 && declared >= 64 && id != NO_ID then Some(id) else None
  {
    hide Put64, Get64;
    var h := Declaring(declared, nextSeq, dropped, id, rest);
    var b6 := id + rest;
    var b5 := Put64(dropped.compBytes) + b6;
    var b4 := Put64(dropped.uncompBytes) + b5;
    var b3 := Put64(nextSeq) + b4;
    var b2 := Put64(0) + b3;
    assert h[8..] == Put64(declared) + b2;
    Get64Part(h, 8, declared, b2);
    Get64Part(h, 16, 0, b3);
    Get64Part(h, 24, nextSeq, b4);
    Get64Part(h, 32, dropped.uncompBytes, b5);
    Get64Part(h, 40, dropped.compBytes, b6);
    assert h[48..64] == h[48..][..16] == id;
    var b := h[..n];
    assert n >= 8 ==> b[..8] == h[..8];
    assert n >= 16 ==> b[8..16] == h[8..16];
    assert n >= 32 ==> b[24..32] == h[24..32];
    assert n >= 48 ==> b[32..40] == h[32..40] && b[40..48] == h[40..48];
    assert n >= 64 ==> b[48..64] == h[48..64];
  }

  /** What is not an index of the second version has none of these fields. */
  lemma OthersSayNothing(buf: seq<byte>)
    requires !Starts(buf, [82, 73, 78, 71, 48, 48, 48, 50])
    ensures HeaderNextSeq(buf) == 0 && HeaderDropped(buf) == Dropped(0, 0) && HeaderStoreId(buf) == None
  {
    hide Get64;
  }

  /** A header says what it was written to say, whatever follows it. */
  lemma HeaderBack(nextSeq: u64, dropped: Dropped, id: Option<StoreId>, rest: seq<byte>)
    ensures var b := RingsHeader(nextSeq, dropped, id) + rest;
            && IndexLayout(b, |b|) == Ok(Layout(V2, RINGS_HEADER_LEN))
            && HeaderNextSeq(b) == nextSeq && HeaderDropped(b) == dropped
            && HeaderStoreId(b) == if id == Some(NO_ID) then None else id
  {
    hide Put64, Get64;
    var b := RingsHeader(nextSeq, dropped, id) + rest;
    var b6 := (if id.Some? then id.value else NO_ID) + rest;
    var b5 := Put64(dropped.compBytes) + b6;
    var b4 := Put64(dropped.uncompBytes) + b5;
    var b3 := Put64(nextSeq) + b4;
    var b2 := Put64(0) + b3;
    var b1 := Put64(RINGS_HEADER_LEN) + b2;
    assert b == RINGS_MAGIC + b1;
    assert b[..8] == RINGS_MAGIC && b[8..] == b1;
    Get64Part(b, 8, RINGS_HEADER_LEN, b2);
    Get64Part(b, 16, 0, b3);
    Get64Part(b, 24, nextSeq, b4);
    Get64Part(b, 32, dropped.uncompBytes, b5);
    Get64Part(b, 40, dropped.compBytes, b6);
    assert b[48..64] == b[48..][..16] == b6[..16];
    assert b6[..16] == if id.Some? then id.value else NO_ID;
  }

  function AllBytes(rs: seq<ChunkRecord>): seq<byte> {
    if rs == [] then [] else AllBytes(Front(rs)) + RecordBytes(Last(rs))
  }

  lemma {:induction false} AllBytesAt(rs: seq<ChunkRecord>, i: nat)
    requires i < |rs|
    ensures |AllBytes(rs)| == RECORD_LEN * |rs|
    ensures AllBytes(rs)[RECORD_LEN * i..RECORD_LEN * (i + 1)] == RecordBytes(rs[i])
  {
    var f := Front(rs);
    if |rs| > 1 {
      AllBytesAt(f, if i < |f| then i else 0);
    }
    if i < |f| {
      assert AllBytes(rs)[RECORD_LEN * i..RECORD_LEN * (i + 1)] == AllBytes(f)[RECORD_LEN * i..RECORD_LEN * (i + 1)];
    } else {
      assert AllBytes(rs)[RECORD_LEN * i..RECORD_LEN * (i + 1)] == RecordBytes(rs[i]);
    }
  }

  /** A written record, in the file it was written to. */
  lemma WrittenRecord(header: seq<byte>, rs: seq<ChunkRecord>, partial: seq<byte>, i: nat)
    requires i < |rs|
    ensures var buf := header + (AllBytes(rs) + partial);
            |header| + V2.Offset(i + 1) <= |buf| && RecordAt(buf, V2, |header|, i) == rs[i]
  {
    hide RecordBytes, FromBytes, AllBytes;
    AllBytesAt(rs, i);
    RecordBack(rs[i]);
    var from, to := RECORD_LEN * i, RECORD_LEN * (i + 1);
    RecordIn(header, AllBytes(rs), partial, from, to);
  }

  lemma RecordsAre(buf: seq<byte>, v: Version, header: nat, rs: seq<ChunkRecord>)
    requires header + v.Offset(|rs|) <= |buf|
    requires forall i :: 0 <= i < |rs| ==> RecordAt(buf, v, header, i) == rs[i]
    ensures RecordsFrom(buf, v, header, 0, |rs|) == rs
  {
    hide RecordAt;
  }

  /** What is written reads back, with or without the beginning of another record after it. */
  lemma WrittenReadsBack(nextSeq: u64, dropped: Dropped, id: Option<StoreId>, rs: seq<ChunkRecord>, partial: seq<byte>)
    requires |partial| < RECORD_LEN
    ensures Parse(RingsHeader(nextSeq, dropped, id) + (AllBytes(rs) + partial)) == Ok(Index(rs, V2))
  {
    hide RingsHeader, IndexLayout, RecordAt, AllBytes, RecordsFrom;
    var header, body := RingsHeader(nextSeq, dropped, id), AllBytes(rs) + partial;
    HeaderBack(nextSeq, dropped, id, body);
    AllBytesLen(rs);
    var buf := header + body;
    forall i | 0 <= i < |rs|
      ensures |header| + V2.Offset(i + 1) <= |buf| && RecordAt(buf, V2, |header|, i) == rs[i]
    {
      WrittenRecord(header, rs, partial, i);
    }
    RecordsAre(buf, V2, |header|, rs);
    assert V2.Count(|buf| - 64) == |rs|;
  }

  lemma AllBytesLen(rs: seq<ChunkRecord>)
    ensures |AllBytes(rs)| == RECORD_LEN * |rs|
  {
    if rs != [] {
      AllBytesAt(rs, 0);
    }
  }

  lemma RecordIn(header: seq<byte>, all: seq<byte>, partial: seq<byte>, i: nat, j: nat)
    requires i <= j <= |all|
    ensures (header + (all + partial))[|header| + i..|header| + j] == all[i..j]
  {
  }
}
