/**
 * The replication wire (src/frame.rs): a hello, then frames that each carry
 * a stream, a kind and their own length. Encoding and decoding as functions;
 * `FrameCodec` holds the code that fills a buffer and walks one.
 */
module FrameModel {
  import opened Common
  import opened LittleEndian

  const MAGIC: seq<byte> := [84, 73, 77, 66, 83, 84, 82, 49]
  const VERSION: u32 := 1
  const HELLO_LEN: nat := 16
  const FRAME_HEADER_LEN: nat := 12
  const SIDECAR_ENTRY_LEN: nat := 12
  const RUN_LEN: nat := 16
  const MAX_PAYLOAD: nat := 64 * 0x10_0000

  type Uuid = b: seq<byte> | |b| == 16 witness seq(16, i => 0)
  type Tag = b: seq<byte> | |b| == 8 witness seq(8, i => 0)

  // ------------------------------------------------------------------ UTF-8

  predicate Between(b: byte, lo: nat, hi: nat) {
    lo <= b <= hi
  }

  predicate Tails(b: seq<byte>, n: nat) {
    n <= |b| && forall i :: 1 <= i < n ==> Between(b[i], 0x80, 0xBF)
  }

  /** The length of the first character, zero if there is none (RFC 3629, section 4). */
  function CharLen(b: seq<byte>): (n: nat)
    ensures n <= |b|
  {
    if b == [] then 0
    else if b[0] < 0x80 then 1
    else if Between(b[0], 0xC2, 0xDF) then if Tails(b, 2) then 2 else 0
    else if Between(b[0], 0xE0, 0xEF) then
      if Tails(b, 3) && (b[0] == 0xE0 ==> b[1] >= 0xA0) && (b[0] == 0xED ==> b[1] <= 0x9F) then 3 else 0
    else if Between(b[0], 0xF0, 0xF4) then
      if Tails(b, 4) && (b[0] == 0xF0 ==> b[1] >= 0x90) && (b[0] == 0xF4 ==> b[1] <= 0x8F) then 4 else 0
    else 0
  }

  predicate Utf8(b: seq<byte>) {
    b == [] || (CharLen(b) > 0 && Utf8(b[CharLen(b)..]))
  }

  /** A Unicode scalar value (RFC 3629, section 3). */
  predicate Scalar(c: nat) {
    c < 0xD800 || 0xE000 <= c <= 0x10FFFF
  }

  function Encoded(c: nat): seq<byte>
    requires Scalar(c)
  {
    if c < 0x80 then [c]
    else if c < 0x800 then [0xC0 + c / 0x40, 0x80 + c % 0x40]
    else if c < 0x1_0000 then [0xE0 + c / 0x1000, 0x80 + c / 0x40 % 0x40, 0x80 + c % 0x40]
    else [0xF0 + c / 0x4_0000, 0x80 + c / 0x1000 % 0x40, 0x80 + c / 0x40 % 0x40, 0x80 + c % 0x40]
  }

  /** Every encoded character is taken for one ... */
  lemma CharIsTaken(c: nat, rest: seq<byte>)
    requires Scalar(c)
    ensures CharLen(Encoded(c) + rest) == |Encoded(c)|
  {
    var e := Encoded(c);
    var b := e + rest;
    assert forall i :: 0 <= i < |e| ==> b[i] == e[i];
    hide Encoded;
    EncodedBytes(c, e);
  }

  lemma EncodedBytes(c: nat, e: seq<byte>)
    requires Scalar(c) && e == Encoded(c)
    ensures 1 <= |e| <= 4 && forall i :: 1 <= i < |e| ==> Between(e[i], 0x80, 0xBF)
    ensures |e| == 1 ==> e[0] < 0x80
    ensures |e| == 2 ==> Between(e[0], 0xC2, 0xDF)
    ensures |e| == 3 ==> Between(e[0], 0xE0, 0xEF) && (e[0] == 0xE0 ==> e[1] >= 0xA0) && (e[0] == 0xED ==> e[1] <= 0x9F)
    ensures |e| == 4 ==> Between(e[0], 0xF0, 0xF4) && (e[0] == 0xF0 ==> e[1] >= 0x90) && (e[0] == 0xF4 ==> e[1] <= 0x8F)
  {
  }

  // The bits of a character, by how many bytes it takes.

  lemma TwoBytes(x: int, y: int)
    requires 2 <= x < 0x20 && 0 <= y < 0x40
    ensures Encoded(x * 0x40 + y) == [0xC0 + x, 0x80 + y]
  {
  }

  lemma ThreeBytes(x: int, y: int, z: int)
    requires 0 <= x < 0x10 && 0 <= y < 0x40 && 0 <= z < 0x40
    requires (x == 0 ==> y >= 0x20) && (x == 0xD ==> y < 0x20)
    ensures Scalar(x * 0x1000 + y * 0x40 + z)
    ensures Encoded(x * 0x1000 + y * 0x40 + z) == [0xE0 + x, 0x80 + y, 0x80 + z]
  {
    var c := x * 0x1000 + y * 0x40 + z;
    assert c / 0x40 == x * 0x40 + y && c / 0x1000 == x;
  }

  lemma {:induction false} FourBytes(x: int, y: int, z: int, w: int)
    requires 0 <= x < 5 && 0 <= y < 0x40 && 0 <= z < 0x40 && 0 <= w < 0x40
    requires (x == 0 ==> y >= 0x10) && (x == 4 ==> y < 0x10)
    ensures Scalar(x * 0x4_0000 + y * 0x1000 + z * 0x40 + w)
    ensures Encoded(x * 0x4_0000 + y * 0x1000 + z * 0x40 + w) == [0xF0 + x, 0x80 + y, 0x80 + z, 0x80 + w]
  {
    var c := x * 0x4_0000 + y * 0x1000 + z * 0x40 + w;
    assert c / 0x40 == x * 0x1000 + y * 0x40 + z && c / 0x1000 == x * 0x40 + y && c / 0x4_0000 == x;
  }

  /** ... and nothing else is: what is taken is the encoding of a character. */
  lemma TakenIsChar(b: seq<byte>) returns (c: nat)
    requires CharLen(b) > 0
    ensures Scalar(c) && b[..CharLen(b)] == Encoded(c)
  {
    var n, x := CharLen(b), b[0] as int;
    if n == 1 {
      c := x;
    } else if n == 2 {
      var y := b[1] as int - 0x80;
      c := (x - 0xC0) * 0x40 + y;
      TwoBytes(x - 0xC0, y);
    } else if n == 3 {
      var y, z := b[1] as int - 0x80, b[2] as int - 0x80;
      c := (x - 0xE0) * 0x1000 + y * 0x40 + z;
      ThreeBytes(x - 0xE0, y, z);
    } else {
      var y, z, w := b[1] as int - 0x80, b[2] as int - 0x80, b[3] as int - 0x80;
      c := (x - 0xF0) * 0x4_0000 + y * 0x1000 + z * 0x40 + w;
      FourBytes(x - 0xF0, y, z, w);
    }
    hide Encoded;
  }

  // ------------------------------------------------------------------ frames

  datatype Mode = Coverage | Index | Frames
  {
    function Wire(): u32 {
      match this
      case Coverage => 1
      case Index => 2
      case Frames => 3
    }
  }

  datatype Run = Run(start: u64, end: u64)

  datatype Sidecar = Sidecar(kind: Tag, bytes: seq<byte>)

  datatype Frame =
    | StreamOpen(originId: Uuid, senderId: Uuid, firstSeq: u64, lastSeq: u64, mode: Mode,
                 provenance: seq<byte>, sidecars: seq<Sidecar>)
    | Chunk(number: u64, uncompLen: u64, compLen: u64, comp: Option<seq<byte>>,
            firstWriteMs: u64, lastWriteMs: u64, sidecars: seq<Sidecar>)
    | CoverageOf(runs: seq<Run>)
    | Accepted(registrationId: Uuid, runs: seq<Run>)
    | Conflict(holderOrigin: Uuid, runs: seq<Run>, reason: seq<byte>)
    | StreamClose
    | Unknown(kind: u32, payload: seq<byte>)
  {
    function WireKind(): u32 {
      match this
      case StreamOpen(_, _, _, _, _, _, _) => 1
      case Chunk(_, _, _, _, _, _, _) => 2
      case CoverageOf(_) => 3
      case Accepted(_, _) => 4
      case Conflict(_, _, _) => 5
      case StreamClose => 6
      case Unknown(kind, _) => kind
    }
  }

  datatype Framed = Framed(stream: u32, frame: Frame)

  datatype Hello = Hello(version: u32, incompat: u32)

  datatype FrameError =
    | BadMagic
    | BadVersion(version: u32)
    | Incompatible(bits: u32)
    | TooLarge(len: u32)
    | BadMode(mode: u32)
    | Inconsistent(what: string)
    | BadUtf8

  // ---------------------------------------------------------------- encoding

  /** What each of `xs` is written as, one after another. */
  function Each<T>(f: T -> seq<byte>, xs: seq<T>): seq<byte> {
    if xs == [] then [] else f(xs[0]) + Each(f, xs[1..])
  }

  function RunBytes(r: Run): (b: seq<byte>)
    ensures |b| == RUN_LEN
  {
    Put64(r.start) + Put64(r.end)
  }

  function EntryBytes(s: Sidecar): (b: seq<byte>)
    ensures |b| == SIDECAR_ENTRY_LEN
  {
    s.kind + Put32(Low32(|s.bytes|))
  }

  function BodyBytes(s: Sidecar): seq<byte> {
    s.bytes
  }

  function PutRuns(runs: seq<Run>): seq<byte> {
    Put32(Low32(|runs|)) + Each(RunBytes, runs)
  }

  function PutTable(sidecars: seq<Sidecar>): seq<byte> {
    Put32(Low32(|sidecars|)) + Each(EntryBytes, sidecars)
  }

  function PutBodies(sidecars: seq<Sidecar>): seq<byte> {
    Each(BodyBytes, sidecars)
  }

  function PayloadOf(f: Frame): seq<byte> {
    match f
    case StreamOpen(origin, sender, first, last, mode, provenance, sidecars) =>
      origin + (sender + (Put64(first) + (Put64(last) + (Put32(mode.Wire()) + (Put32(Low32(|provenance|))
        + (PutTable(sidecars) + (provenance + PutBodies(sidecars))))))))
    case Chunk(number, uncompLen, compLen, comp, firstMs, lastMs, sidecars) =>
      Put64(number) + (Put64(uncompLen) + (Put64(compLen) + (Put64(firstMs) + (Put64(lastMs)
        + (PutTable(sidecars) + ((if comp.Some? then comp.value else []) + PutBodies(sidecars)))))))
    case CoverageOf(runs) => PutRuns(runs)
    case Accepted(id, runs) => id + PutRuns(runs)
    case Conflict(holder, runs, reason) =>
      holder + (PutRuns(runs) + (Put32(Low32(|reason|)) + reason))
    case StreamClose => []
    case Unknown(_, payload) => payload
  }

  function Encode(f: Framed): seq<byte> {
    var payload := PayloadOf(f.frame);
    Put32(f.stream) + (Put32(f.frame.WireKind()) + (Put32(Low32(|payload|)) + payload))
  }

  function EncodeHello(h: Hello): seq<byte> {
    MAGIC + (Put32(h.version) + Put32(h.incompat))
  }

  // ---------------------------------------------------------------- decoding

  /** A value read off the front of a payload, and what is left. */
  datatype Got<+T> = Got(value: T, rest: seq<byte>) | Bad(error: FrameError)

  function Take(b: seq<byte>, n: nat, what: string): Got<seq<byte>> {
    if n <= |b| then Got(b[..n], b[n..]) else Bad(Inconsistent(what))
  }

  function Take32(b: seq<byte>, what: string): Got<u32> {
    if 4 <= |b| then Got(Get32(b[..4]), b[4..]) else Bad(Inconsistent(what))
  }

  function Take64(b: seq<byte>, what: string): Got<u64> {
    if 8 <= |b| then Got(Get64(b[..8]), b[8..]) else Bad(Inconsistent(what))
  }

  function TakeId(b: seq<byte>, what: string): Got<Uuid> {
    if 16 <= |b| then Got(b[..16], b[16..]) else Bad(Inconsistent(what))
  }

  function TakeTag(b: seq<byte>, what: string): Got<Tag> {
    if 8 <= |b| then Got(b[..8], b[8..]) else Bad(Inconsistent(what))
  }

  function ModeFrom(v: u32): Result<Mode, FrameError> {
    if v == 1 then Ok(Coverage) else if v == 2 then Ok(Index) else if v == 3 then Ok(Frames) else Err(BadMode(v))
  }

  function TakeRun(b: seq<byte>): Got<Run> {
    match Take64(b, "run start")
    case Bad(e) => Bad(e)
    case Got(start, b) =>
      match Take64(b, "run end")
      case Bad(e) => Bad(e)
      case Got(end, b) =>
        if end < start then Bad(Inconsistent("run ends before it starts")) else Got(Run(start, end), b)
  }

  function TakeRuns(b: seq<byte>, n: nat): Got<seq<Run>> {
    if n == 0 then Got([], b)
    else
      match TakeRun(b)
      case Bad(e) => Bad(e)
      case Got(r, b) =>
        match TakeRuns(b, n - 1)
        case Bad(e) => Bad(e)
        case Got(rs, b) => Got([r] + rs, b)
  }

  function GetRuns(b: seq<byte>): Got<seq<Run>> {
    match Take32(b, "run count")
    case Bad(e) => Bad(e)
    case Got(n, b) =>
      if n * RUN_LEN > |b| then Bad(Inconsistent("run count exceeds payload")) else TakeRuns(b, n)
  }

  datatype Entry = Entry(kind: Tag, len: nat)

  function TakeEntry(b: seq<byte>): Got<Entry> {
    match TakeTag(b, "sidecar kind")
    case Bad(e) => Bad(e)
    case Got(kind, b) =>
      match Take32(b, "sidecar length")
      case Bad(e) => Bad(e)
      case Got(len, b) => Got(Entry(kind, len), b)
  }

  function TakeEntries(b: seq<byte>, n: nat): Got<seq<Entry>> {
    if n == 0 then Got([], b)
    else
      match TakeEntry(b)
      case Bad(e) => Bad(e)
      case Got(x, b) =>
        match TakeEntries(b, n - 1)
        case Bad(e) => Bad(e)
        case Got(xs, b) => Got([x] + xs, b)
  }

  function GetTable(b: seq<byte>): Got<seq<Entry>> {
    match Take32(b, "sidecar count")
    case Bad(e) => Bad(e)
    case Got(n, b) =>
      if n * SIDECAR_ENTRY_LEN > |b| then Bad(Inconsistent("sidecar count exceeds payload")) else TakeEntries(b, n)
  }

  function GetSidecars(b: seq<byte>, table: seq<Entry>): Got<seq<Sidecar>> {
    if table == [] then Got([], b)
    else
      match Take(b, table[0].len, "sidecar body")
      case Bad(e) => Bad(e)
      case Got(bytes, b) =>
        match GetSidecars(b, table[1..])
        case Bad(e) => Bad(e)
        case Got(xs, b) => Got([Sidecar(table[0].kind, bytes)] + xs, b)
  }

  function TotalLen(table: seq<Entry>): nat {
    if table == [] then 0 else table[0].len + TotalLen(table[1..])
  }

  function GetStreamOpen(b: seq<byte>): Got<Frame> {
    match TakeId(b, "origin id")
    case Bad(e) => Bad(e)
    case Got(origin, b) =>
    match TakeId(b, "sender id")
    case Bad(e) => Bad(e)
    case Got(sender, b) =>
    match Take64(b, "first seq")
    case Bad(e) => Bad(e)
    case Got(first, b) =>
    match Take64(b, "last seq")
    case Bad(e) => Bad(e)
    case Got(last, b) =>
    match Take32(b, "mode")
    case Bad(e) => Bad(e)
    case Got(m, b) =>
    match ModeFrom(m)
    case Err(e) => Bad(e)
    case Ok(mode) =>
    match Take32(b, "provenance length")
    case Bad(e) => Bad(e)
    case Got(n, b) => GetOpenTail(origin, sender, first, last, mode, n, b)
  }

  function GetOpenTail(origin: Uuid, sender: Uuid, first: u64, last: u64, mode: Mode, n: nat, b: seq<byte>): Got<Frame> {
    match GetTable(b)
    case Bad(e) => Bad(e)
    case Got(table, b) =>
    match Take(b, n, "provenance")
    case Bad(e) => Bad(e)
    case Got(provenance, b) =>
    match GetSidecars(b, table)
    case Bad(e) => Bad(e)
    case Got(sidecars, b) => Got(StreamOpen(origin, sender, first, last, mode, provenance, sidecars), b)
  }

  function GetChunk(b: seq<byte>): Got<Frame> {
    match Take64(b, "seq")
    case Bad(e) => Bad(e)
    case Got(number, b) =>
    match Take64(b, "uncomp_len")
    case Bad(e) => Bad(e)
    case Got(uncompLen, b) =>
    match Take64(b, "comp_len")
    case Bad(e) => Bad(e)
    case Got(compLen, b) =>
    match Take64(b, "first write")
    case Bad(e) => Bad(e)
    case Got(firstMs, b) =>
    match Take64(b, "last write")
    case Bad(e) => Bad(e)
    case Got(lastMs, b) => GetChunkTail(number, uncompLen, compLen, firstMs, lastMs, b)
  }

  /** The bytes came along or they did not: what is left is the whole chunk or nothing. */
  function GetComp(b: seq<byte>, bodies: nat, compLen: u64): Got<Option<seq<byte>>> {
    if |b| < bodies then Bad(Inconsistent("sidecar bodies exceed payload"))
    else
      var n := |b| - bodies;
      if n == 0 then Got(None, b)
      else if n == compLen then Got(Some(b[..n]), b[n..])
      else Bad(Inconsistent("chunk payload is neither absent nor comp_len bytes"))
  }

  function GetChunkTail(number: u64, uncompLen: u64, compLen: u64, firstMs: u64, lastMs: u64, b: seq<byte>): Got<Frame> {
    match GetTable(b)
    case Bad(e) => Bad(e)
    case Got(table, b) =>
    match GetComp(b, TotalLen(table), compLen)
    case Bad(e) => Bad(e)
    case Got(comp, b) =>
    match GetSidecars(b, table)
    case Bad(e) => Bad(e)
    case Got(sidecars, b) => Got(Chunk(number, uncompLen, compLen, comp, firstMs, lastMs, sidecars), b)
  }

  function GetConflict(b: seq<byte>): Got<Frame> {
    match TakeId(b, "holder origin")
    case Bad(e) => Bad(e)
    case Got(holder, b) =>
    match GetRuns(b)
    case Bad(e) => Bad(e)
    case Got(runs, b) =>
    match Take32(b, "reason length")
    case Bad(e) => Bad(e)
    case Got(n, b) =>
    match Take(b, n, "reason")
    case Bad(e) => Bad(e)
    case Got(reason, b) => if Utf8(reason) then Got(Conflict(holder, runs, reason), b) else Bad(BadUtf8)
  }

  function GetAccepted(b: seq<byte>): Got<Frame> {
    match TakeId(b, "registration id")
    case Bad(e) => Bad(e)
    case Got(id, b) =>
    match GetRuns(b)
    case Bad(e) => Bad(e)
    case Got(runs, b) => Got(Accepted(id, runs), b)
  }

  function GetFrame(kind: u32, b: seq<byte>): Got<Frame> {
    if kind == 1 then GetStreamOpen(b)
    else if kind == 2 then GetChunk(b)
    else if kind == 3 then
      match GetRuns(b)
      case Bad(e) => Bad(e)
      case Got(runs, b) => Got(CoverageOf(runs), b)
    else if kind == 4 then GetAccepted(b)
    else if kind == 5 then GetConflict(b)
    else if kind == 6 then Got(StreamClose, b)
    else Got(Unknown(kind, b), [])
  }

  /** More bytes are needed, or a frame of `len` bytes, or the stream is malformed for good. */
  datatype Decoded<+T> = NeedMore | Whole(value: T, len: nat) | Malformed(error: FrameError)

  function Decode(buf: seq<byte>): Decoded<Framed> {
    if |buf| < FRAME_HEADER_LEN then NeedMore
    else
      var stream, kind, len := Get32(buf[0..4]), Get32(buf[4..8]), Get32(buf[8..12]);
      var total := FRAME_HEADER_LEN + len;
      if len > MAX_PAYLOAD then Malformed(TooLarge(len))
      else if |buf| < total then NeedMore
      else
        match GetFrame(kind, buf[FRAME_HEADER_LEN..total])
        case Bad(e) => Malformed(e)
        case Got(frame, _) => Whole(Framed(stream, frame), total)
  }

  function DecodeHello(buf: seq<byte>): Decoded<Hello> {
    if |buf| < HELLO_LEN then NeedMore
    else if buf[..8] != MAGIC then Malformed(BadMagic)
    else
      var version, incompat := Get32(buf[8..12]), Get32(buf[12..16]);
      if version != VERSION then Malformed(BadVersion(version))
      else if incompat != 0 then Malformed(Incompatible(incompat))
      else Whole(Hello(version, incompat), HELLO_LEN)
  }
}
