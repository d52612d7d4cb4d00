/**
 * The index as the source fills and reads it: arrays filled field by field, a
 * loop that parses every record, and the reads that seek to the end of a long
 * index. The fast ones are proved to agree with the full parse, errors
 * included, and a file cut short to lose records only from its end.
 */
module RingsFiles {
  import opened Common
  import opened LittleEndian
  import opened RingsModel

  // --------------------------------------------------------- filling an array

  method CopyInto(b: array<byte>, at: nat, bytes: seq<byte>)
    requires at + |bytes| <= b.Length
    modifies b
    ensures b[..] == old(b[..at]) + bytes + old(b[at + |bytes|..])
  {
    for i := 0 to |bytes|
      invariant b[..at] == old(b[..at])
      invariant b[at..at + i] == bytes[..i]
      invariant b[at + i..] == old(b[at + i..])
    {
      b[at + i] := bytes[i];
    }
    assert b[..] == b[..at] + b[at..at + |bytes|] + b[at + |bytes|..];
  }

  /** A field at the end of what has been filled; the rest is still zero. */
  method FillNext(b: array<byte>, at: nat, bytes: seq<byte>)
    requires at + |bytes| <= b.Length && Blank(b, at)
    modifies b
    ensures b[..at + |bytes|] == old(b[..at]) + bytes
    ensures Blank(b, at + |bytes|)
  {
    CopyInto(b, at, bytes);
    assert forall i :: at + |bytes| <= i < b.Length ==> b[i] == old(b[at + |bytes|..])[i - at - |bytes|];
  }

  predicate Blank(b: array<byte>, from: nat)
    reads b
  {
    forall i :: from <= i < b.Length ==> b[i] == 0
  }

  method ToBytes(r: ChunkRecord) returns (b: array<byte>)
    ensures fresh(b) && b[..] == RecordBytes(r)
  {
    hide Put64;
    b := new byte[RECORD_LEN](_ => 0);
    assert b[..0] == [] && Blank(b, 0);
    FillNext(b, 0, Put64(r.uncompStart));
    FillNext(b, 8, Put64(r.uncompLen));
    FillNext(b, 16, Put64(r.compStart));
    FillNext(b, 24, Put64(r.compLen));
    FillNext(b, 32, Put64(r.firstWriteMs));
    FillNext(b, 40, Put64(r.lastWriteMs));
    FillNext(b, 48, Put64(r.number));
    assert b[..] == b[..56];
  }

  method HeaderBytes(nextSeq: u64, dropped: Dropped, id: Option<StoreId>) returns (h: array<byte>)
    ensures fresh(h) && h[..] == RingsHeader(nextSeq, dropped, id)
  {
    h := new byte[RINGS_HEADER_LEN](_ => 0);
    assert h[..0] == [] && Blank(h, 0);
    hide Put64, Blank, RingsHeader;
    FillNext(h, 0, RINGS_MAGIC);
    FillNext(h, 8, Put64(RINGS_HEADER_LEN));
    FillNext(h, 16, Put64(0));
    FillNext(h, 24, Put64(nextSeq));
    FillNext(h, 32, Put64(dropped.uncompBytes));
    FillNext(h, 40, Put64(dropped.compBytes));
    ghost var filled := h[..48];
    if id.Some? {
      FillNext(h, STORE_ID_OFF, id.value);
    } else {
      BlankIsNoId(h);
    }
    assert h[..] == h[..64];
    HeaderIs(nextSeq, dropped, id, filled);
  }

  lemma BlankIsNoId(h: array<byte>)
    requires h.Length == 64 && Blank(h, 48)
    ensures h[..64] == h[..48] + NO_ID
  {
  }

  lemma HeaderIs(nextSeq: u64, dropped: Dropped, id: Option<StoreId>, filled: seq<byte>)
    requires filled == [] + RINGS_MAGIC + Put64(RINGS_HEADER_LEN) + Put64(0) + Put64(nextSeq)
                       + Put64(dropped.uncompBytes) + Put64(dropped.compBytes)
    ensures filled + (if id.Some? then id.value else NO_ID) == RingsHeader(nextSeq, dropped, id)
  {
    hide Put64;
  }

  // ------------------------------------------------------------------ parsing

  method ParseIndexVersioned(buf: seq<byte>) returns (r: Result<Index, IndexError>)
    ensures r == Parse(buf)
  {
    hide IndexLayout, RecordAt;
    var layout :- IndexLayout(buf, |buf|);
    var v, header := layout.version, layout.header;
    var n := v.Count(|buf| - header);
    CountFits(v, |buf| - header);
    var out := [];
    for i := 0 to n
      invariant out == RecordsFrom(buf, v, header, 0, i)
    {
      out := out + [RecordAt(buf, v, header, i)];
    }
    return Ok(Index(out, v));
  }

  /** How many records there are, and those from some place on. */
  datatype Tail = Tail(count: nat, records: seq<ChunkRecord>)

  /** The records in `b`, which holds those of an index from place `from` on. */
  function Block(b: seq<byte>, v: Version, from: nat, n: nat): seq<ChunkRecord>
    requires |b| == v.Offset(n)
  {
    if n == 0 then []
    else
      Block(b[..v.Offset(n - 1)], v, from, n - 1)
        + [Decoded(v, b[v.Offset(n - 1)..v.Offset(n)], from + n - 1)]
  }

  /** One read of the header and one of the records wanted; `start` is told how many there are. */
  method IndexFrom(buf: seq<byte>, start: nat -> nat) returns (r: Result<Tail, IndexError>)
    ensures match Parse(buf)
            case Err(e) => r == Err(e)
            case Ok(index) =>
              var n := |index.records|;
              r == Ok(Tail(n, if start(n) >= n then [] else index.records[start(n)..]))
  {
    hide IndexLayout, RecordAt, Block;
    var total := |buf|;
    var prefix := buf[..Min(total, RINGS_HEADER_LEN)];
    PrefixIsEnough(buf);
    var layout :- IndexLayout(prefix, total);
    var v, header := layout.version, layout.header;
    var n := v.Count(total - header);
    CountFits(v, total - header);
    var from := start(n);
    if from >= n {
      return Ok(Tail(n, []));
    }
    var block := buf[header + v.Offset(from)..header + v.Offset(n)];
    BlockIs(buf, v, header, from, n, n - from);
    RecordsTail(buf, v, header, from, n);
    var recs := ReadBlock(block, v, from, n - from);
    return Ok(Tail(n, recs));
  }

  method ReadBlock(b: seq<byte>, v: Version, from: nat, n: nat) returns (recs: seq<ChunkRecord>)
    requires |b| == v.Offset(n)
    ensures recs == Block(b, v, from, n)
  {
    hide Decoded;
    recs := [];
    for j := 0 to n
      invariant recs == Block(b[..v.Offset(j)], v, from, j)
    {
      var next := b[..v.Offset(j + 1)];
      assert next[..v.Offset(j)] == b[..v.Offset(j)];
      assert next[v.Offset(j)..v.Offset(j + 1)] == b[v.Offset(j)..v.Offset(j + 1)];
      recs := recs + [Decoded(v, b[v.Offset(j)..v.Offset(j + 1)], from + j)];
    }
    assert b[..v.Offset(n)] == b;
  }

  method ReadIndexTail(buf: seq<byte>, from: nat) returns (r: Result<Tail, IndexError>)
    ensures match Parse(buf)
            case Err(e) => r == Err(e)
            case Ok(index) => r == Ok(Tail(|index.records|, index.records[Min(from, |index.records|)..]))
  {
    hide Parse;
    r := IndexFrom(buf, _ => from);
    if r.Ok? && from >= r.value.count {
      assert Parse(buf).value.records[r.value.count..] == [];
    }
  }

  method ReadIndexLast(buf: seq<byte>) returns (r: Result<(nat, Option<ChunkRecord>), IndexError>)
    ensures match Parse(buf)
            case Err(e) => r == Err(e)
            case Ok(index) =>
              r == Ok((|index.records|, if index.records == [] then None else Some(Last(index.records))))
  {
    var tail :- IndexFrom(buf, n => if n == 0 then 0 else n - 1);
    return Ok((tail.count, if tail.records == [] then None else Some(Last(tail.records))));
  }

  // ------------------------------------------------------------- why it agrees

  /** The fixed fields are in the first bytes of a file, however long it is. */
  lemma PrefixIsEnough(buf: seq<byte>)
    ensures IndexLayout(buf[..Min(|buf|, RINGS_HEADER_LEN)], |buf|) == IndexLayout(buf, |buf|)
  {
    var prefix := buf[..Min(|buf|, RINGS_HEADER_LEN)];
    if |prefix| >= 8 {
      assert prefix[..8] == buf[..8];
    }
    if |prefix| >= 24 {
      assert prefix[8..16] == buf[8..16] && prefix[16..24] == buf[16..24];
    }
  }

  lemma {:induction false} BlockIs(buf: seq<byte>, v: Version, header: nat, from: nat, n: nat, k: nat)
    requires from <= n && k == n - from && header + v.Offset(n) <= |buf|
    ensures Block(buf[header + v.Offset(from)..header + v.Offset(n)], v, from, k) == RecordsFrom(buf, v, header, from, n)
    decreases k
  {
    hide Block, RecordsFrom;
    if k == 0 {
      NoBlock(buf, v, header, from);
    } else {
      BlockIs(buf, v, header, from, n - 1, k - 1);
      BlockStep(buf, v, header, from, n, k);
    }
  }

  lemma NoBlock(buf: seq<byte>, v: Version, header: nat, from: nat)
    requires header + v.Offset(from) <= |buf|
    ensures Block(buf[header + v.Offset(from)..header + v.Offset(from)], v, from, 0)
         == RecordsFrom(buf, v, header, from, from)
  {
  }

  lemma BlockStep(buf: seq<byte>, v: Version, header: nat, from: nat, n: nat, k: nat)
    requires from < n && k == n - from && header + v.Offset(n) <= |buf|
    requires Block(buf[header + v.Offset(from)..header + v.Offset(n - 1)], v, from, k - 1)
          == RecordsFrom(buf, v, header, from, n - 1)
    ensures Block(buf[header + v.Offset(from)..header + v.Offset(n)], v, from, k) == RecordsFrom(buf, v, header, from, n)
  {
    hide Decoded;
    var lo, mid, hi := header + v.Offset(from), header + v.Offset(n - 1), header + v.Offset(n);
    var b := buf[lo..hi];
    SliceSlice(buf, lo, hi, 0, v.Offset(k - 1), lo, mid);
    SliceSlice(buf, lo, hi, v.Offset(k - 1), v.Offset(k), mid, hi);
    assert b[..v.Offset(k - 1)] == b[0..v.Offset(k - 1)];
  }

  lemma RecordsTail(buf: seq<byte>, v: Version, header: nat, from: nat, n: nat)
    requires from <= n && header + v.Offset(n) <= |buf|
    ensures RecordsFrom(buf, v, header, 0, n)[from..] == RecordsFrom(buf, v, header, from, n)
  {
    hide RecordAt;
  }

  lemma LayoutOfCut(buf: seq<byte>, m: nat)
    requires IndexLayout(buf, |buf|).Ok? && IndexLayout(buf, |buf|).value.header <= m <= |buf|
    ensures IndexLayout(buf[..m], m) == IndexLayout(buf, |buf|)
  {
    var cut := buf[..m];
    assert cut[..8] == buf[..8];
    if m >= 24 {
      assert cut[8..16] == buf[8..16] && cut[16..24] == buf[16..24];
    }
    hide Get64;
  }

  /** A file cut anywhere past its header loses the records that are not all there, and nothing else. */
  lemma FileCutShort(buf: seq<byte>, m: nat)
    requires Parse(buf).Ok? && IndexLayout(buf, |buf|).value.header <= m <= |buf|
    ensures var index := Parse(buf).value;
            var v, header := index.version, IndexLayout(buf, |buf|).value.header;
            var n := v.Count(m - header);
            n <= |index.records| && Parse(buf[..m]) == Ok(Index(index.records[..n], v))
  {
    hide IndexLayout, RecordsFrom;
    var Layout(v, header) := IndexLayout(buf, |buf|).value;
    LayoutOfCut(buf, m);
    CountFits(v, m - header);
    CountFits(v, |buf| - header);
    CountGrows(v, m - header, |buf| - header);
    CutRecords(buf, m, v, header, v.Count(m - header), v.Count(|buf| - header));
  }

  lemma CountGrows(v: Version, a: nat, b: nat)
    requires a <= b
    ensures v.Count(a) <= v.Count(b)
  {
  }

  lemma CutRecords(buf: seq<byte>, m: nat, v: Version, header: nat, n: nat, all: nat)
    requires m <= |buf| && header + v.Offset(n) <= m && n <= all && header + v.Offset(all) <= |buf|
    ensures RecordsFrom(buf[..m], v, header, 0, n) == RecordsFrom(buf, v, header, 0, all)[..n]
  {
    var rs := RecordsFrom(buf, v, header, 0, all)[..n];
    forall i | 0 <= i < n
      ensures header + v.Offset(i + 1) <= m && RecordAt(buf[..m], v, header, i) == rs[i]
    {
      CutRecord(buf, m, v, header, i);
    }
    hide RecordsFrom, RecordAt;
    RecordsAre(buf[..m], v, header, rs);
  }

  lemma CutRecord(buf: seq<byte>, m: nat, v: Version, header: nat, i: nat)
    requires m <= |buf| && header + v.Offset(i + 1) <= m
    ensures RecordAt(buf[..m], v, header, i) == RecordAt(buf, v, header, i)
  {
    var from, to := header + v.Offset(i), header + v.Offset(i + 1);
    assert buf[..m][from..to] == buf[from..to];
    hide Decoded;
  }
}
