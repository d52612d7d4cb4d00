/**
 * Exporting a window of a store (src/export.rs): the chunks that overlap it
 * are copied whole into a new trunk and their records rebased onto it.
 */
module Export {
  import opened Common
  import opened LittleEndian
  import opened RingsModel

  /** The window a chunk was written in overlaps the one asked for. */
  predicate Overlaps(c: ChunkRecord, from: u64, to: u64) {
    c.lastWriteMs >= from && c.firstWriteMs <= to
  }

  function Selected(cs: seq<ChunkRecord>, from: u64, to: u64): (r: seq<ChunkRecord>)
    ensures forall c :: c in r <==> c in cs && c.firstWriteMs <= to && from <= c.lastWriteMs
  {
    if cs == [] then []
    else
      assert cs == Front(cs) + [Last(cs)];
      if Overlaps(Last(cs), from, to) then Selected(Front(cs), from, to) + [Last(cs)]
      else Selected(Front(cs), from, to)
  }

  /** They are in the order they were in. */
  lemma {:induction false} SelectedInOrder(a: seq<ChunkRecord>, b: seq<ChunkRecord>, from: u64, to: u64)
    ensures Selected(a + b, from, to) == Selected(a, from, to) + Selected(b, from, to)
  {
    if b == [] {
      assert a + b == a;
    } else {
      assert Front(a + b) == a + Front(b) && Last(a + b) == Last(b);
      SelectedInOrder(a, Front(b), from, to);
    }
  }

  // ------------------------------------------------------------------- frames

  /** The trunk holds the whole of a chunk's frame. */
  predicate Holds(trunk: seq<byte>, c: ChunkRecord) {
    c.compLen == 0 || c.compStart + c.compLen <= |trunk|
  }

  predicate HoldsAll(trunk: seq<byte>, cs: seq<ChunkRecord>) {
    forall i :: 0 <= i < |cs| ==> Holds(trunk, cs[i])
  }

  function FrameOf(trunk: seq<byte>, c: ChunkRecord): (f: seq<byte>)
    requires Holds(trunk, c)
    ensures |f| == c.compLen
  {
    if c.compLen == 0 then [] else trunk[c.compStart..c.compStart + c.compLen]
  }

  function Frames(trunk: seq<byte>, cs: seq<ChunkRecord>): seq<byte>
    requires HoldsAll(trunk, cs)
  {
    if cs == [] then [] else Frames(trunk, Front(cs)) + FrameOf(trunk, Last(cs))
  }

  datatype ReadError = UnexpectedEof

  class ChunksReader {
    const trunk: seq<byte>
    const chunks: seq<ChunkRecord>
    var idx: nat
    var off: nat

    ghost predicate Valid()
      reads this
    {
      && idx <= |chunks| && HoldsAll(trunk, chunks[..idx])
      && (idx == |chunks| ==> off == 0)
      && (idx < |chunks| ==> off <= chunks[idx].compLen)
      && (off > 0 ==> chunks[idx].compStart + off <= |trunk|)
    }

    /** What has been read so far of the chunk in hand. */
    ghost function Part(): seq<byte>
      reads this
      requires Valid()
    {
      if off == 0 then [] else trunk[chunks[idx].compStart..chunks[idx].compStart + off]
    }

    ghost function Emitted(): seq<byte>
      reads this
      requires Valid()
    {
      Frames(trunk, chunks[..idx]) + Part()
    }

    constructor (trunk: seq<byte>, chunks: seq<ChunkRecord>)
      ensures Valid() && Emitted() == [] && this.trunk == trunk && this.chunks == chunks
    {
      this.trunk, this.chunks, idx, off := trunk, chunks, 0, 0;
    }

    /** On to the next chunk: nothing is emitted by it. */
    method Step()
      requires Valid() && idx < |chunks| && off == chunks[idx].compLen
      modifies this
      ensures Valid() && Emitted() == old(Emitted()) && idx == old(idx) + 1 && off == 0
    {
      assert Front(chunks[..idx + 1]) == chunks[..idx];
      assert Holds(trunk, chunks[idx]);
      assert Part() == FrameOf(trunk, chunks[idx]);
      idx := idx + 1;
      off := 0;
    }

    /** Up to `cap` bytes of the chunk in hand, or as few as `short` says where that is fewer. */
    method ReadPart(cap: nat, short: nat) returns (r: Result<seq<byte>, ReadError>)
      requires Valid() && idx < |chunks| && off < chunks[idx].compLen
      modifies this`off
      ensures Valid()
      ensures r.Ok? ==> Emitted() == old(Emitted()) + r.value && 0 < |r.value| <= cap && off > old(off)
      ensures r.Err? && cap > 0 ==> !Holds(trunk, chunks[idx])
    {
      hide Frames, HoldsAll;
      var c := chunks[idx];
      var want, at := Min(c.compLen - off, cap), c.compStart + off;
      var n := Available(at, want, short);
      if n == 0 {
        return Err(UnexpectedEof);
      }
      var to := at + n;
      ghost var head, part := Frames(trunk, chunks[..idx]), Part();
      PartGrows(trunk, c.compStart, at, to, part);
      Assoc(head, part, trunk[at..to]);
      off := off + n;
      assert Part() == trunk[c.compStart..to];
      return Ok(trunk[at..to]);
    }

    /** What a read of the trunk returns: no more than is wanted or there, and at least a byte where it can. */
    method Available(at: nat, want: nat, short: nat) returns (n: nat)
      ensures n <= want && (n > 0 ==> at + n <= |trunk|)
      ensures n == 0 <==> want == 0 || at >= |trunk|
    {
      n := if at >= |trunk| then 0 else Min(want, |trunk| - at);
      if 0 < short < n {
        n := short;
      }
    }

    /** Nothing read is the end. */
    method Read(cap: nat, short: nat) returns (r: Result<seq<byte>, ReadError>)
      requires Valid()
      modifies this
      ensures Valid()
      ensures r.Ok? ==> Emitted() == old(Emitted()) + r.value && |r.value| <= cap
      ensures r.Ok? ==> (r.value == [] <==> idx == |chunks|)
      ensures r.Ok? && r.value != [] ==> idx > old(idx) || (idx == old(idx) && off > old(off))
      ensures r.Err? && cap > 0 ==> !HoldsAll(trunk, chunks)
    {
      hide Holds;
      ghost var was := Emitted();
      while idx < |chunks|
        invariant Valid() && Emitted() == was
        invariant idx > old(idx) || (idx == old(idx) && off == old(off))
        decreases |chunks| - idx
      {
        if off == chunks[idx].compLen {
          Step();
          continue;
        }
        r := ReadPart(cap, short);
        return;
      }
      assert was + [] == was;
      return Ok([]);
    }
  }

  lemma PartGrows(trunk: seq<byte>, start: nat, at: nat, to: nat, part: seq<byte>)
    requires start <= at <= to <= |trunk| && part == if at == start then [] else trunk[start..at]
    ensures part + trunk[at..to] == trunk[start..to]
  {
  }

  /**
   * The copy loop: however large the buffer is each time, as long as it is not
   * empty, and however short each read, what is written is the frames one
   * after another, and it fails only if the trunk does not hold them all.
   */
  method CopyFrames(trunk: seq<byte>, chunks: seq<ChunkRecord>, caps: seq<nat>, shorts: seq<nat>)
    returns (r: Result<seq<byte>, ReadError>)
    requires forall i :: 0 <= i < |caps| ==> caps[i] > 0
    ensures r.Ok? <==> forall c :: c in chunks && c.compLen > 0 ==> c.compStart + c.compLen <= |trunk|
    ensures r.Ok? ==> r.value == Frames(trunk, chunks)
  {
    var reader := new ChunksReader(trunk, chunks);
    var out := [];
    var i := 0;
    while true
      invariant reader.Valid() && fresh(reader) && out == reader.Emitted()
      invariant reader.trunk == trunk && reader.chunks == chunks
      decreases |chunks| - reader.idx,
                if reader.idx < |chunks| then chunks[reader.idx].compLen - reader.off else 0
    {
      var cap := if i < |caps| then caps[i] else 0x10_0000;
      var got :- reader.Read(cap, if i < |shorts| then shorts[i] else 0);
      if got == [] {
        assert out + got == out;
        break;
      }
      out := out + got;
      i := i + 1;
    }
    assert chunks[..|chunks|] == chunks;
    return Ok(out);
  }

  // ------------------------------------------------------------------ rebasing

  function UncompTotal(cs: seq<ChunkRecord>): nat {
    if cs == [] then 0 else UncompTotal(Front(cs)) + Last(cs).uncompLen
  }

  function CompTotal(cs: seq<ChunkRecord>): nat {
    if cs == [] then 0 else CompTotal(Front(cs)) + Last(cs).compLen
  }

  /** Offsets and numbers fit where they are written. */
  predicate Fits(cs: seq<ChunkRecord>) {
    UncompTotal(cs) < 0x1_0000_0000_0000_0000 && CompTotal(cs) < 0x1_0000_0000_0000_0000
    && |cs| < 0x1_0000_0000_0000_0000
  }

  function Rebased(cs: seq<ChunkRecord>): (rs: seq<ChunkRecord>)
    requires Fits(cs)
    ensures |rs| == |cs|
  {
    if cs == [] then []
    else
      var f := Front(cs);
      Rebased(f) + [Last(cs).(uncompStart := UncompTotal(f), compStart := CompTotal(f), number := |f|)]
  }

  method Rebase(cs: seq<ChunkRecord>) returns (rs: seq<ChunkRecord>)
    requires Fits(cs)
    ensures rs == Rebased(cs)
  {
    rs := [];
    var uncompOff, compOff := 0, 0;
    for i := 0 to |cs|
      invariant Fits(cs[..i]) && rs == Rebased(cs[..i])
      invariant uncompOff == UncompTotal(cs[..i]) && compOff == CompTotal(cs[..i])
    {
      assert Front(cs[..i + 1]) == cs[..i];
      TotalsGrow(cs, i + 1);
      rs := rs + [cs[i].(uncompStart := uncompOff, compStart := compOff, number := i)];
      uncompOff := uncompOff + cs[i].uncompLen;
      compOff := compOff + cs[i].compLen;
    }
    assert cs[..|cs|] == cs;
  }

  lemma {:induction false} TotalsGrow(cs: seq<ChunkRecord>, i: nat)
    requires i <= |cs|
    ensures UncompTotal(cs[..i]) <= UncompTotal(cs) && CompTotal(cs[..i]) <= CompTotal(cs)
  {
    if i < |cs| {
      assert Front(cs)[..i] == cs[..i];
      TotalsGrow(Front(cs), i);
    } else {
      assert cs[..i] == cs;
    }
  }

  /** Dense numbers from 0, offsets that follow on, and everything else of the record as it was. */
  lemma {:induction false} RebasedAt(cs: seq<ChunkRecord>, i: nat)
    requires Fits(cs) && i < |cs|
    ensures var r := Rebased(cs)[i];
            && r == cs[i].(uncompStart := r.uncompStart, compStart := r.compStart, number := i)
            && r.uncompStart == UncompTotal(cs[..i]) && r.compStart == CompTotal(cs[..i])
            && UncompTotal(cs[..i + 1]) == r.uncompStart + r.uncompLen
            && CompTotal(cs[..i + 1]) == r.compStart + r.compLen
  {
    assert Front(cs[..i + 1]) == cs[..i];
    if i < |cs| - 1 {
      assert Front(cs)[..i] == cs[..i] && Front(cs)[..i + 1] == cs[..i + 1];
      RebasedAt(Front(cs), i);
    } else {
      assert cs[..i + 1] == cs;
    }
  }

  lemma {:induction false} FramesLength(trunk: seq<byte>, cs: seq<ChunkRecord>)
    requires HoldsAll(trunk, cs)
    ensures |Frames(trunk, cs)| == CompTotal(cs)
  {
    if cs != [] {
      FramesLength(trunk, Front(cs));
      hide Holds;
    }
  }

  lemma FramesLast(trunk: seq<byte>, cs: seq<ChunkRecord>)
    requires HoldsAll(trunk, cs) && cs != []
    ensures HoldsAll(trunk, Front(cs))
    ensures Frames(trunk, cs) == Frames(trunk, Front(cs)) + FrameOf(trunk, Last(cs))
    ensures CompTotal(cs) == CompTotal(Front(cs)) + Last(cs).compLen
  {
    hide FrameOf, Holds;
  }

  /** `cut` is what `b` holds from `from` on. */
  predicate Cuts(b: seq<byte>, from: nat, cut: seq<byte>) {
    from + |cut| <= |b| && b[from..from + |cut|] == cut
  }

  lemma CutsFirst(a: seq<byte>, b: seq<byte>, from: nat, cut: seq<byte>)
    requires Cuts(a, from, cut)
    ensures Cuts(a + b, from, cut)
  {
    assert (a + b)[from..from + |cut|] == a[from..from + |cut|];
  }

  lemma CutsSecond(a: seq<byte>, cut: seq<byte>)
    ensures Cuts(a + cut, |a|, cut)
  {
  }

  lemma {:induction false} FramesCut(trunk: seq<byte>, cs: seq<ChunkRecord>, i: nat)
    requires HoldsAll(trunk, cs) && i < |cs|
    ensures Cuts(Frames(trunk, cs), CompTotal(cs[..i]), FrameOf(trunk, cs[i]))
  {
    var f := Front(cs);
    FramesLast(trunk, cs);
    hide FrameOf, Holds, Frames, CompTotal, Cuts;
    if i < |f| {
      FramesCut(trunk, f, i);
      assert f[..i] == cs[..i] && f[i] == cs[i];
      CutsFirst(Frames(trunk, f), FrameOf(trunk, Last(cs)), CompTotal(cs[..i]), FrameOf(trunk, cs[i]));
    } else {
      assert cs[..i] == f;
      FramesLength(trunk, f);
      CutsSecond(Frames(trunk, f), FrameOf(trunk, Last(cs)));
    }
  }

  lemma {:induction false} FramesAt(trunk: seq<byte>, cs: seq<ChunkRecord>, i: nat)
    requires HoldsAll(trunk, cs) && i < |cs|
    ensures |Frames(trunk, cs)| == CompTotal(cs)
    ensures CompTotal(cs[..i]) + cs[i].compLen <= CompTotal(cs)
    ensures Frames(trunk, cs)[CompTotal(cs[..i])..CompTotal(cs[..i]) + cs[i].compLen] == FrameOf(trunk, cs[i])
  {
    hide Frames, CompTotal;
    FramesLength(trunk, cs);
    FramesCut(trunk, cs, i);
  }

  /** Each rebased record cuts out of the new trunk what its source record cut out of the old one. */
  lemma {:induction false} SameBytes(trunk: seq<byte>, cs: seq<ChunkRecord>, i: nat)
    requires HoldsAll(trunk, cs) && Fits(cs) && i < |cs|
    ensures var r, copy := Rebased(cs)[i], Frames(trunk, cs);
            Holds(copy, r) && FrameOf(copy, r) == FrameOf(trunk, cs[i])
  {
    RebasedAt(cs, i);
    FramesAt(trunk, cs, i);
  }

  // ------------------------------------------------------------ the whole export

  datatype Exported = Exported(rings: seq<byte>, trunk: seq<byte>)

  datatype ExportError = BackwardWindow | NothingOverlaps | TrunkEnded

  method ExportWindow(trunk: seq<byte>, cs: seq<ChunkRecord>, from: u64, to: u64, failOnEmpty: bool,
                      id: Option<StoreId>, shorts: seq<nat>)
    returns (r: Result<Exported, ExportError>)
    requires Fits(Selected(cs, from, to))
    ensures var chosen := Selected(cs, from, to);
            if from > to then r == Err(BackwardWindow)
            else if chosen == [] && failOnEmpty then r == Err(NothingOverlaps)
            else if !HoldsAll(trunk, chosen) then r == Err(TrunkEnded)
            else r == Ok(Exported(RingsHeader(|chosen|, Dropped(0, 0), id) + AllBytes(Rebased(chosen)),
                                  Frames(trunk, chosen)))
  {
    if from > to {
      return Err(BackwardWindow);
    }
    var chosen := Selected(cs, from, to);
    if chosen == [] && failOnEmpty {
      return Err(NothingOverlaps);
    }
    var rebased := Rebase(chosen);
    var rings := RingsHeader(|rebased|, Dropped(0, 0), id) + AllBytes(rebased);
    var copy := CopyFrames(trunk, chosen, [], shorts);
    match copy {
      case Err(_) => return Err(TrunkEnded);
      case Ok(bytes) => return Ok(Exported(rings, bytes));
    }
  }

  /** What was exported reads back: each chunk chosen, under its place, and its bytes as they were. */
  lemma ExportReadsBack(trunk: seq<byte>, cs: seq<ChunkRecord>, id: Option<StoreId>, i: nat)
    requires HoldsAll(trunk, cs) && Fits(cs) && i < |cs|
    ensures var rings := RingsHeader(|cs|, Dropped(0, 0), id) + AllBytes(Rebased(cs));
            && HeaderNextSeq(rings) == |cs|
            && Parse(rings).Ok? && |Parse(rings).value.records| == |cs|
            && var r := Parse(rings).value.records[i];
               (r.number == i && r.uncompLen == cs[i].uncompLen
                && Holds(Frames(trunk, cs), r) && FrameOf(Frames(trunk, cs), r) == FrameOf(trunk, cs[i]))
  {
    var all := AllBytes(Rebased(cs));
    assert all + [] == all;
    WrittenReadsBack(|cs|, Dropped(0, 0), id, Rebased(cs), []);
    HeaderBack(|cs|, Dropped(0, 0), id, all);
    RebasedAt(cs, i);
    SameBytes(trunk, cs, i);
    hide Parse, RingsHeader, AllBytes, Rebased, Frames, FrameOf, HeaderNextSeq, IndexLayout;
  }
}
