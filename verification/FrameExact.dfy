/**
 * What a decoder accepts, of any bytes: a payload is read as a frame only if
 * it begins with what that frame is written as, and the frame is well formed.
 * With `FrameWire`, which reads back every such frame, that is exactly what
 * is accepted; bytes after the fields of a frame are allowed and ignored.
 */
module FrameExact {
  import opened Common
  import opened LittleEndian
  import opened FrameModel
  import opened FrameWire

  // ------------------------------------------------------ one field at a time

  lemma Put32Get32(b: seq<byte>)
    requires |b| == 4
    ensures Put32(Get32(b)) == b
  {
    FromLeRoundTrip(b);
  }

  lemma Put64Get64(b: seq<byte>)
    requires |b| == 8
    ensures Put64(Get64(b)) == b
  {
    FromLeRoundTrip(b);
  }

  lemma Taken32(b: seq<byte>, what: string)
    ensures var g := Take32(b, what); g.Got? ==> b == Put32(g.value) + g.rest
    ensures Take32(b, what).Got? <==> |b| >= 4
  {
    if |b| >= 4 {
      Put32Get32(b[..4]);
    }
    hide Put32, Get32;
  }

  lemma Taken64(b: seq<byte>, what: string)
    ensures var g := Take64(b, what); g.Got? ==> b == Put64(g.value) + g.rest
    ensures Take64(b, what).Got? <==> |b| >= 8
  {
    if |b| >= 8 {
      Put64Get64(b[..8]);
    }
    hide Put64, Get64;
  }

  lemma TakenBytes(b: seq<byte>, n: nat, what: string)
    ensures var g := Take(b, n, what); g.Got? ==> |g.value| == n && b == g.value + g.rest
    ensures var g := TakeId(b, what); g.Got? ==> b == g.value + g.rest
    ensures var g := TakeTag(b, what); g.Got? ==> b == g.value + g.rest
  {
  }

  // --------------------------------------------------------- runs and sidecars

  lemma TakenRun(b: seq<byte>)
    ensures var g := TakeRun(b); g.Got? ==> g.value.start <= g.value.end && b == RunBytes(g.value) + g.rest
  {
    hide Put64, Take64;
    Taken64(b, "run start");
    var g := Take64(b, "run start");
    if g.Got? {
      Taken64(g.rest, "run end");
      var h := Take64(g.rest, "run end");
      if h.Got? {
        Assoc(Put64(g.value), Put64(h.value), h.rest);
      }
    }
  }

  lemma {:induction false} TakenRuns(b: seq<byte>, n: nat)
    ensures var g := TakeRuns(b, n);
            g.Got? ==> |g.value| == n && Ordered(g.value) && b == Each(RunBytes, g.value) + g.rest
  {
    if n == 0 {
      assert Each(RunBytes, []) + b == b;
    } else {
      TakenRun(b);
      var r := TakeRun(b);
      hide TakeRun, RunBytes;
      if r.Got? {
        TakenRuns(r.rest, n - 1);
        var rs := TakeRuns(r.rest, n - 1);
        if rs.Got? {
          var all := [r.value] + rs.value;
          EachFirst(RunBytes, all, rs.rest);
          assert all[1..] == rs.value;
        }
      }
    }
  }

  lemma GotRuns(b: seq<byte>)
    ensures var g := GetRuns(b); g.Got? ==> Ordered(g.value) && b == PutRuns(g.value) + g.rest
  {
    hide Take32, Put32, TakeRuns, Each, Ordered;
    Taken32(b, "run count");
    var n := Take32(b, "run count");
    if n.Got? {
      TakenRuns(n.rest, n.value);
      var g := TakeRuns(n.rest, n.value);
      if g.Got? {
        Assoc(Put32(n.value), Each(RunBytes, g.value), g.rest);
        assert Low32(|g.value|) == n.value;
      }
    }
  }

  /** A count that what follows cannot hold is refused before anything is read by it. */
  lemma CountsAreHeld(b: seq<byte>)
    requires |b| >= 4
    ensures Get32(b[..4]) * 16 > |b| - 4 ==> GetRuns(b) == Bad(Inconsistent("run count exceeds payload"))
    ensures Get32(b[..4]) * 12 > |b| - 4 ==> GetTable(b) == Bad(Inconsistent("sidecar count exceeds payload"))
  {
    hide Get32, TakeRuns, TakeEntries;
  }

  function EntryRaw(x: Entry): seq<byte> {
    x.kind + Put32(Low32(x.len))
  }

  lemma TakenEntry(b: seq<byte>)
    ensures var g := TakeEntry(b); g.Got? ==> g.value.len < 0x1_0000_0000 && b == EntryRaw(g.value) + g.rest
  {
    hide Put32, Take32;
    TakenBytes(b, 0, "sidecar kind");
    var g := TakeTag(b, "sidecar kind");
    if g.Got? {
      Taken32(g.rest, "sidecar length");
      var h := Take32(g.rest, "sidecar length");
      if h.Got? {
        assert Low32(h.value) == h.value;
        Assoc(g.value, Put32(h.value), h.rest);
      }
    }
  }

  lemma {:induction false} TakenEntries(b: seq<byte>, n: nat)
    ensures var g := TakeEntries(b, n);
            g.Got? ==> |g.value| == n && b == Each(EntryRaw, g.value) + g.rest
  {
    if n == 0 {
      assert Each(EntryRaw, []) + b == b;
    } else {
      TakenEntry(b);
      var x := TakeEntry(b);
      hide TakeEntry, EntryRaw;
      if x.Got? {
        TakenEntries(x.rest, n - 1);
        var xs := TakeEntries(x.rest, n - 1);
        if xs.Got? {
          var all := [x.value] + xs.value;
          EachFirst(EntryRaw, all, xs.rest);
          assert all[1..] == xs.value;
        }
      }
    }
  }

  /** The bodies the table states. */
  lemma {:induction false} GotSidecars(b: seq<byte>, table: seq<Entry>)
    ensures var g := GetSidecars(b, table);
            g.Got? ==> && |g.value| == |table| && b == PutBodies(g.value) + g.rest
                       && |PutBodies(g.value)| == TotalLen(table)
                       && Each(EntryBytes, g.value) == Each(EntryRaw, table)
  {
    if table == [] {
      assert PutBodies([]) + b == b;
    } else {
      var len := table[0].len;
      TakenBytes(b, len, "sidecar body");
      var t := Take(b, len, "sidecar body");
      hide Take, EntryRaw, EntryBytes;
      if t.Got? {
        GotSidecars(t.rest, table[1..]);
        var xs := GetSidecars(t.rest, table[1..]);
        if xs.Got? {
          var s := Sidecar(table[0].kind, t.value);
          var all := [s] + xs.value;
          EachFirst(BodyBytes, all, xs.rest);
          assert all[1..] == xs.value && all[0] == s;
          SameEntry(s, table[0]);
        }
      }
    }
  }

  lemma SameEntry(s: Sidecar, x: Entry)
    requires s.kind == x.kind && |s.bytes| == x.len
    ensures EntryBytes(s) == EntryRaw(x)
  {
  }

  /** A table, and later the bodies it states, are what those sidecars are written as. */
  lemma GotTable(b: seq<byte>)
    ensures var g := GetTable(b);
            g.Got? ==> |g.value| < 0x1_0000_0000 && b == (Put32(|g.value|) + Each(EntryRaw, g.value)) + g.rest
  {
    hide Take32, Put32, TakeEntries, Each;
    Taken32(b, "sidecar count");
    var n := Take32(b, "sidecar count");
    if n.Got? {
      TakenEntries(n.rest, n.value);
      var g := TakeEntries(n.rest, n.value);
      if g.Got? {
        Assoc(Put32(n.value), Each(EntryRaw, g.value), g.rest);
      }
    }
  }

  lemma TableIs(table: seq<Entry>, sidecars: seq<Sidecar>)
    requires |table| == |sidecars| < 0x1_0000_0000 && Each(EntryBytes, sidecars) == Each(EntryRaw, table)
    ensures PutTable(sidecars) == Put32(|table|) + Each(EntryRaw, table)
  {
    assert Low32(|sidecars|) == |sidecars|;
    hide Put32, Each;
  }

  // -------------------------------------------------------------------- frames

  /** The frame is well formed, and `b` is what it is written as, and then `rest`. */
  predicate Reads(g: Got<Frame>, b: seq<byte>) {
    g.Got? ==> WellFormed(g.value) && b == PayloadOf(g.value) + g.rest
  }

  /** The modes the wire knows. */
  lemma ModesAre(v: u32)
    ensures ModeFrom(v) == if 1 <= v <= 3 then Ok(if v == 1 then Coverage else if v == 2 then Index else Frames)
                           else Err(BadMode(v))
  {
  }

  lemma GotOpenTail(o: Uuid, s: Uuid, first: u64, last: u64, mode: Mode, n: u32, b: seq<byte>)
    ensures var g := GetOpenTail(o, s, first, last, mode, n, b);
            g.Got? ==> && g.value.StreamOpen? && |g.value.provenance| == n
                       && g.value == StreamOpen(o, s, first, last, mode, g.value.provenance, g.value.sidecars)
                       && b == (PutTable(g.value.sidecars) + (g.value.provenance + PutBodies(g.value.sidecars))) + g.rest
  {
    hide GetTable, Take, GetSidecars, PutTable, PutBodies, Each, Put32;
    GotTable(b);
    var t := GetTable(b);
    if t.Got? {
      TakenBytes(t.rest, n, "provenance");
      var p := Take(t.rest, n, "provenance");
      if p.Got? {
        GotSidecars(p.rest, t.value);
        var x := GetSidecars(p.rest, t.value);
        if x.Got? {
          TableIs(t.value, x.value);
          Assoc(p.value, PutBodies(x.value), x.rest);
          Assoc(PutTable(x.value), p.value + PutBodies(x.value), x.rest);
        }
      }
    }
  }

  /** A field in front of what is already known to be written so. */
  lemma InFront(field: seq<byte>, b: seq<byte>, c: seq<byte>, x: seq<byte>, rest: seq<byte>)
    requires b == field + c && c == x + rest
    ensures b == (field + x) + rest
  {
  }

  lemma GotStreamOpen(b: seq<byte>)
    ensures Reads(GetStreamOpen(b), b)
  {
    hide TakeId, Take64, Take32, Put32, Put64, PutTable, PutBodies, GetOpenTail;
    TakenBytes(b, 0, "origin id");
    var a0 := TakeId(b, "origin id");
    if a0.Bad? {
      return;
    }
    TakenBytes(a0.rest, 0, "sender id");
    var a1 := TakeId(a0.rest, "sender id");
    if a1.Bad? {
      return;
    }
    Taken64(a1.rest, "first seq");
    var a2 := Take64(a1.rest, "first seq");
    if a2.Bad? {
      return;
    }
    Taken64(a2.rest, "last seq");
    var a3 := Take64(a2.rest, "last seq");
    if a3.Bad? {
      return;
    }
    Taken32(a3.rest, "mode");
    var a4 := Take32(a3.rest, "mode");
    if a4.Bad? || ModeFrom(a4.value).Err? {
      return;
    }
    Taken32(a4.rest, "provenance length");
    var a5 := Take32(a4.rest, "provenance length");
    if a5.Bad? {
      return;
    }
    var mode := ModeFrom(a4.value).value;
    GotOpenTail(a0.value, a1.value, a2.value, a3.value, mode, a5.value, a5.rest);
    var g := GetOpenTail(a0.value, a1.value, a2.value, a3.value, mode, a5.value, a5.rest);
    if g.Got? {
      var x := PutTable(g.value.sidecars) + (g.value.provenance + PutBodies(g.value.sidecars));
      InFront(Put32(a5.value), a4.rest, a5.rest, x, g.rest);
      x := Put32(a5.value) + x;
      InFront(Put32(a4.value), a3.rest, a4.rest, x, g.rest);
      x := Put32(a4.value) + x;
      InFront(Put64(a3.value), a2.rest, a3.rest, x, g.rest);
      x := Put64(a3.value) + x;
      InFront(Put64(a2.value), a1.rest, a2.rest, x, g.rest);
      x := Put64(a2.value) + x;
      InFront(a1.value, a0.rest, a1.rest, x, g.rest);
      x := a1.value + x;
      InFront(a0.value, b, a0.rest, x, g.rest);
      assert mode.Wire() == a4.value && Low32(a5.value) == a5.value;
    }
  }

  lemma GotChunkTail(number: u64, uncompLen: u64, compLen: u64, firstMs: u64, lastMs: u64, b: seq<byte>)
    ensures var g := GetChunkTail(number, uncompLen, compLen, firstMs, lastMs, b);
            g.Got? ==> && g.value.Chunk? && WellFormed(g.value) && g.rest == []
                       && g.value == Chunk(number, uncompLen, compLen, g.value.comp, firstMs, lastMs, g.value.sidecars)
                       && b == PutTable(g.value.sidecars)
                               + ((if g.value.comp.Some? then g.value.comp.value else []) + PutBodies(g.value.sidecars))
  {
    hide GetTable, GetSidecars, PutTable, PutBodies, Each, Put32, TotalLen;
    GotTable(b);
    var t := GetTable(b);
    if t.Got? && GetComp(t.rest, TotalLen(t.value), compLen).Got? {
      var c := GetComp(t.rest, TotalLen(t.value), compLen);
      GotSidecars(c.rest, t.value);
      var x := GetSidecars(c.rest, t.value);
      if x.Got? {
        TableIs(t.value, x.value);
        assert x.rest == [] && c.rest == PutBodies(x.value);
        assert t.rest == (if c.value.Some? then c.value.value else []) + c.rest;
      }
    }
  }

  lemma GotChunk(b: seq<byte>)
    ensures Reads(GetChunk(b), b) && (GetChunk(b).Got? ==> GetChunk(b).rest == [])
  {
    hide Take64, Put64, PutTable, PutBodies, GetChunkTail;
    Taken64(b, "seq");
    var a0 := Take64(b, "seq");
    if a0.Bad? {
      return;
    }
    Taken64(a0.rest, "uncomp_len");
    var a1 := Take64(a0.rest, "uncomp_len");
    if a1.Bad? {
      return;
    }
    Taken64(a1.rest, "comp_len");
    var a2 := Take64(a1.rest, "comp_len");
    if a2.Bad? {
      return;
    }
    Taken64(a2.rest, "first write");
    var a3 := Take64(a2.rest, "first write");
    if a3.Bad? {
      return;
    }
    Taken64(a3.rest, "last write");
    var a4 := Take64(a3.rest, "last write");
    if a4.Bad? {
      return;
    }
    GotChunkTail(a0.value, a1.value, a2.value, a3.value, a4.value, a4.rest);
    var g := GetChunkTail(a0.value, a1.value, a2.value, a3.value, a4.value, a4.rest);
    if g.Got? {
      assert PayloadOf(g.value) + [] == PayloadOf(g.value);
    }
  }

  lemma GotConflict(b: seq<byte>)
    ensures Reads(GetConflict(b), b)
  {
    hide TakeId, Take32, Take, Put32, PutRuns, GetRuns, Utf8, Ordered;
    TakenBytes(b, 0, "holder origin");
    var a0 := TakeId(b, "holder origin");
    if a0.Bad? {
      return;
    }
    GotRuns(a0.rest);
    var a1 := GetRuns(a0.rest);
    if a1.Bad? {
      return;
    }
    Taken32(a1.rest, "reason length");
    var a2 := Take32(a1.rest, "reason length");
    if a2.Bad? {
      return;
    }
    TakenBytes(a2.rest, a2.value, "reason");
    var a3 := Take(a2.rest, a2.value, "reason");
    if a3.Got? {
      assert Low32(a2.value) == a2.value;
      InFront(Put32(a2.value), a1.rest, a2.rest, a3.value, a3.rest);
      InFront(PutRuns(a1.value), a0.rest, a1.rest, Put32(a2.value) + a3.value, a3.rest);
      InFront(a0.value, b, a0.rest, PutRuns(a1.value) + (Put32(a2.value) + a3.value), a3.rest);
    }
  }

  lemma GotAccepted(b: seq<byte>)
    ensures Reads(GetAccepted(b), b)
  {
    hide TakeId, PutRuns, GetRuns, Ordered;
    TakenBytes(b, 0, "registration id");
    var a0 := TakeId(b, "registration id");
    if a0.Got? {
      GotRuns(a0.rest);
      var a1 := GetRuns(a0.rest);
      if a1.Got? {
        InFront(a0.value, b, a0.rest, PutRuns(a1.value), a1.rest);
      }
    }
  }

  /** Of any kind, and any bytes. */
  lemma GotFrame(kind: u32, b: seq<byte>)
    ensures var g := GetFrame(kind, b);
            Reads(g, b) && (g.Got? ==> g.value.WireKind() == kind && (g.value.Chunk? || g.value.Unknown? ==> g.rest == []))
  {
    GotStreamOpen(b);
    GotChunk(b);
    GotRuns(b);
    GotAccepted(b);
    GotConflict(b);
    hide GetStreamOpen, GetChunk, GetRuns, GetAccepted, GetConflict, Ordered, Utf8, PutRuns, CompStated;
    KindsGot(kind, b);
  }

  lemma KindsGot(kind: u32, b: seq<byte>)
    ensures var g := GetFrame(kind, b); g.Got? ==> g.value.WireKind() == kind
    ensures kind == 6 ==> Reads(GetFrame(kind, b), b)
    ensures kind == 0 || kind > 6 ==> Reads(GetFrame(kind, b), b) && GetFrame(kind, b).rest == []
  {
    assert [] + b == b && b + [] == b;
    KindOfOpen(b);
    KindOfChunk(b);
    KindOfOthers(b);
    hide GetRuns, GetStreamOpen, GetChunk, GetAccepted, GetConflict;
  }

  lemma KindOfOthers(b: seq<byte>)
    ensures GetAccepted(b).Got? ==> GetAccepted(b).value.Accepted?
    ensures GetConflict(b).Got? ==> GetConflict(b).value.Conflict?
  {
    hide GetRuns, TakeId, Take32, Take, Utf8;
  }

  lemma KindOfOpen(b: seq<byte>)
    ensures GetStreamOpen(b).Got? ==> GetStreamOpen(b).value.StreamOpen?
  {
    hide TakeId, Take32, Take64, GetTable, Take, GetSidecars;
  }

  lemma KindOfChunk(b: seq<byte>)
    ensures GetChunk(b).Got? ==> GetChunk(b).value.Chunk?
  {
    hide Take64, GetTable, GetComp, GetSidecars;
  }

  /**
   * Whatever bytes a decoder is given, what it takes for a frame begins with
   * that frame's stream, kind and a length, and then its payload; the frame is
   * well formed, and what the length counts beyond it is ignored, of a chunk
   * and of an unknown kind nothing.
   */
  lemma DecodeIsSound(buf: seq<byte>) returns (extra: seq<byte>)
    ensures Decode(buf).Whole? ==>
              && var f := Decode(buf).value;
                 var payload := PayloadOf(f.frame) + extra;
              && WellFormed(f.frame) && (f.frame.Chunk? || f.frame.Unknown? ==> extra == [])
              && |payload| <= 0x400_0000 && Decode(buf).len == 12 + |payload| <= |buf|
              && buf[..12 + |payload|]
                 == Put32(f.stream) + (Put32(KindNumber(f.frame)) + (Put32(|payload|) + payload))
  {
    extra := [];
    if Decode(buf).Whole? {
      var kind, len := Get32(buf[4..8]), Get32(buf[8..12]);
      WholeIs(buf, kind, len);
      hide Decode, GetFrame, Put32, Get32, WellFormed, PayloadOf;
      GotFrame(kind, buf[12..12 + len]);
      extra := GetFrame(kind, buf[12..12 + len]).rest;
    }
  }

  lemma WholeIs(buf: seq<byte>, kind: u32, len: u32)
    requires Decode(buf).Whole? && kind == Get32(buf[4..8]) && len == Get32(buf[8..12])
    ensures len <= 0x400_0000 && 12 + len <= |buf| && GetFrame(kind, buf[12..12 + len]).Got?
    ensures var f := Decode(buf).value;
            && f.frame == GetFrame(kind, buf[12..12 + len]).value && Decode(buf).len == 12 + len
            && buf[..12 + len] == Put32(f.stream) + (Put32(kind) + (Put32(len) + buf[12..12 + len]))
  {
    hide GetFrame, Put32, Get32;
    Put32Get32(buf[0..4]);
    Put32Get32(buf[4..8]);
    Put32Get32(buf[8..12]);
    assert buf[..12 + len] == buf[0..4] + (buf[4..8] + (buf[8..12] + buf[12..12 + len]));
  }
}
