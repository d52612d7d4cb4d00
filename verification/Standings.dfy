/**
 * Where a consumer stands in a store (src/cursor.rs, `standing_inner`): what
 * it has consumed, what is still held for it, and whether retention has
 * already outrun it.
 */
module Standings {
  import opened Common
  import opened LittleEndian
  import opened RingsModel
  import opened Cursors

  datatype Standing = Standing(
    consumedChunks: nat, behindChunks: nat, behindBytes: nat, behindMs: nat, gapChunks: Option<nat>)

  function Numbers(rs: seq<ChunkRecord>): (ns: seq<nat>)
    ensures |ns| == |rs| && forall i :: 0 <= i < |rs| ==> ns[i] == rs[i].number
  {
    if rs == [] then [] else Numbers(Front(rs)) + [Last(rs).number]
  }

  function Newest(rs: seq<ChunkRecord>): (t: nat)
    ensures forall r :: r in rs ==> r.lastWriteMs <= t
    ensures rs != [] ==> exists r :: r in rs && r.lastWriteMs == t
  {
    if rs == [] then 0
    else
      assert rs == Front(rs) + [Last(rs)];
      Max(Newest(Front(rs)), Last(rs).lastWriteMs)
  }

  function Less(a: nat, b: nat): nat {
    if a < b then 0 else a - b
  }

  /** From the first chunk still to be read to the end of the trunk. */
  function BytesFrom(rs: seq<ChunkRecord>, k: nat): nat {
    if k < |rs| then Less(Last(rs).compStart + Last(rs).compLen, rs[k].compStart) else 0
  }

  function GapOf(at: Option<nat>, rs: seq<ChunkRecord>): Option<nat> {
    if at.Some? && rs != [] && at.value < rs[0].number then Some(rs[0].number - at.value) else None
  }

  function StandingAt(at: Option<nat>, wl: nat, rs: seq<ChunkRecord>): Standing {
    var k := ConsumedPrefix(Numbers(rs), at);
    Standing(k, |rs| - k, BytesFrom(rs, k), Less(Newest(rs), wl), GapOf(at, rs))
  }

  /** Windows are only mostly in order, so every record is looked at. */
  method Scan(rs: seq<ChunkRecord>) returns (newest: nat)
    ensures newest == Newest(rs)
  {
    newest := 0;
    for i := 0 to |rs|
      invariant newest == Newest(rs[..i])
    {
      assert Front(rs[..i + 1]) == rs[..i];
      newest := Max(newest, rs[i].lastWriteMs);
    }
    assert rs[..|rs|] == rs;
  }

  method Stand(at: Option<nat>, wl: nat, rs: seq<ChunkRecord>) returns (s: Standing)
    ensures s == StandingAt(at, wl, rs)
  {
    hide ConsumedPrefix, Numbers;
    var k := ConsumedPrefix(Numbers(rs), at);
    var newest := Scan(rs);
    var bytes, gap := 0, None;
    if k < |rs| {
      bytes := Less(Last(rs).compStart + Last(rs).compLen, rs[k].compStart);
    }
    if at.Some? && rs != [] && at.value < rs[0].number {
      gap := Some(rs[0].number - at.value);
    }
    return Standing(k, |rs| - k, bytes, Less(newest, wl), gap);
  }

  /** A store's index: numbers that follow on, and frames that do. */
  predicate Dense(rs: seq<ChunkRecord>) {
    |rs| <= 1
    || (rs[1].number == rs[0].number + 1 && rs[1].compStart == rs[0].compStart + rs[0].compLen && Dense(rs[1..]))
  }

  function CompBytes(rs: seq<ChunkRecord>): nat {
    if rs == [] then 0 else rs[0].compLen + CompBytes(rs[1..])
  }

  /** The frames of a dense index lie end to end. */
  lemma {:induction false} DenseSpan(rs: seq<ChunkRecord>)
    requires Dense(rs) && rs != []
    ensures Last(rs).compStart + Last(rs).compLen == rs[0].compStart + CompBytes(rs)
  {
    if |rs| > 1 {
      DenseSpan(rs[1..]);
    }
  }

  lemma {:induction false} DenseNumber(rs: seq<ChunkRecord>, i: nat)
    requires Dense(rs) && i < |rs|
    ensures rs[i].number == rs[0].number + i
  {
    if i > 0 {
      DenseNumber(rs[1..], i - 1);
    }
  }

  lemma {:induction false} DenseFrom(rs: seq<ChunkRecord>, k: nat)
    requires Dense(rs) && k < |rs|
    ensures Dense(rs[k..]) && rs[k..] != [] && rs[k..][0] == rs[k] && Last(rs[k..]) == Last(rs)
    decreases k
  {
    if k == 0 {
      assert rs[0..] == rs;
    } else {
      DenseFrom(rs[1..], k - 1);
      assert rs[1..][k - 1..] == rs[k..];
    }
  }

  /** How many head chunks of a dense index are consumed. */
  lemma {:induction false} ConsumedOf(at: Option<nat>, rs: seq<ChunkRecord>, i: nat)
    requires Dense(rs) && i < |rs|
    ensures var k := ConsumedPrefix(Numbers(rs), at);
            k <= |rs| && (i < k <==> at.Some? && rs[i].number < at.value)
  {
    var ns := Numbers(rs);
    forall a, b | 0 <= a <= b < |ns|
      ensures ns[a] <= ns[b]
    {
      DenseNumber(rs, a);
      DenseNumber(rs, b);
    }
    hide ConsumedPrefix, Dense;
    assert Sorted(ns) && ns[i] == rs[i].number;
  }

  /** The bytes behind are those of the chunks behind. */
  lemma BytesAreExact(rs: seq<ChunkRecord>, k: nat)
    requires Dense(rs) && k <= |rs|
    ensures BytesFrom(rs, k) == CompBytes(rs[k..])
  {
    if k < |rs| {
      hide Dense, CompBytes;
      DenseFrom(rs, k);
      DenseSpan(rs[k..]);
    }
  }

  /** What is held for a consumer is every chunk from its own on, and their bytes are counted exactly. */
  lemma {:induction false} BacklogIsExact(at: Option<nat>, wl: nat, rs: seq<ChunkRecord>, i: nat)
    requires Dense(rs) && i < |rs|
    ensures var s := StandingAt(at, wl, rs);
            && s.consumedChunks + s.behindChunks == |rs|
            && s.behindBytes == CompBytes(rs[s.consumedChunks..])
            && (i >= s.consumedChunks <==> at.None? || rs[i].number >= at.value)
  {
    hide ConsumedPrefix, Numbers, Newest, Dense, BytesFrom, GapOf, CompBytes;
    ConsumedOf(at, rs, i);
    BytesAreExact(rs, ConsumedPrefix(Numbers(rs), at));
  }

  /**
   * The time behind is how far the latest write of any chunk is past the
   * consumer's own, and nothing if it is not; the gap is the numbers from the
   * consumer's chunk to the first one left, where that has gone.
   */
  lemma DistancesAre(at: Option<nat>, wl: nat, rs: seq<ChunkRecord>)
    ensures var s := StandingAt(at, wl, rs);
            && (forall r :: r in rs ==> r.lastWriteMs <= wl + s.behindMs)
            && (s.behindMs > 0 ==> exists r :: r in rs && r.lastWriteMs == wl + s.behindMs)
            && (s.gapChunks.Some? <==> at.Some? && rs != [] && at.value < rs[0].number)
            && (s.gapChunks.Some? ==> s.gapChunks.value > 0 && at.value + s.gapChunks.value == rs[0].number)
  {
    hide ConsumedPrefix, Numbers, BytesFrom;
  }

  /**
   * A gap is where the consumer's own chunk is gone, so dropping only what a
   * consumer has consumed never opens one.
   */
  lemma {:induction false} DroppingConsumedOpensNoGap(at: Option<nat>, wl: nat, rs: seq<ChunkRecord>, k: nat)
    requires Dense(rs) && k <= StandingAt(at, wl, rs).consumedChunks
    ensures StandingAt(at, wl, rs).gapChunks.None? ==> StandingAt(at, wl, rs[k..]).gapChunks.None?
    ensures StandingAt(at, wl, rs).gapChunks.Some? ==> k == 0
  {
    hide ConsumedPrefix, Numbers, Newest, Dense, BytesFrom;
    if rs != [] {
      ConsumedOf(at, rs, 0);
    }
    if 0 < k < |rs| {
      ConsumedOf(at, rs, k - 1);
      DenseNumber(rs, k);
      DenseNumber(rs, k - 1);
      DenseFrom(rs, k);
    }
  }
}
