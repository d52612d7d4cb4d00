/**
 * The sending end of a replication connection (src/frames.rs): a stream per
 * store, numbered as they are offered, and what is made of each answer. Then
 * both ends together over two channels that keep their order.
 */
module FramesSender {
  import opened Common
  import opened LittleEndian
  import opened FrameModel
  import opened Cursors
  import R = FramesReceiver

  /** The newest chunk put on the wire, and where it ends. */
  datatype LastSent = LastSent(number: nat, offset: nat, lastWriteMs: nat)

  datatype Stream = Stream(
    wire: u32, store: Id, acked: seq<Run>, lastSent: Option<LastSent>, undeclared: nat)

  // -------------------------------------------------------- values and steps

  /** The place of a stream in the list, or the list's length. */
  function PlaceOf(live: seq<Stream>, wire: u32): (i: nat)
    ensures i <= |live|
    ensures i < |live| ==> live[i].wire == wire
    ensures forall j :: 0 <= j < i ==> live[j].wire != wire
  {
    if live == [] then 0 else if live[0].wire == wire then 0 else 1 + PlaceOf(live[1..], wire)
  }

  function Acked(live: seq<Stream>, f: Framed): seq<Stream> {
    var i := PlaceOf(live, f.stream);
    if f.frame.CoverageOf? && i < |live| then live[i := live[i].(acked := f.frame.runs)] else live
  }

  function Kept(live: seq<Stream>, f: Framed): seq<Stream> {
    var i := PlaceOf(live, f.stream);
    if f.frame.Conflict? && i < |live| then live[..i] + live[i + 1..] else live
  }

  function HighestEnd(runs: seq<Run>): (h: Option<nat>)
    ensures h.Some? <==> runs != []
    ensures forall r :: r in runs ==> r.end <= h.value
    ensures h.Some? ==> exists r :: r in runs && r.end == h.value
  {
    if runs == [] then None
    else
      assert runs == Front(runs) + [Last(runs)];
      MaxOption(HighestEnd(Front(runs)), Some(Last(runs).end))
  }

  /** Whether a stream's acknowledgement has caught up with what it was sent, and says something new. */
  predicate Caught(s: Stream, held: map<Id, At>) {
    && HighestEnd(s.acked).Some? && s.lastSent.Some? && s.lastSent.value.number == HighestEnd(s.acked).value
    && !(s.undeclared == 0 && s.store in held && held[s.store].chunk == HighestEnd(s.acked))
  }

  datatype Saved = Saved(live: seq<Stream>, held: map<Id, At>, changed: bool)

  function SaveOne(v: Saved, i: nat): Saved
    requires i < |v.live|
  {
    var s := v.live[i];
    if !Caught(s, v.held) then v
    else
      var at := AdvancedAt(Find(v.held, s.store), s.lastSent.value.offset, HighestEnd(s.acked),
                           s.lastSent.value.lastWriteMs, s.undeclared);
      Saved(v.live[i := s.(undeclared := 0)], v.held[s.store := at], true)
  }

  function Save(v: Saved, n: nat): (r: Saved)
    requires n <= |v.live|
    ensures |r.live| == |v.live|
  {
    if n == 0 then v else SaveOne(Save(v, n - 1), n - 1)
  }

  /** An acknowledgement is filed with the first stream of its number and changes nothing else. */
  lemma AckedIs(live: seq<Stream>, f: Framed, j: nat)
    requires j < |live|
    ensures |Acked(live, f)| == |live|
    ensures Acked(live, f)[j]
         == if f.frame.CoverageOf? && live[j].wire == f.stream && (forall k :: 0 <= k < j ==> live[k].wire != f.stream)
            then live[j].(acked := f.frame.runs) else live[j]
  {
  }

  /** A refusal takes the stream of its number, and no other. */
  lemma KeptIs(live: seq<Stream>, f: Framed)
    requires forall i, j :: 0 <= i < j < |live| ==> live[i].wire != live[j].wire
    ensures forall s :: s in Kept(live, f) <==> s in live && !(f.frame.Conflict? && s.wire == f.stream)
    ensures |live| - 1 <= |Kept(live, f)| <= |live|
  {
    var i, kept := PlaceOf(live, f.stream), Kept(live, f);
    forall s | s in live && !(f.frame.Conflict? && s.wire == f.stream)
      ensures s in kept
    {
      var j :| 0 <= j < |live| && live[j] == s;
      if f.frame.Conflict? && i < |live| {
        assert kept[if j < i then j else j - 1] == s;
      }
    }
    forall s | s in kept
      ensures s in live && !(f.frame.Conflict? && s.wire == f.stream)
    {
      var j :| 0 <= j < |kept| && kept[j] == s;
      if f.frame.Conflict? && i < |live| {
        assert s == live[if j < i then j else j + 1];
      }
    }
  }

  /**
   * A stream is recorded when the newest chunk it was sent is the greatest end
   * of what is acknowledged, unless the record already says so and nothing was
   * sent since.
   */
  lemma CaughtIs(s: Stream, held: map<Id, At>)
    ensures Caught(s, held) <==>
              && s.lastSent.Some?
              && (exists r :: r in s.acked && r.end == s.lastSent.value.number)
              && (forall r :: r in s.acked ==> r.end <= s.lastSent.value.number)
              && (s.undeclared > 0 || s.store !in held || held[s.store].chunk != Some(s.lastSent.value.number))
  {
  }

  predicate OwnStores(live: seq<Stream>) {
    forall i, j :: 0 <= i < j < |live| ==> live[i].store != live[j].store
  }

  /**
   * A pass of saving, each stream being for its own store: of the first `n`,
   * those that have caught up are recorded, with the end of what they were
   * sent last, and owe no count any more; nothing else changes.
   */
  lemma {:induction false} SavedAre(v: Saved, n: nat, i: nat)
    requires n <= |v.live| && i < |v.live| && OwnStores(v.live)
    ensures SavedIs(v, Save(v, n), i, i < n && Caught(v.live[i], v.held))
  {
    if n > 0 {
      var m: nat := n - 1;
      var u := Save(v, m);
      SavedAre(v, m, i);
      SavedAre(v, m, m);
      hide Caught, AdvancedAt, HighestEnd, SavedIs, OwnStores, Save;
      assert Save(v, n) == SaveOne(u, m) by {
        SaveLast(v, n);
      }
      SaveOneIs(v, u, m, i, i < m && Caught(v.live[i], v.held));
    }
  }

  /** What a pass has made of stream `i`, whether it had `news` or not. */
  predicate SavedIs(v: Saved, r: Saved, i: nat, news: bool)
    requires i < |v.live|
  {
    var s := v.live[i];
    && |r.live| == |v.live|
    && r.live[i] == (if news then s.(undeclared := 0) else s)
    && (news ==> s.lastSent.Some?)
    && Find(r.held, s.store)
       == if news then Some(AdvancedAt(Find(v.held, s.store), s.lastSent.value.offset, Some(s.lastSent.value.number),
                                       s.lastSent.value.lastWriteMs, s.undeclared))
          else Find(v.held, s.store)
  }

  lemma SaveLast(v: Saved, n: nat)
    requires 0 < n <= |v.live|
    ensures Save(v, n) == SaveOne(Save(v, n - 1), n - 1)
  {
  }

  lemma SaveOneIs(v: Saved, u: Saved, m: nat, i: nat, news: bool)
    requires i < |v.live| && m < |v.live| && OwnStores(v.live)
    requires SavedIs(v, u, i, news) && SavedIs(v, u, m, false) && (i == m ==> !news)
    ensures |u.live| == |v.live| && SavedIs(v, SaveOne(u, m), i, news || (i == m && Caught(v.live[i], v.held)))
  {
    SameCaught(u.live[m], u.held, v.held);
    CaughtAtEnd(v.live[m], v.held);
    hide Caught, AdvancedAt, HighestEnd;
    assert i < m ==> v.live[i].store != v.live[m].store;
    assert m < i ==> v.live[m].store != v.live[i].store;
  }

  lemma SameCaught(s: Stream, held: map<Id, At>, was: map<Id, At>)
    requires Find(held, s.store) == Find(was, s.store)
    ensures Caught(s, held) == Caught(s, was)
  {
    hide HighestEnd;
  }

  lemma CaughtAtEnd(s: Stream, held: map<Id, At>)
    ensures Caught(s, held) ==> s.lastSent.Some? && HighestEnd(s.acked) == Some(s.lastSent.value.number)
  {
    hide HighestEnd;
  }

  // ------------------------------------------------------------- the objects

  class Sender {
    var live: seq<Stream>
    var nextWire: u32

    constructor ()
      ensures live == [] && nextWire == 0
    {
      live, nextWire := [], 0;
    }

    method Position(wire: u32) returns (i: nat)
      ensures i == PlaceOf(live, wire)
    {
      i := 0;
      while i < |live| && live[i].wire != wire
        invariant i <= |live| && PlaceOf(live, wire) == i + PlaceOf(live[i..], wire)
      {
        assert live[i..][1..] == live[i + 1..];
        i := i + 1;
      }
    }

    method NoteAck(f: Framed) returns (noted: bool)
      modifies this`live
      ensures live == Acked(old(live), f)
      ensures noted <==> f.frame.CoverageOf? && PlaceOf(old(live), f.stream) < |old(live)|
    {
      if !f.frame.CoverageOf? {
        return false;
      }
      var i := Position(f.stream);
      if i == |live| {
        return false;
      }
      live := live[i := live[i].(acked := f.frame.runs)];
      return true;
    }

    method NoteConflict(f: Framed) returns (gone: Option<(Stream, seq<byte>)>)
      modifies this`live
      ensures live == Kept(old(live), f)
      ensures gone == var i := PlaceOf(old(live), f.stream);
                      if f.frame.Conflict? && i < |old(live)| then Some((old(live)[i], f.frame.reason)) else None
    {
      if !f.frame.Conflict? {
        return None;
      }
      var i := Position(f.stream);
      if i == |live| {
        return None;
      }
      gone := Some((live[i], f.frame.reason));
      live := live[..i] + live[i + 1..];
    }

    static method Highest(runs: seq<Run>) returns (h: Option<nat>)
      ensures h == HighestEnd(runs)
    {
      h := None;
      for i := 0 to |runs|
        invariant h == HighestEnd(runs[..i])
      {
        assert Front(runs[..i + 1]) == runs[..i];
        h := MaxOption(h, Some(runs[i].end));
      }
      assert runs[..|runs|] == runs;
    }

    method SavePositions(held: Positions) returns (changed: bool)
      modifies this`live, held
      ensures Saved(live, held.at, changed) == Save(Saved(old(live), old(held.at), false), |old(live)|)
    {
      changed := false;
      ghost var v := Saved(live, held.at, false);
      for i := 0 to |live|
        invariant |live| == |v.live| && Saved(live, held.at, changed) == Save(v, i)
      {
        var s := live[i];
        var last := Highest(s.acked);
        if last.None? || s.lastSent.None? || s.lastSent.value.number != last.value {
          continue;
        }
        if s.undeclared == 0 && s.store in held.at && held.at[s.store].chunk == last {
          continue;
        }
        held.Advance(s.store, s.lastSent.value.offset, last, s.lastSent.value.lastWriteMs, s.undeclared);
        live := live[i := s.(undeclared := 0)];
        changed := true;
      }
    }
  }
}
