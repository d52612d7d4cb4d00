/**
 * How a turn of the feeding loop ends, in terms of what was shipped, said and
 * owed: when it goes again, ends, gives up or fails, and what it has then
 * moved. And what is kept of what a consumer says, over any reports.
 */
module FeedTurns {
  import opened Common
  import opened Cursors
  import opened FeedModel
  import opened Delivery

  // ------------------------------------------------------- what an answer says

  /** An entry that names no store, or no place to acknowledge. */
  predicate Malformed(f: Frame) {
    f.Entry? && (f.id.None? || f.offset.None? || f.len.None?)
  }

  /** A bound stopped the read: so the last bracket of the answer says. */
  predicate CutShort(frames: seq<Frame>) {
    exists i :: 0 <= i < |frames| && frames[i] == StreamEnd(true)
                && forall j :: i < j < |frames| ==> !frames[j].StreamEnd?
  }

  lemma {:induction false} SpliceSays(tracked: map<Id, Tracked>, frames: seq<Frame>)
    ensures var s := Splice(tracked, frames);
            && (s.failed <==> exists f :: f in frames && Malformed(f))
            && (!s.failed ==> (s.sent > 0 <==> exists f :: f in frames && f.Entry?) && (s.more <==> CutShort(frames)))
  {
    if frames != [] {
      var front, f := Front(frames), Last(frames);
      assert frames == front + [f];
      SpliceSays(tracked, front);
      assert f in frames;
      CutShortLast(frames);
      hide CutShort, Splice;
      SpliceLast(tracked, frames);
    }
  }

  lemma SpliceLast(tracked: map<Id, Tracked>, frames: seq<Frame>)
    requires frames != []
    ensures Splice(tracked, frames) == SpliceOne(Splice(tracked, Front(frames)), Last(frames))
  {
  }

  lemma CutShortLast(frames: seq<Frame>)
    requires frames != []
    ensures CutShort(frames) <==> if Last(frames).StreamEnd? then Last(frames).limited else CutShort(Front(frames))
  {
    var front := Front(frames);
    if Last(frames).StreamEnd? {
      assert Last(frames).limited ==> frames[|frames| - 1] == StreamEnd(true);
    } else if CutShort(front) {
      var i :| 0 <= i < |front| && front[i] == StreamEnd(true) && forall j :: i < j < |front| ==> !front[j].StreamEnd?;
      assert frames[i] == StreamEnd(true);
    }
  }

  /** Reports are refused for one reason: a second hello. */
  lemma {:induction false} DrainFails(s: State, rs: seq<Report>)
    ensures Drain(s, rs).failed <==> Hello in rs
  {
    if rs != [] {
      assert rs == Front(rs) + [Last(rs)];
      DrainFails(s, Front(rs));
      hide Take;
    }
  }

  /** In flight: sent, and ending past what the consumer says it has taken and what it has acknowledged. */
  predicate Flying(t: Tracked) {
    exists p :: p in t.pending && (t.taken.None? || p.end > t.taken.value)
  }

  lemma FlyingIs(t: Tracked)
    ensures InFlight(t) > 0 <==> Flying(t)
  {
    if t.taken.None? {
      assert t.pending != [] ==> t.pending[0] in t.pending;
    } else {
      var past := Past(t.pending, t.taken.value);
      assert past != [] ==> past[0] in past;
    }
  }

  predicate SomeFlying(tracked: map<Id, Tracked>) {
    exists id :: id in tracked && Flying(tracked[id])
  }

  lemma SomeFlyingIs(tracked: map<Id, Tracked>)
    ensures AnyInFlight(tracked) <==> SomeFlying(tracked)
  {
    forall id | id in tracked
      ensures InFlight(tracked[id]) > 0 <==> Flying(tracked[id])
    {
      FlyingIs(tracked[id]);
    }
    hide InFlight, Flying;
  }

  // ------------------------------------------------------------ how a turn ends

  /** Nothing went wrong with the answer or with what was said while it was forwarded. */
  predicate Fine(turn: Turn) {
    (forall f :: f in turn.frames ==> !Malformed(f)) && Hello !in turn.reports
  }

  /** And there was nothing to send. */
  predicate Idle(turn: Turn) {
    Fine(turn) && (forall f :: f in turn.frames ==> !f.Entry?) && !CutShort(turn.frames)
  }

  /** Where a turn stands once what was said has been drained. */
  function AfterReports(s: State, turn: Turn): State {
    AfterDrain(PickedUp(s, turn), turn).state
  }

  /**
   * A turn that went wrong fails, one that sent something goes again; else it
   * turns on what is in flight. A follower never ends. A one-shot ends drained
   * when nothing is in flight and nothing was when it read, and gives up when
   * something is and its consumer has been silent too long.
   */
  lemma TurnEnds(s: State, turn: Turn, follow: bool)
    ensures var (t, outcome) := RunTurn(s, turn, follow);
            var before, after := SomeFlying(s.tracked), SomeFlying(AfterReports(s, turn).tracked);
            && (outcome == Failed <==>
                  || !Fine(turn)
                  || (Idle(turn) && after
                      && (turn.wait == Gone || (turn.wait.Spoke? && Hello in [turn.wait.report] + turn.wait.more))))
            && (outcome == Drained <==> !follow && Idle(turn) && !after && !before)
            && (outcome == GaveUp <==> !follow && Idle(turn) && after && turn.wait == Silent(true))
  {
    var p := PickedUp(s, turn);
    var u := p.(tracked := AfterSplice(p, turn).tracked);
    SpliceSays(Announce(MarkHeld(s.tracked), turn.stores), turn.frames);
    DrainFails(u, turn.reports);
    SomeFlyingIs(s.tracked);
    SomeFlyingIs(AfterReports(s, turn).tracked);
    if turn.wait.Spoke? {
      DrainFails(AfterReports(s, turn), [turn.wait.report] + turn.wait.more);
    }
    hide Splice, Drain, AnyInFlight, SomeFlying, CutShort, Seeded, Announce, MarkHeld, Malformed;
  }

  /** A turn that ends moves nothing after its drain, and one that does not wait for a report neither. */
  lemma EndMovesNothing(s: State, turn: Turn, follow: bool)
    ensures var (t, outcome) := RunTurn(s, turn, follow);
            (outcome == Drained || outcome == GaveUp || (Fine(turn) && !turn.wait.Spoke?)) ==>
              t == AfterReports(s, turn)
  {
    var p := PickedUp(s, turn);
    var u := p.(tracked := AfterSplice(p, turn).tracked);
    SpliceSays(Announce(MarkHeld(s.tracked), turn.stores), turn.frames);
    DrainFails(u, turn.reports);
    hide Splice, Drain, AnyInFlight, CutShort, Seeded, Announce, MarkHeld, Malformed;
  }

  // ---------------------------------------------- what is kept of what is said

  /** A report that moves something: a watermark of a store sent from, or a note not on record. */
  predicate Moves(s: State, r: Report) {
    (r.Progress? && r.id in s.tracked) || r == Note(true)
  }

  lemma {:induction false} DrainMoves(s: State, rs: seq<Report>)
    ensures var t := Drain(s, rs);
            && t.state.tracked.Keys == s.tracked.Keys && t.state.disk == s.disk
            && (!t.failed ==> (t.moved <==> exists r :: r in rs && Moves(s, r)))
            && (!t.failed && !t.moved ==> t.state == s)
  {
    if rs != [] {
      assert rs == Front(rs) + [Last(rs)];
      DrainMoves(s, Front(rs));
      hide UpTo, Past, NewestChunk, NewestWl;
      assert Last(rs) in rs && forall r :: r in rs <==> r in Front(rs) || r == Last(rs);
    }
  }

  /** What moved is written; where nothing moved nothing is. */
  lemma MovedIsWritten(s: State, rs: seq<Report>)
    requires Hello !in rs
    ensures var t := Settle(s, rs).state;
            if exists r :: r in rs && Moves(s, r) then t.disk == t.at else t == s
  {
    DrainFails(s, rs);
    DrainMoves(s, rs);
    hide Drain;
  }

  predicate Told(rs: seq<Report>, id: Id, v: nat) {
    exists r :: r in rs && r.Progress? && r.id == id && r.taken == Some(v)
  }

  /** `x` is the greatest of what was known and what is told, if anything is. */
  ghost predicate Greatest(x: Option<nat>, was: Option<nat>, rs: seq<Report>, id: Id) {
    && (x.None? <==> was.None? && !exists v: nat :: Told(rs, id, v))
    && (x.Some? ==> && (x == was || Told(rs, id, x.value))
                    && (was.Some? ==> was.value <= x.value)
                    && forall v: nat :: Told(rs, id, v) ==> v <= x.value)
  }

  lemma GreatestStep(t: Tracked, was: Option<nat>, rs: seq<Report>, id: Id)
    requires rs != [] && Greatest(t.taken, was, Front(rs), id)
    ensures var r := Last(rs);
            Greatest(if r.Progress? && r.id == id then TakenAfter(t, r.taken) else t.taken, was, rs, id)
  {
    var r := Last(rs);
    forall v: nat
      ensures Told(rs, id, v) <==> Told(Front(rs), id, v) || (r.Progress? && r.id == id && r.taken == Some(v))
    {
      ToldLast(rs, id, v);
    }
    hide Told;
    assert r.Progress? && r.taken.Some? ==> Told(rs, r.id, r.taken.value);
  }

  /** What a store is known to have taken is the greatest its consumer has said, and never less than before. */
  lemma {:induction false} TakenIsGreatest(s: State, rs: seq<Report>, id: Id)
    requires id in s.tracked && Hello !in rs
    ensures id in Drain(s, rs).state.tracked
    ensures Greatest(Drain(s, rs).state.tracked[id].taken, s.tracked[id].taken, rs, id)
  {
    if rs != [] {
      assert rs == Front(rs) + [Last(rs)];
      TakenIsGreatest(s, Front(rs), id);
      DrainStep(s, rs);
      GreatestStep(Drain(s, Front(rs)).state.tracked[id], s.tracked[id].taken, rs, id);
      hide Greatest, Drain, TakenAfter, UpTo, Past, NewestChunk, NewestWl;
    }
  }

  lemma DrainStep(s: State, rs: seq<Report>)
    requires rs != [] && Hello !in rs
    ensures Drain(s, rs).state == Take(Drain(s, Front(rs)).state, Last(rs))
  {
    DrainFails(s, Front(rs));
    hide Take;
  }

  lemma ToldLast(rs: seq<Report>, id: Id, v: nat)
    requires rs != []
    ensures var r := Last(rs);
            Told(rs, id, v) <==> Told(Front(rs), id, v) || (r.Progress? && r.id == id && r.taken == Some(v))
  {
    assert rs == Front(rs) + [Last(rs)];
    assert Last(rs) in rs;
  }

  /** The greatest write time told is kept, of those the position had and the watermark covers. */
  lemma NewestWlIs(ps: seq<Pending>)
    ensures forall p :: p in ps ==> p.wl <= NewestWl(ps)
    ensures NewestWl(ps) == 0 || exists p :: p in ps && p.wl == NewestWl(ps)
  {
    if ps != [] {
      assert ps == Front(ps) + [Last(ps)];
      NewestWlIs(Front(ps));
    }
  }

  /**
   * A watermark is recorded as it is told, going back or not. The chunk and the
   * write time beside it are the greatest of those recorded before and those
   * of the entries it covers.
   */
  lemma WatermarkRecords(s: State, id: Id, offset: nat, taken: Option<nat>)
    requires id in s.tracked
    ensures id in Watermark(s, id, offset, taken).at
    ensures var a, ps := Watermark(s, id, offset, taken).at[id], s.tracked[id].pending;
            var was := if id in s.at then s.at[id] else At(offset, None, 0, 0);
            && a.offset == offset
            && a.delivered == was.delivered + |ps| - |Watermark(s, id, offset, taken).tracked[id].pending|
            && was.wl <= a.wl && (forall p :: p in ps && p.end <= offset ==> p.wl <= a.wl)
            && (a.wl == was.wl || exists p :: p in ps && p.end <= offset && p.wl == a.wl)
            && (was.chunk.Some? ==> a.chunk.Some? && was.chunk.value <= a.chunk.value)
            && (forall p :: p in ps && p.end <= offset && p.chunk.Some? ==> a.chunk.Some? && p.chunk.value <= a.chunk.value)
            && (a.chunk == was.chunk || exists p :: p in ps && p.end <= offset && p.chunk == a.chunk)
  {
    NewestWlIs(UpTo(s.tracked[id].pending, offset));
    hide UpTo, Past, NewestChunk, NewestWl;
  }

  /** So over any reports a position's chunk, write time and count never go down. */
  lemma {:induction false} PositionsGrow(s: State, rs: seq<Report>, id: Id)
    requires id in s.at
    ensures id in Drain(s, rs).state.at
    ensures var a, was := Drain(s, rs).state.at[id], s.at[id];
            && was.wl <= a.wl && was.delivered <= a.delivered
            && (was.chunk.Some? ==> a.chunk.Some? && was.chunk.value <= a.chunk.value)
  {
    if rs != [] {
      PositionsGrow(s, Front(rs), id);
      var t, r := Drain(s, Front(rs)), Last(rs);
      if !t.failed && r.Progress? && r.id in t.state.tracked {
        WatermarkRecords(t.state, r.id, r.offset, r.taken);
      }
      hide UpTo, Past, NewestChunk, NewestWl;
    }
  }
}
