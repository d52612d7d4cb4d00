/**
 * What the feeding loop guarantees over its turns, given what it is told of
 * the shipper: an answer holds, for each store that is not parked, at most one
 * batch of consecutive entries from where that store is read, and nothing for
 * a parked one.
 */
module Delivery {
  import opened Common
  import opened Cursors
  import opened FeedModel

  // ------------------------------------------------- one answer, one store

  /** An entry as sent: where it lies on the tape and what was said of it. */
  datatype Span = Span(begin: nat, end: nat, chunk: Option<nat>, wl: nat)

  function SpansOf(frames: seq<Frame>, id: Id): seq<Span> {
    if frames == [] then []
    else
      var f := Last(frames);
      SpansOf(Front(frames), id)
        + if f.Entry? && WellFormed(f) && f.id.value == id
          then [Span(f.offset.value, PendingOf(f).end, f.chunk, PendingOf(f).wl)]
          else []
  }

  function ToPending(s: Span): Pending {
    Pending(s.end, s.chunk, s.wl)
  }

  function Owed(sent: seq<Span>): (ps: seq<Pending>)
    ensures |ps| == |sent|
    ensures forall i :: 0 <= i < |sent| ==> ps[i] == ToPending(sent[i])
  {
    if sent == [] then [] else Owed(Front(sent)) + [ToPending(Last(sent))]
  }

  lemma OwedConcat(a: seq<Span>, b: seq<Span>)
    ensures Owed(a + b) == Owed(a) + Owed(b)
  {
  }

  /** Splicing appends a store's entries to what it is owed, and touches nothing else. */
  lemma {:induction false} SpliceAppends(tracked: map<Id, Tracked>, frames: seq<Frame>, id: Id)
    ensures var s := Splice(tracked, frames);
            && s.tracked.Keys == tracked.Keys
            && (id in tracked ==>
                  var t := s.tracked[id];
                  && t.taken == tracked[id].taken
                  && |t.pending| <= |tracked[id].pending| + |SpansOf(frames, id)|
                  && (!s.failed ==> t.pending == tracked[id].pending + Owed(SpansOf(frames, id))))
            && (s.sent == 0 && !s.failed ==> SpansOf(frames, id) == [])
  {
    if frames == [] {
      assert id in tracked ==> tracked[id].pending + [] == tracked[id].pending;
    } else {
      SpliceAppends(tracked, Front(frames), id);
      SpliceOneAppends(tracked, Front(frames), Last(frames), id);
    }
  }

  lemma SpliceOneAppends(tracked: map<Id, Tracked>, frames: seq<Frame>, f: Frame, id: Id)
    ensures var s := Splice(tracked, frames);
            var r := SpliceOne(s, f);
            var mine := !s.failed && f.Entry? && WellFormed(f) && f.id.value == id;
            && (s.tracked.Keys == tracked.Keys ==> r.tracked.Keys == tracked.Keys)
            && (id in s.tracked ==>
                  r.tracked[id] == if mine then s.tracked[id].(pending := s.tracked[id].pending + [PendingOf(f)])
                                   else s.tracked[id])
            && (s.failed ==> r.failed) && (r.sent == 0 ==> s.sent == 0 && (s.failed || !mine))
  {
    hide Splice;
  }

  // ----------------------------------------------- what is remembered is bounded

  /** The shipper's side of a turn: at most `batch` entries a store, none for a parked one. */
  ghost predicate Answers(s: State, turn: Turn, batch: nat) {
    forall id :: id in s.tracked || id in turn.stores ==>
      |SpansOf(turn.frames, id)| <= if id in s.tracked && Parked(s.tracked[id]) then 0 else batch
  }

  ghost predicate Within(t: Tracked, batch: nat) {
    |t.pending| + 1 <= 2_000_000 + batch && (t.taken.None? ==> |t.pending| <= batch)
  }

  ghost predicate Bounded(tracked: map<Id, Tracked>, batch: nat) {
    forall id :: id in tracked ==> Within(tracked[id], batch)
  }

  lemma SpliceBounded(s: State, turn: Turn, batch: nat)
    requires Bounded(s.tracked, batch) && Answers(s, turn, batch)
    ensures Bounded(AfterSplice(s, turn).tracked, batch)
  {
    var a := Announce(MarkHeld(s.tracked), turn.stores);
    forall id | id in AfterSplice(s, turn).tracked
      ensures Within(AfterSplice(s, turn).tracked[id], batch)
    {
      SpliceAppends(a, turn.frames, id);
      if id in s.tracked && !Parked(s.tracked[id]) {
        var t := s.tracked[id];
        assert |t.pending| == InFlight(t) + Holding(t);
      }
    }
  }

  lemma {:induction false} DrainBounded(s: State, rs: seq<Report>, batch: nat)
    requires Bounded(s.tracked, batch)
    ensures Bounded(Drain(s, rs).state.tracked, batch)
  {
    if rs != [] {
      DrainBounded(s, Front(rs), batch);
      hide Drain;
    }
  }

  lemma AfterDrainBounded(s: State, turn: Turn, batch: nat)
    requires Bounded(AfterSplice(s, turn).tracked, batch)
    ensures Bounded(AfterDrain(s, turn).state.tracked, batch)
  {
    hide AfterSplice, Drain, Bounded;
    DrainBounded(s.(tracked := AfterSplice(s, turn).tracked), turn.reports, batch);
  }

  lemma TurnBounded(s: State, turn: Turn, follow: bool, batch: nat)
    requires Bounded(s.tracked, batch) && Answers(s, turn, batch)
    ensures Bounded(RunTurn(s, turn, follow).0.tracked, batch)
  {
    var t := PickedUp(s, turn);
    SpliceBounded(t, turn, batch);
    AfterDrainBounded(t, turn, batch);
    if turn.wait.Spoke? {
      DrainBounded(AfterDrain(t, turn).state, [turn.wait.report] + turn.wait.more, batch);
    }
    hide AfterSplice, AfterDrain, Drain, Bounded, Answers, AnyInFlight, Seeded;
  }

  /** Any run of turns from an empty table, with any reports, in any state of the consumer. */
  function Turns(s: State, turns: seq<Turn>, follow: bool): State {
    if turns == [] then s else RunTurn(Turns(s, Front(turns), follow), Last(turns), follow).0
  }

  ghost predicate AllAnswered(s: State, turns: seq<Turn>, follow: bool, batch: nat) {
    turns == [] || (AllAnswered(s, Front(turns), follow, batch)
                    && Answers(Turns(s, Front(turns), follow), Last(turns), batch))
  }

  /** For any consumer: a store's list stays under the cap plus one batch, and at one batch if it never says `taken`. */
  lemma {:induction false} PendingIsBounded(s: State, turns: seq<Turn>, follow: bool, batch: nat)
    requires s.tracked == map[] && AllAnswered(s, turns, follow, batch)
    ensures Bounded(Turns(s, turns, follow).tracked, batch)
  {
    if turns != [] {
      PendingIsBounded(s, Front(turns), follow, batch);
      TurnBounded(Turns(s, Front(turns), follow), Last(turns), follow, batch);
      hide RunTurn, Bounded, Answers;
    }
  }

  // --------------------------------------------------- where a read starts

  /** Where a store is recorded to stand, in memory or on disk; `origin` is where one with no position is read from. */
  function Recorded(at: map<Id, At>, id: Id, origin: Id -> nat): nat {
    if id in at then at[id].offset else origin(id)
  }

  /** Where the next read of a store starts: its position, or further on if the consumer has read further. */
  function ReadFrom(s: State, id: Id, origin: Id -> nat): nat {
    var taken := if id in s.tracked then s.tracked[id].taken else None;
    var floor := if id in s.at then s.at[id].offset else 0;
    if taken.Some? && taken.value > floor then taken.value else Recorded(s.at, id, origin)
  }
}
