/**
 * A one-shot that ends because it is drained: what that promises of the
 * selection, and the store at the held cap for which it does not.
 */
module OneShot {
  import opened Common
  import opened Cursors
  import opened FeedModel
  import opened Delivery
  import opened DeliveryRuns
  import opened DeliveryGaps

  ghost predicate AtCap(s: State) {
    exists id :: id in s.tracked && Holding(s.tracked[id]) >= 2_000_000
  }

  /** No bound cut the read short, so a store it covered and sent nothing from had nothing left. */
  ghost predicate ReadToTheEnd(s: State, turn: Turn, tapeEnd: map<Id, nat>, origin: Id -> nat) {
    forall id :: id in tapeEnd && !(id in s.tracked && Parked(s.tracked[id])) && SpansOf(turn.frames, id) == [] ==>
      tapeEnd[id] <= ReadFrom(s, id, origin)
  }

  /** The read a drained exit rests on left a store out if and only if some store was at the cap. */
  lemma DrainedReadWasWhole(s: State, turn: Turn)
    requires RunTurn(s, turn, false).1 == Drained
    ensures (forall id :: id in s.tracked ==> !Parked(s.tracked[id])) <==> !AtCap(s)
    ensures forall id :: SpansOf(turn.frames, id) == []
    ensures !AnyInFlight(RunTurn(s, turn, false).0.tracked)
  {
    hide Drain, Splice, Holding, InFlight, Announce, MarkHeld;
    assert !AnyInFlight(s.tracked);
    forall id
      ensures SpansOf(turn.frames, id) == []
    {
      SpliceAppends(Announce(MarkHeld(s.tracked), turn.stores), turn.frames, id);
    }
  }

  /**
   * So, with no store at the cap, every byte any store held when the run ended
   * was sent, from where the store was first taken up, and nothing sent is
   * left that the consumer has neither taken nor acknowledged.
   */
  lemma OneShotIsComplete(ws: seq<World>, es: seq<Happening>, saved: map<Id, At>, n: nat,
                          turn: Turn, origin: Id -> nat, tapeEnd: map<Id, nat>, id: Id, b: nat)
    requires Lived(ws, es, saved) && n < |ws| && forall i :: 0 <= i < n ==> Keeps(ws[i], es[i])
    requires RunTurn(ws[n].s, turn, false).1 == Drained && !AtCap(ws[n].s)
    requires ReadToTheEnd(PickedUp(ws[n].s, turn), turn, tapeEnd, origin)
    requires TakesUp(ws[n], PickedUp(ws[n].s, turn).at, origin)
    requires id in tapeEnd
    ensures var x := ExtentOf(ws[n].seen, PickedUp(ws[n].s, turn), id, origin);
            x.first <= b < tapeEnd[id] ==> WasSent(x.log, b)
    ensures !AnyInFlight(RunTurn(ws[n].s, turn, false).0.tracked)
  {
    hide Keeps, RunTurn, TakesUp, AnyInFlight, ReadFrom, SpansOf, NoGap, Lived, Parked, AtCap, PickedUp, ExtentOf;
    NothingIsSkipped(ws, es, saved, n);
    DrainedReadWasWhole(ws[n].s, turn);
    ReadAtMost(ws[n], turn, origin, id);
    PickedTracks(ws[n].s, turn);
  }

  lemma PickedTracks(s: State, turn: Turn)
    ensures PickedUp(s, turn).tracked == s.tracked
  {
  }

  /** And, for any consumer, each entry the connection sent lies within its highest watermark or was taken. */
  lemma EverySentIsTaken(ls: seq<Link>, turns: seq<Turn>, saved: map<Id, At>, holds: seq<(Id, nat)>,
                         origin: Id -> nat, n: nat, turn: Turn, id: Id, e: Span)
    requires Connection(ls, turns, false, saved, holds, origin) && n < |ls|
    requires MayServe(ls[n], turn, false) && RunTurn(ls[n].s, turn, false).1 == Drained
    requires var l := Continued(ls[n], turn, false, origin); id in l.hs && e in l.hs[id].sent
    ensures var l := Continued(ls[n], turn, false, origin);
            && id in l.s.tracked
            && (e.end <= l.hs[id].high
                || (l.s.tracked[id].taken.Some? && e.end <= l.s.tracked[id].taken.value))
  {
    var l := Continued(ls[n], turn, false, origin);
    AlwaysAccounted(ls, turns, false, saved, holds, origin, n);
    TurnAccounted(ls[n], turn, false, origin);
    DrainedReadWasWhole(ls[n].s, turn);
    hide RunTurn, AfterTurn, Connection, SpansOf;
    assert Accounted(l.s.tracked[id].pending, l.hs[id]);
    assert InFlight(l.s.tracked[id]) == 0;
  }

  /** Where watermarks do not go back, that is within the recorded position or taken. */
  lemma EverySentIsRecorded(ls: seq<Link>, turns: seq<Turn>, saved: map<Id, At>, holds: seq<(Id, nat)>,
                            origin: Id -> nat, n: nat, turn: Turn, id: Id, e: Span)
    requires Connection(ls, turns, false, saved, holds, origin) && n < |ls|
    requires forall i :: 0 <= i < n ==> Orderly(ls[i], turns[i], origin) && LinkGoesOn(ls[i], turns[i], origin)
    requires MayServe(ls[n], turn, false) && RunTurn(ls[n].s, turn, false).1 == Drained
    requires Orderly(ls[n], turn, origin) && LinkGoesOn(ls[n], turn, origin)
    requires var l := Continued(ls[n], turn, false, origin); id in l.hs && e in l.hs[id].sent
    ensures var s := Continued(ls[n], turn, false, origin).s;
            && id in s.tracked
            && (e.end <= Recorded(s.at, id, origin)
                || (s.tracked[id].taken.Some? && e.end <= s.tracked[id].taken.value))
  {
    hide Connection, Orderly, MayServe, LinkGood, RunTurn, AfterTurn, Recorded, GoesOnTurn;
    EverySentIsTaken(ls, turns, saved, holds, origin, n, turn, id, e);
    AlwaysGood(ls, turns, false, saved, holds, origin, n);
    GoingOnReadsUp(ls[n], turn, false, origin);
  }
}
