/**
 * One connection, and when it has no gap and no repeat: to a consumer that
 * names nothing past what it was sent, everything sent from a store is one
 * stretch of tape, and what is owed is exactly what lies past the highest
 * watermark, if and only if no read that sends something starts below that
 * watermark. `History` is what was sent from a store on the connection.
 * `DeliveryGaps` goes on over crashes and to any consumer at all.
 */
module DeliveryRuns {
  import opened Common
  import opened Cursors
  import opened FeedModel
  import opened Delivery

  // --------------------------------------------------- one store, one connection

  /** Where the connection picked the store up, what it was sent, and the highest watermark since. */
  datatype History = History(start: nat, sent: seq<Span>, high: nat)

  function SentEnd(h: History): nat {
    if h.sent == [] then h.start else Last(h.sent).end
  }

  /** Consecutive entries, the first beginning at `from`. */
  ghost predicate Consecutive(sent: seq<Span>, from: nat) {
    sent == [] ||
    (Consecutive(Front(sent), from)
     && Last(sent).begin < Last(sent).end
     && Last(sent).begin == if |sent| == 1 then from else sent[|sent| - 2].end)
  }

  /** The sent entries that end past `at`. */
  function Unacknowledged(sent: seq<Span>, at: nat): seq<Span> {
    if sent == [] then []
    else if Last(sent).end > at then Unacknowledged(Front(sent), at) + [Last(sent)]
    else Unacknowledged(Front(sent), at)
  }

  /**
   * No gap and no repeat so far: what was sent is one stretch of tape from the
   * start, and what is owed is exactly what lies past the highest watermark.
   */
  ghost predicate Good(t: Tracked, offset: nat, h: History) {
    && Consecutive(h.sent, h.start)
    && t.pending == Owed(Unacknowledged(h.sent, h.high))
    && h.start <= h.high <= SentEnd(h) && offset <= h.high
    && (t.taken.Some? ==> t.taken.value <= SentEnd(h))
  }

  /** Where an unparked store is read, its position being recorded at `offset`. */
  function NextRead(t: Tracked, offset: nat): nat {
    if t.taken.Some? then Max(offset, t.taken.value) else offset
  }

  lemma {:induction false} ConsecutiveEnds(sent: seq<Span>, from: nat, i: nat)
    requires Consecutive(sent, from) && i < |sent|
    ensures from < sent[i].end <= Last(sent).end && from <= sent[i].begin
    ensures i < |sent| - 1 ==> sent[i].end <= sent[|sent| - 2].end && sent[i].end <= Last(sent).begin
  {
    if i < |sent| - 1 {
      ConsecutiveEnds(Front(sent), from, i);
      ConsecutiveEnds(Front(sent), from, |sent| - 2);
      assert Front(sent)[i] == sent[i] && Last(Front(sent)) == sent[|sent| - 2];
    } else if |sent| > 1 {
      ConsecutiveEnds(Front(sent), from, |sent| - 2);
      assert Last(Front(sent)) == sent[|sent| - 2];
    }
  }

  lemma {:induction false} LastIsOwed(sent: seq<Span>, at: nat)
    requires sent != [] && Last(sent).end > at
    ensures var ps := Owed(Unacknowledged(sent, at)); ps != [] && Last(ps).end == Last(sent).end
  {
  }

  /**
   * A store that is not parked is read again at or before where its last entry
   * ended, so nothing is skipped; and exactly there, so nothing is repeated, if
   * and only if no watermark has gone back below the highest by more than the
   * consumer has since said it has read.
   */
  lemma NextReadIsExact(t: Tracked, offset: nat, h: History)
    requires Good(t, offset, h) && !Parked(t)
    ensures NextRead(t, offset) <= SentEnd(h)
    ensures NextRead(t, offset) == SentEnd(h) <==> h.high <= NextRead(t, offset)
  {
    if h.sent != [] && Last(h.sent).end > h.high {
      LastIsOwed(h.sent, h.high);
      assert Last(t.pending) in t.pending;
    }
  }

  lemma {:induction false} ConsecutiveConcat(a: seq<Span>, b: seq<Span>, from: nat, mid: nat)
    requires Consecutive(a, from) && Consecutive(b, mid) && mid == (if a == [] then from else Last(a).end)
    ensures Consecutive(a + b, from)
  {
    if b == [] {
      assert a + b == a;
    } else {
      ConsecutiveConcat(a, Front(b), from, mid);
      assert Front(a + b) == a + Front(b);
    }
  }

  lemma {:induction false} NothingAcknowledgedYet(a: seq<Span>, b: seq<Span>, from: nat, at: nat)
    requires Consecutive(b, from) && at <= from
    ensures Unacknowledged(a + b, at) == Unacknowledged(a, at) + b
  {
    if b == [] {
      assert a + b == a;
    } else {
      ConsecutiveEnds(b, from, |b| - 1);
      NothingAcknowledgedYet(a, Front(b), from, at);
      assert Front(a + b) == a + Front(b);
    }
  }

  /** Sending keeps it, when the read starts where the last entry ended. */
  lemma SendKeepsGood(t: Tracked, offset: nat, h: History, batch: seq<Span>)
    requires Good(t, offset, h) && Consecutive(batch, SentEnd(h))
    ensures Good(t.(pending := t.pending + Owed(batch)), offset, h.(sent := h.sent + batch))
    ensures SentEnd(h) <= SentEnd(h.(sent := h.sent + batch))
  {
    ConsecutiveConcat(h.sent, batch, h.start, SentEnd(h));
    NothingAcknowledgedYet(h.sent, batch, SentEnd(h), h.high);
    OwedConcat(Unacknowledged(h.sent, h.high), batch);
    if batch != [] {
      ConsecutiveEnds(batch, SentEnd(h), |batch| - 1);
    } else {
      assert h.sent + batch == h.sent;
    }
  }

  lemma {:induction false} PastOwed(sent: seq<Span>, high: nat, offset: nat)
    ensures Past(Owed(Unacknowledged(sent, high)), offset) == Owed(Unacknowledged(sent, Max(high, offset)))
  {
    if sent != [] {
      PastOwed(Front(sent), high, offset);
      var u, v := Unacknowledged(Front(sent), high), Unacknowledged(Front(sent), Max(high, offset));
      hide Past, Owed;
      OwedSnoc(u, Last(sent), offset);
      OwedSnoc(v, Last(sent), offset);
    }
  }

  lemma OwedSnoc(sent: seq<Span>, s: Span, offset: nat)
    ensures Owed(sent + [s]) == Owed(sent) + [ToPending(s)]
    ensures Past(Owed(sent) + [ToPending(s)], offset)
         == if s.end > offset then Past(Owed(sent), offset) + [ToPending(s)] else Past(Owed(sent), offset)
  {
    assert Front(sent + [s]) == sent;
    assert Front(Owed(sent) + [ToPending(s)]) == Owed(sent);
  }

  function Reported(h: History, offset: nat): History {
    h.(high := Max(h.high, offset))
  }

  /** So does any watermark, forward or back and inside an entry or not, up to the end of what was sent. */
  lemma ReportKeepsGood(t: Tracked, offset: nat, h: History, to: nat, taken: Option<nat>)
    requires Good(t, offset, h) && to <= SentEnd(h) && (taken.Some? ==> taken.value <= SentEnd(h))
    ensures Good(t.(pending := Past(t.pending, to), taken := TakenAfter(t, taken)), to, Reported(h, to))
  {
    PastOwed(h.sent, h.high, to);
  }

  // ------------------------------------------------------------- whole turns

  type Histories = map<Id, History>

  ghost predicate GoodAt(tracked: map<Id, Tracked>, at: map<Id, At>, h: History, id: Id, origin: Id -> nat)
    requires id in tracked
  {
    Good(tracked[id], Recorded(at, id, origin), h) && (tracked[id].taken.Some? ==> id in at)
  }

  /** Every store tracked is in order. */
  ghost predicate AllGood(s: State, hs: Histories, origin: Id -> nat) {
    hs.Keys == s.tracked.Keys && forall id :: id in hs ==> GoodAt(s.tracked, s.at, hs[id], id, origin)
  }

  /** Each answer holds consecutive entries from where each store is read, none for a parked one. */
  ghost predicate AnswersInOrder(s: State, turn: Turn, origin: Id -> nat) {
    forall id :: id in s.tracked || id in turn.stores ==>
      if id in s.tracked && Parked(s.tracked[id]) then SpansOf(turn.frames, id) == []
      else Consecutive(SpansOf(turn.frames, id), ReadFrom(s, id, origin))
  }

  /** No store that is sent something is read from below its highest watermark. */
  ghost predicate ReadsUp(s: State, hs: Histories, turn: Turn, origin: Id -> nat) {
    forall id :: id in hs && SpansOf(turn.frames, id) != [] ==> hs[id].high <= ReadFrom(s, id, origin)
  }

  /** What the histories become when the answer is forwarded. */
  function Sent(s: State, hs: Histories, turn: Turn, origin: Id -> nat): (r: Histories)
    requires hs.Keys == s.tracked.Keys
    ensures forall id :: id in r <==> id in s.tracked || id in turn.stores
    ensures forall id :: id in r ==>
              r[id] == var h := if id in hs then hs[id]
                                else History(Recorded(s.at, id, origin), [], Recorded(s.at, id, origin));
                       h.(sent := h.sent + SpansOf(turn.frames, id))
  {
    map id | id in s.tracked.Keys + (set i | i in turn.stores) ::
      var h := if id in hs then hs[id] else History(Recorded(s.at, id, origin), [], Recorded(s.at, id, origin));
      h.(sent := h.sent + SpansOf(turn.frames, id))
  }

  lemma SpliceKeepsGood(s: State, hs: Histories, turn: Turn, origin: Id -> nat)
    requires AllGood(s, hs, origin) && AnswersInOrder(s, turn, origin) && !AfterSplice(s, turn).failed
    requires ReadsUp(s, hs, turn, origin)
    ensures AllGood(s.(tracked := AfterSplice(s, turn).tracked), Sent(s, hs, turn, origin), origin)
  {
    var a, sp := Announce(MarkHeld(s.tracked), turn.stores), AfterSplice(s, turn);
    var r := Sent(s, hs, turn, origin);
    forall id
      ensures id in r <==> id in sp.tracked
      ensures id in r ==> GoodAt(sp.tracked, s.at, r[id], id, origin)
    {
      SpliceAppends(a, turn.frames, id);
      if id in r {
        SpliceKeepsOne(s, hs, turn, origin, id, a[id], sp.tracked[id]);
      }
    }
  }

  lemma SpliceKeepsOne(s: State, hs: Histories, turn: Turn, origin: Id -> nat, id: Id, t: Tracked, u: Tracked)
    requires AllGood(s, hs, origin) && AnswersInOrder(s, turn, origin) && id in Sent(s, hs, turn, origin)
    requires ReadsUp(s, hs, turn, origin)
    requires t.taken == (if id in s.tracked then s.tracked[id].taken else None)
    requires t.pending == if id in s.tracked then s.tracked[id].pending else []
    requires u.taken == t.taken && u.pending == t.pending + Owed(SpansOf(turn.frames, id))
    ensures Good(u, Recorded(s.at, id, origin), Sent(s, hs, turn, origin)[id]) && (u.taken.Some? ==> id in s.at)
  {
    var o := Recorded(s.at, id, origin);
    var h := if id in hs then hs[id] else History(o, [], o);
    var batch := SpansOf(turn.frames, id);
    assert Good(t, o, h);
    if batch != [] {
      if id in s.tracked {
        NextReadIsExact(s.tracked[id], o, h);
      }
      assert ReadFrom(s, id, origin) == SentEnd(h);
    }
    hide Good;
    SendKeepsGood(t, o, h, batch);
    GoodIgnoresMark(t.(pending := t.pending + Owed(batch)), u, o, h.(sent := h.sent + batch));
  }

  lemma GoodIgnoresMark(t: Tracked, u: Tracked, o: nat, h: History)
    requires Good(t, o, h) && t.pending == u.pending && t.taken == u.taken
    ensures Good(u, o, h)
  {
  }

  /** A consumer that names nothing past what it was sent. */
  ghost predicate Honest(hs: Histories, r: Report) {
    r.Progress? && r.id in hs ==>
      r.offset <= SentEnd(hs[r.id]) && (r.taken.Some? ==> r.taken.value <= SentEnd(hs[r.id]))
  }

  function Heard(hs: Histories, rs: seq<Report>): (r: Histories)
    ensures r.Keys == hs.Keys
    ensures forall id :: id in r ==> r[id].start == hs[id].start && r[id].sent == hs[id].sent
  {
    if rs == [] then hs
    else
      var h, r := Heard(hs, Front(rs)), Last(rs);
      if r.Progress? && r.id in h then h[r.id := Reported(h[r.id], r.offset)] else h
  }

  ghost predicate AllHonest(hs: Histories, rs: seq<Report>) {
    rs == [] || (AllHonest(hs, Front(rs)) && Honest(Heard(hs, Front(rs)), Last(rs)))
  }

  lemma TakeKeepsGood(s: State, hs: Histories, r: Report, origin: Id -> nat)
    requires AllGood(s, hs, origin) && Honest(hs, r)
    ensures AllGood(Take(s, r), if r.Progress? && r.id in hs then hs[r.id := Reported(hs[r.id], r.offset)] else hs, origin)
  {
    if r.Progress? && r.id in hs {
      var u, hs' := Take(s, r), hs[r.id := Reported(hs[r.id], r.offset)];
      forall id | id in hs'
        ensures id in u.tracked && GoodAt(u.tracked, u.at, hs'[id], id, origin)
      {
        if id == r.id {
          ReportKeepsGoodAt(s, hs[id], r, origin);
        } else {
          OthersStayGood(s, hs[id], r, id, origin);
        }
      }
      hide GoodAt, Past, UpTo, NewestChunk, NewestWl, Reported;
    }
  }

  lemma OthersStayGood(s: State, h: History, r: Report, id: Id, origin: Id -> nat)
    requires r.Progress? && r.id in s.tracked && id in s.tracked && id != r.id
    requires GoodAt(s.tracked, s.at, h, id, origin)
    ensures GoodAt(Take(s, r).tracked, Take(s, r).at, h, id, origin)
  {
    hide Good, Past, UpTo, NewestChunk, NewestWl;
  }

  lemma ReportKeepsGoodAt(s: State, h: History, r: Report, origin: Id -> nat)
    requires r.Progress? && r.id in s.tracked && GoodAt(s.tracked, s.at, h, r.id, origin)
    requires r.offset <= SentEnd(h) && (r.taken.Some? ==> r.taken.value <= SentEnd(h))
    ensures GoodAt(Take(s, r).tracked, Take(s, r).at, Reported(h, r.offset), r.id, origin)
  {
    ReportKeepsGood(s.tracked[r.id], Recorded(s.at, r.id, origin), h, r.offset, r.taken);
    hide Good, SentEnd, Past, UpTo, NewestChunk, NewestWl;
  }

  lemma {:induction false} DrainKeepsGood(s: State, hs: Histories, rs: seq<Report>, origin: Id -> nat)
    requires AllGood(s, hs, origin) && AllHonest(hs, rs) && !Drain(s, rs).failed
    ensures AllGood(Drain(s, rs).state, Heard(hs, rs), origin)
  {
    if rs != [] {
      DrainKeepsGood(s, hs, Front(rs), origin);
      TakeKeepsGood(Drain(s, Front(rs)).state, Heard(hs, Front(rs)), Last(rs), origin);
    }
  }

  /** The turn ends up waiting for a report, and gets one. */
  ghost predicate Waits(s: State, turn: Turn) {
    var sp, t := AfterSplice(s, turn), AfterDrain(s, turn);
    sp.sent == 0 && !sp.more && AnyInFlight(t.state.tracked) && turn.wait.Spoke?
  }

  ghost function AfterTurn(s: State, hs: Histories, turn: Turn, origin: Id -> nat): Histories
    requires hs.Keys == s.tracked.Keys
  {
    var h := Heard(Sent(s, hs, turn, origin), turn.reports);
    if Waits(s, turn) then Heard(h, [turn.wait.report] + turn.wait.more) else h
  }

  ghost predicate HonestTurn(s: State, hs: Histories, turn: Turn, origin: Id -> nat)
    requires hs.Keys == s.tracked.Keys
  {
    var sent := Sent(s, hs, turn, origin);
    AllHonest(sent, turn.reports)
    && (Waits(s, turn) ==> AllHonest(Heard(sent, turn.reports), [turn.wait.report] + turn.wait.more))
  }

  lemma ServeKeepsGood(s: State, hs: Histories, turn: Turn, follow: bool, origin: Id -> nat)
    requires AllGood(s, hs, origin) && AnswersInOrder(s, turn, origin) && HonestTurn(s, hs, turn, origin)
    requires ReadsUp(s, hs, turn, origin)
    requires Serve(s, turn, follow).1 != Failed
    ensures AllGood(Serve(s, turn, follow).0, AfterTurn(s, hs, turn, origin), origin)
    ensures var t := Serve(s, turn, follow).0; t.disk == s.disk || t.disk == t.at
  {
    TurnParts(s, turn, follow);
    hide AllGood, AllHonest, AnswersInOrder, ReadsUp, Drain, AfterSplice, Waits, Serve;
    var u, sent := s.(tracked := AfterSplice(s, turn).tracked), Sent(s, hs, turn, origin);
    SpliceKeepsGood(s, hs, turn, origin);
    DrainKeepsGood(u, sent, turn.reports, origin);
    DrainKeepsDisk(u, turn.reports);
    var t := AfterDrain(s, turn).state;
    GoodIgnoresDisk(Drain(u, turn.reports).state, t, Heard(sent, turn.reports), origin);
    if Waits(s, turn) {
      var rs := [turn.wait.report] + turn.wait.more;
      DrainKeepsGood(t, Heard(sent, turn.reports), rs, origin);
      DrainKeepsDisk(t, rs);
      GoodIgnoresDisk(Drain(t, rs).state, Persist(Drain(t, rs).state), AfterTurn(s, hs, turn, origin), origin);
    }
  }

  /** A turn that does not fail, as its drains: one for what had arrived, one more if it waits. */
  lemma TurnParts(s: State, turn: Turn, follow: bool)
    requires Serve(s, turn, follow).1 != Failed
    ensures var u := s.(tracked := AfterSplice(s, turn).tracked);
            var t, d := AfterDrain(s, turn).state, Drain(u, turn.reports);
            && !AfterSplice(s, turn).failed && !d.failed
            && (t == d.state || t == Persist(d.state))
            && (if Waits(s, turn)
                then var e := Drain(t, [turn.wait.report] + turn.wait.more);
                     !e.failed && Serve(s, turn, follow).0 == Persist(e.state)
                else Serve(s, turn, follow).0 == t)
  {
    hide Drain, AfterSplice, AnyInFlight;
  }

  lemma {:induction false} DrainKeepsDisk(s: State, rs: seq<Report>)
    ensures Drain(s, rs).state.disk == s.disk
  {
    if rs != [] {
      DrainKeepsDisk(s, Front(rs));
    }
  }

  lemma GoodIgnoresDisk(s: State, t: State, hs: Histories, origin: Id -> nat)
    requires AllGood(s, hs, origin) && t.tracked == s.tracked && t.at == s.at
    ensures AllGood(t, hs, origin)
  {
  }

  // ------------------------------------------------------ a whole connection

  /** A connection so far. */
  datatype Link = Link(s: State, hs: Histories)

  /** A turn that fails ends the connection. */
  ghost predicate MayServe(l: Link, turn: Turn, follow: bool) {
    l.hs.Keys == l.s.tracked.Keys && RunTurn(l.s, turn, follow).1 != Failed
  }

  ghost function Continued(l: Link, turn: Turn, follow: bool, origin: Id -> nat): Link
    requires l.hs.Keys == l.s.tracked.Keys
  {
    Link(RunTurn(l.s, turn, follow).0, AfterTurn(PickedUp(l.s, turn), l.hs, turn, origin))
  }

  /** `ls` is what a connection goes through, turn by turn, whatever the consumer says. */
  ghost predicate Connection(ls: seq<Link>, turns: seq<Turn>, follow: bool, saved: map<Id, At>, holds: seq<(Id, nat)>,
                             origin: Id -> nat) {
    && |ls| == |turns| + 1 && ls[0] == Link(Connect(saved, holds), map[])
    && forall i :: 0 <= i < |turns| ==>
         MayServe(ls[i], turns[i], follow) && ls[i + 1] == Continued(ls[i], turns[i], follow, origin)
  }

  lemma LinkAfter(ls: seq<Link>, turns: seq<Turn>, follow: bool, saved: map<Id, At>, holds: seq<(Id, nat)>,
                  origin: Id -> nat, n: nat)
    requires Connection(ls, turns, follow, saved, holds, origin) && n < |turns|
    ensures MayServe(ls[n], turns[n], follow) && ls[n + 1] == Continued(ls[n], turns[n], follow, origin)
  {
    hide MayServe, Continued;
  }

  // ------------------------------------------------- one stretch, nothing twice

  /** A store that was sent from without a position is not taken up elsewhere. */
  predicate PicksNew(s: State, turn: Turn) {
    forall c :: c in turn.picked && c.0 in s.tracked ==> c.0 in s.at
  }

  /** The shipper keeps its promise, and the consumer names nothing past what it was sent. */
  ghost predicate Orderly(l: Link, turn: Turn, origin: Id -> nat) {
    var s := PickedUp(l.s, turn);
    && l.hs.Keys == l.s.tracked.Keys
    && PicksNew(l.s, turn) && AnswersInOrder(s, turn, origin) && HonestTurn(s, l.hs, turn, origin)
  }

  ghost predicate LinkReadsUp(l: Link, turn: Turn, origin: Id -> nat) {
    ReadsUp(PickedUp(l.s, turn), l.hs, turn, origin)
  }

  ghost predicate LinkGood(l: Link, origin: Id -> nat) {
    AllGood(l.s, l.hs, origin)
  }

  lemma PickingKeepsGood(s: State, hs: Histories, turn: Turn, origin: Id -> nat)
    requires AllGood(s, hs, origin) && PicksNew(s, turn)
    ensures AllGood(PickedUp(s, turn), hs, origin)
  {
    hide Good, Seeded;
  }

  lemma {:induction false} ConsecutiveAt(sent: seq<Span>, from: nat, i: nat)
    requires Consecutive(sent, from) && i < |sent|
    ensures sent[i].begin == if i == 0 then from else sent[i - 1].end
  {
    if i < |sent| - 1 {
      ConsecutiveAt(Front(sent), from, i);
    }
  }

  /** Entries read from anywhere but where the last one ended do not continue the stretch. */
  lemma ContinuesAtEnd(sent: seq<Span>, batch: seq<Span>, start: nat, from: nat)
    requires Consecutive(sent, start) && Consecutive(batch, from) && batch != []
    ensures Consecutive(sent + batch, start) <==> from == if sent == [] then start else Last(sent).end
  {
    ConsecutiveAt(batch, from, 0);
    if Consecutive(sent + batch, start) {
      ConsecutiveAt(sent + batch, start, |sent|);
    } else if from == (if sent == [] then start else Last(sent).end) {
      ConsecutiveConcat(sent, batch, start, from);
    }
  }

  lemma SentAfterTurn(s: State, hs: Histories, turn: Turn, origin: Id -> nat, id: Id)
    requires hs.Keys == s.tracked.Keys && id in hs
    ensures var r := AfterTurn(s, hs, turn, origin);
            id in r && r[id].start == hs[id].start && r[id].sent == hs[id].sent + SpansOf(turn.frames, id)
  {
    hide Waits;
  }

  /** A turn keeps every store in order if and only if it reads none from below its highest watermark. */
  lemma TurnKeepsGood(l: Link, turn: Turn, follow: bool, origin: Id -> nat)
    requires LinkGood(l, origin) && MayServe(l, turn, follow) && Orderly(l, turn, origin)
    ensures LinkGood(Continued(l, turn, follow, origin), origin) <==> LinkReadsUp(l, turn, origin)
  {
    var s, u := PickedUp(l.s, turn), Continued(l, turn, follow, origin);
    PickingKeepsGood(l.s, l.hs, turn, origin);
    if LinkReadsUp(l, turn, origin) {
      hide AllGood, AnswersInOrder, HonestTurn, Serve, AfterTurn, ReadsUp;
      ServeKeepsGood(s, l.hs, turn, follow, origin);
    } else {
      var id :| id in l.hs && SpansOf(turn.frames, id) != [] && l.hs[id].high > ReadFrom(s, id, origin);
      hide AfterTurn, Serve, HonestTurn;
      ReadsDownRepeats(s, l.hs[id], turn, id, origin);
      SentAfterTurn(s, l.hs, turn, origin, id);
      NotOneStretch(u, id, origin);
    }
  }

  lemma NotOneStretch(l: Link, id: Id, origin: Id -> nat)
    requires id in l.hs && !Consecutive(l.hs[id].sent, l.hs[id].start)
    ensures !LinkGood(l, origin)
  {
    hide Consecutive;
  }

  lemma ReadsDownRepeats(s: State, h: History, turn: Turn, id: Id, origin: Id -> nat)
    requires id in s.tracked && GoodAt(s.tracked, s.at, h, id, origin) && AnswersInOrder(s, turn, origin)
    requires SpansOf(turn.frames, id) != [] && ReadFrom(s, id, origin) < h.high
    ensures !Consecutive(h.sent + SpansOf(turn.frames, id), h.start)
  {
    NextReadIsExact(s.tracked[id], Recorded(s.at, id, origin), h);
    ContinuesAtEnd(h.sent, SpansOf(turn.frames, id), h.start, ReadFrom(s, id, origin));
    hide SpansOf, Parked, Consecutive;
  }

  lemma LinkStep(ls: seq<Link>, turns: seq<Turn>, follow: bool, saved: map<Id, At>, holds: seq<(Id, nat)>,
                 origin: Id -> nat, n: nat)
    requires Connection(ls, turns, follow, saved, holds, origin) && n < |turns| && Orderly(ls[n], turns[n], origin)
    ensures LinkGood(ls[n], origin) ==> (LinkGood(ls[n + 1], origin) <==> LinkReadsUp(ls[n], turns[n], origin))
  {
    LinkAfter(ls, turns, follow, saved, holds, origin, n);
    hide LinkGood, LinkReadsUp, Orderly, MayServe, Continued;
    if LinkGood(ls[n], origin) {
      TurnKeepsGood(ls[n], turns[n], follow, origin);
    }
  }

  /**
   * All through a connection, everything sent is one stretch of tape and what
   * is owed is exactly what lies past the highest watermark, for every store,
   * if and only if no read that sent something started below that watermark.
   */
  lemma {:induction false} StretchesAreExactly(ls: seq<Link>, turns: seq<Turn>, follow: bool, saved: map<Id, At>,
                                               holds: seq<(Id, nat)>, origin: Id -> nat, n: nat)
    requires Connection(ls, turns, follow, saved, holds, origin) && n < |ls|
    requires forall i :: 0 <= i < n ==> Orderly(ls[i], turns[i], origin)
    ensures (forall i :: 0 <= i <= n ==> LinkGood(ls[i], origin))
            <==> (forall i :: 0 <= i < n ==> LinkReadsUp(ls[i], turns[i], origin))
  {
    if n == 0 {
      assert LinkGood(ls[0], origin);
    } else {
      StretchesAreExactly(ls, turns, follow, saved, holds, origin, n - 1);
      LinkStep(ls, turns, follow, saved, holds, origin, n - 1);
    }
    hide Connection, LinkGood, LinkReadsUp, Orderly;
  }

  // --------------------------------------- a consumer that does not go back

  /** Never an offset below one it named before. */
  ghost predicate GoesOn(hs: Histories, r: Report) {
    r.Progress? && r.id in hs ==> hs[r.id].high <= r.offset
  }

  ghost predicate AllGoOn(hs: Histories, rs: seq<Report>) {
    rs == [] || (AllGoOn(hs, Front(rs)) && GoesOn(Heard(hs, Front(rs)), Last(rs)))
  }

  ghost predicate GoesOnTurn(s: State, hs: Histories, turn: Turn, origin: Id -> nat)
    requires hs.Keys == s.tracked.Keys
  {
    var sent := Sent(s, hs, turn, origin);
    AllGoOn(sent, turn.reports)
    && (Waits(s, turn) ==> AllGoOn(Heard(sent, turn.reports), [turn.wait.report] + turn.wait.more))
  }

  /** Every store is recorded at its highest watermark. */
  ghost predicate AtHighest(s: State, hs: Histories, origin: Id -> nat) {
    hs.Keys == s.tracked.Keys && forall id :: id in hs ==> Recorded(s.at, id, origin) == hs[id].high
  }

  lemma {:induction false} DrainAtHighest(s: State, hs: Histories, rs: seq<Report>, origin: Id -> nat)
    requires AtHighest(s, hs, origin) && AllGoOn(hs, rs) && !Drain(s, rs).failed
    ensures AtHighest(Drain(s, rs).state, Heard(hs, rs), origin)
  {
    if rs != [] {
      DrainAtHighest(s, hs, Front(rs), origin);
      hide Past, UpTo, NewestChunk, NewestWl;
    }
  }

  lemma SpliceAtHighest(s: State, hs: Histories, turn: Turn, origin: Id -> nat)
    requires AtHighest(s, hs, origin)
    ensures AtHighest(s.(tracked := AfterSplice(s, turn).tracked), Sent(s, hs, turn, origin), origin)
  {
    SplicedKeys(s, turn);
    hide AfterSplice, Recorded, SpansOf;
  }

  lemma ServeAtHighest(s: State, hs: Histories, turn: Turn, follow: bool, origin: Id -> nat)
    requires AtHighest(s, hs, origin) && GoesOnTurn(s, hs, turn, origin) && Serve(s, turn, follow).1 != Failed
    ensures AtHighest(Serve(s, turn, follow).0, AfterTurn(s, hs, turn, origin), origin)
  {
    TurnParts(s, turn, follow);
    var u, sent := s.(tracked := AfterSplice(s, turn).tracked), Sent(s, hs, turn, origin);
    SpliceAtHighest(s, hs, turn, origin);
    hide AllGoOn, Drain, AfterSplice, Waits, Serve, Sent, Recorded, AfterDrain;
    DrainAtHighest(u, sent, turn.reports, origin);
    if Waits(s, turn) {
      DrainAtHighest(AfterDrain(s, turn).state, Heard(sent, turn.reports), [turn.wait.report] + turn.wait.more, origin);
    }
  }

  lemma SplicedKeys(s: State, turn: Turn)
    ensures forall id :: id in AfterSplice(s, turn).tracked <==> id in s.tracked || id in turn.stores
  {
    forall id
      ensures id in AfterSplice(s, turn).tracked <==> id in s.tracked || id in turn.stores
    {
      SpliceAppends(Announce(MarkHeld(s.tracked), turn.stores), turn.frames, id);
    }
  }

  lemma PickingKeepsHighest(s: State, hs: Histories, turn: Turn, origin: Id -> nat)
    requires AtHighest(s, hs, origin) && PicksNew(s, turn)
    ensures AtHighest(PickedUp(s, turn), hs, origin)
  {
    hide Seeded;
  }

  /** A store recorded at its highest watermark is not read from below it. */
  lemma HighestReadsUp(s: State, hs: Histories, turn: Turn, origin: Id -> nat)
    requires AllGood(s, hs, origin) && AtHighest(s, hs, origin)
    ensures ReadsUp(s, hs, turn, origin)
  {
    hide Good, SpansOf;
    forall id | id in hs
      ensures hs[id].high <= ReadFrom(s, id, origin)
    {
      assert GoodAt(s.tracked, s.at, hs[id], id, origin);
    }
  }

  /** Such a consumer is never read from below its highest watermark, and stays at it. */
  lemma GoingOnReadsUp(l: Link, turn: Turn, follow: bool, origin: Id -> nat)
    requires LinkGood(l, origin) && AtHighest(l.s, l.hs, origin) && MayServe(l, turn, follow) && Orderly(l, turn, origin)
    requires GoesOnTurn(PickedUp(l.s, turn), l.hs, turn, origin)
    ensures LinkReadsUp(l, turn, origin)
    ensures AtHighest(Continued(l, turn, follow, origin).s, Continued(l, turn, follow, origin).hs, origin)
  {
    var s := PickedUp(l.s, turn);
    hide AllGood, AtHighest, Serve, AfterTurn, GoesOnTurn, HonestTurn, AnswersInOrder, ReadsUp, PicksNew;
    PickingKeepsGood(l.s, l.hs, turn, origin);
    PickingKeepsHighest(l.s, l.hs, turn, origin);
    HighestReadsUp(s, l.hs, turn, origin);
    ServeAtHighest(s, l.hs, turn, follow, origin);
  }

  ghost predicate LinkGoesOn(l: Link, turn: Turn, origin: Id -> nat) {
    l.hs.Keys == l.s.tracked.Keys && GoesOnTurn(PickedUp(l.s, turn), l.hs, turn, origin)
  }

  lemma {:induction false} AlwaysGood(ls: seq<Link>, turns: seq<Turn>, follow: bool, saved: map<Id, At>,
                                      holds: seq<(Id, nat)>, origin: Id -> nat, n: nat)
    requires Connection(ls, turns, follow, saved, holds, origin) && n < |ls|
    requires forall i :: 0 <= i < n ==> Orderly(ls[i], turns[i], origin) && LinkGoesOn(ls[i], turns[i], origin)
    ensures LinkGood(ls[n], origin) && AtHighest(ls[n].s, ls[n].hs, origin)
  {
    if n > 0 {
      var m: nat := n - 1;
      AlwaysGood(ls, turns, follow, saved, holds, origin, m);
      LinkAfter(ls, turns, follow, saved, holds, origin, m);
      GoingOnReadsUp(ls[m], turns[m], follow, origin);
      TurnKeepsGood(ls[m], turns[m], follow, origin);
    }
    hide LinkGood, MayServe, Continued, Orderly, LinkReadsUp;
  }

  /**
   * So, for such a consumer and every store: what was sent is one stretch of
   * tape, what is owed is exactly the entries of it past the recorded position,
   * and a store not parked is read again exactly where that stretch ends.
   */
  lemma NothingIsRepeated(ls: seq<Link>, turns: seq<Turn>, follow: bool, saved: map<Id, At>,
                          holds: seq<(Id, nat)>, origin: Id -> nat, n: nat, id: Id)
    requires Connection(ls, turns, follow, saved, holds, origin) && n < |ls| && id in ls[n].hs
    requires forall i :: 0 <= i < n ==> Orderly(ls[i], turns[i], origin) && LinkGoesOn(ls[i], turns[i], origin)
    ensures id in ls[n].s.tracked
    ensures var s, h := ls[n].s, ls[n].hs[id];
            && Consecutive(h.sent, h.start)
            && s.tracked[id].pending == Owed(Unacknowledged(h.sent, Recorded(s.at, id, origin)))
            && (!Parked(s.tracked[id]) ==> ReadFrom(s, id, origin) == SentEnd(h))
  {
    AlwaysGood(ls, turns, follow, saved, holds, origin, n);
    var s, h := ls[n].s, ls[n].hs[id];
    assert GoodAt(s.tracked, s.at, h, id, origin);
    if !Parked(s.tracked[id]) {
      NextReadIsExact(s.tracked[id], Recorded(s.at, id, origin), h);
    }
    hide Connection, Orderly, LinkGoesOn;
  }

  // ------------------------------------------ nothing sent is lost sight of

  /** Of any consumer: an entry sent is owed, or lies within the highest watermark. */
  ghost predicate AllAccounted(s: State, hs: Histories) {
    hs.Keys == s.tracked.Keys && forall id :: id in hs ==> Accounted(s.tracked[id].pending, hs[id])
  }

  predicate Accounted(ps: seq<Pending>, h: History) {
    forall e :: e in h.sent ==> ToPending(e) in ps || e.end <= h.high
  }

  lemma SendAccounted(ps: seq<Pending>, h: History, batch: seq<Span>)
    requires Accounted(ps, h)
    ensures Accounted(ps + Owed(batch), h.(sent := h.sent + batch))
  {
    forall e | e in batch
      ensures ToPending(e) in Owed(batch)
    {
      var i :| 0 <= i < |batch| && batch[i] == e;
      assert Owed(batch)[i] == ToPending(e);
    }
  }

  lemma SpliceAccounted(s: State, hs: Histories, turn: Turn, origin: Id -> nat)
    requires AllAccounted(s, hs) && !AfterSplice(s, turn).failed
    ensures AllAccounted(s.(tracked := AfterSplice(s, turn).tracked), Sent(s, hs, turn, origin))
  {
    var a, r := Announce(MarkHeld(s.tracked), turn.stores), Sent(s, hs, turn, origin);
    forall id
      ensures id in r <==> id in AfterSplice(s, turn).tracked
      ensures id in r ==> Accounted(AfterSplice(s, turn).tracked[id].pending, r[id])
    {
      SpliceAppends(a, turn.frames, id);
      if id in r {
        var o := Recorded(s.at, id, origin);
        SendAccounted(a[id].pending, if id in hs then hs[id] else History(o, [], o), SpansOf(turn.frames, id));
      }
      hide SpansOf, Accounted, AfterSplice;
    }
  }

  lemma {:induction false} DrainAccounted(s: State, hs: Histories, rs: seq<Report>)
    requires AllAccounted(s, hs) && !Drain(s, rs).failed
    ensures AllAccounted(Drain(s, rs).state, Heard(hs, rs))
  {
    if rs != [] {
      DrainAccounted(s, hs, Front(rs));
      TakeAccounted(Drain(s, Front(rs)).state, Heard(hs, Front(rs)), Last(rs));
    }
  }

  lemma TakeAccounted(s: State, hs: Histories, r: Report)
    requires AllAccounted(s, hs)
    ensures AllAccounted(Take(s, r), if r.Progress? && r.id in hs then hs[r.id := Reported(hs[r.id], r.offset)] else hs)
  {
    if r.Progress? && r.id in hs {
      assert Accounted(s.tracked[r.id].pending, hs[r.id]);
    }
    hide UpTo, NewestChunk, NewestWl, Past;
  }

  lemma ServeAccounted(s: State, hs: Histories, turn: Turn, follow: bool, origin: Id -> nat)
    requires AllAccounted(s, hs) && Serve(s, turn, follow).1 != Failed
    ensures AllAccounted(Serve(s, turn, follow).0, AfterTurn(s, hs, turn, origin))
  {
    TurnParts(s, turn, follow);
    var u, sent := s.(tracked := AfterSplice(s, turn).tracked), Sent(s, hs, turn, origin);
    SpliceAccounted(s, hs, turn, origin);
    hide Drain, AfterSplice, Waits, Serve, Sent, Accounted;
    DrainAccounted(u, sent, turn.reports);
    if Waits(s, turn) {
      DrainAccounted(AfterDrain(s, turn).state, Heard(sent, turn.reports), [turn.wait.report] + turn.wait.more);
    }
  }

  lemma TurnAccounted(l: Link, turn: Turn, follow: bool, origin: Id -> nat)
    requires MayServe(l, turn, follow) && AllAccounted(l.s, l.hs)
    ensures var u := Continued(l, turn, follow, origin); AllAccounted(u.s, u.hs)
  {
    hide Serve, AfterTurn, Accounted, Seeded;
    ServeAccounted(PickedUp(l.s, turn), l.hs, turn, follow, origin);
  }

  lemma {:induction false} AlwaysAccounted(ls: seq<Link>, turns: seq<Turn>, follow: bool, saved: map<Id, At>,
                                           holds: seq<(Id, nat)>, origin: Id -> nat, n: nat)
    requires Connection(ls, turns, follow, saved, holds, origin) && n < |ls|
    ensures AllAccounted(ls[n].s, ls[n].hs)
  {
    if n > 0 {
      var m: nat := n - 1;
      AlwaysAccounted(ls, turns, follow, saved, holds, origin, m);
      LinkAfter(ls, turns, follow, saved, holds, origin, m);
      hide AllAccounted, MayServe, Continued;
      TurnAccounted(ls[m], turns[m], follow, origin);
    }
  }
}
