/**
 * Delivery without gap, for any consumer: over turns that end well or fail,
 * ends of streams, crashes and new connections, nothing between where a store
 * was first taken up and the furthest entry sent is skipped, as long as nobody
 * puts the store past what was sent: the consumer by a watermark, by what it
 * says it has taken or by a claim, or the policy that takes a store up at its
 * end. Watermarks may go back and may fall inside an entry. And nothing is sent
 * twice exactly as long as each read starts where the last entry sent ended.
 */
module DeliveryGaps {
  import opened Common
  import opened Cursors
  import opened FeedModel
  import opened Delivery
  import opened DeliveryRuns

  /** What has been sent of a store over every connection: from where, how far, and which entries. */
  datatype Extent = Extent(first: nat, top: nat, log: seq<Span>)

  /** The process and what it has written, and everything sent by it and those before it. */
  datatype World = World(s: State, seen: map<Id, Extent>)

  /** A crash may come at any point; what follows it is a new connection. */
  datatype Happening =
    | Served(turn: Turn, follow: bool, origin: Id -> nat)
    | Ended(reports: seq<Report>)
    | Connected(holds: seq<(Id, nat)>)

  predicate WasSent(log: seq<Span>, x: nat) {
    exists i :: 0 <= i < |log| && log[i].begin <= x < log[i].end
  }

  /** Every byte of the extent was sent, in one entry or another. */
  ghost predicate Whole(x: Extent) {
    forall b :: x.first <= b < x.top ==> WasSent(x.log, b)
  }

  // ------------------------------------------------------------- what happens

  /** What of an answer is forwarded: all of it, up to anything malformed. */
  function Forwarded(frames: seq<Frame>): seq<Frame> {
    if frames == [] then []
    else
      var f := Forwarded(Front(frames));
      if |f| + 1 == |frames| && WellFormed(Last(frames)) then f + [Last(frames)] else f
  }

  function Batch(turn: Turn, id: Id): seq<Span> {
    SpansOf(Forwarded(turn.frames), id)
  }

  /** The shipper's promise: consecutive entries from where each store is read, none for a parked one. */
  ghost predicate Ships(s: State, turn: Turn, origin: Id -> nat) {
    forall id ::
      if id !in s.tracked && id !in turn.stores then Batch(turn, id) == []
      else if id in s.tracked && Parked(s.tracked[id]) then Batch(turn, id) == []
      else Consecutive(Batch(turn, id), ReadFrom(s, id, origin))
  }

  function ExtentOf(seen: map<Id, Extent>, s: State, id: Id, origin: Id -> nat): Extent {
    if id in seen then seen[id] else Extent(Recorded(s.at, id, origin), Recorded(s.at, id, origin), [])
  }

  function Grown(x: Extent, batch: seq<Span>): Extent {
    Extent(x.first, if batch == [] then x.top else Max(x.top, Last(batch).end), x.log + batch)
  }

  /** A store is seen from when it is announced or taken up on. */
  function SeenAfter(w: World, turn: Turn, origin: Id -> nat): (r: map<Id, Extent>)
    ensures forall id :: id in r <==>
              id in w.seen || id in turn.stores || exists c :: c in turn.picked && c.0 == id
    ensures forall id :: id in r ==>
              r[id] == Grown(ExtentOf(w.seen, PickedUp(w.s, turn), id, origin), Batch(turn, id))
  {
    map id | id in w.seen.Keys + (set i | i in turn.stores) + (set c | c in turn.picked :: c.0) ::
      Grown(ExtentOf(w.seen, PickedUp(w.s, turn), id, origin), Batch(turn, id))
  }

  function Happen(w: World, e: Happening): World {
    match e
    case Served(turn, follow, origin) => World(RunTurn(w.s, turn, follow).0, SeenAfter(w, turn, origin))
    case Ended(reports) => w.(s := Settle(w.s, reports).state)
    case Connected(holds) => w.(s := Connect(w.s.disk, holds))
  }

  ghost predicate MayHappen(w: World, e: Happening) {
    e.Served? ==> Ships(PickedUp(w.s, e.turn), e.turn, e.origin)
  }

  function Initial(saved: map<Id, At>): World {
    World(State(map[], saved, saved), map[])
  }

  /** `ws` are the worlds `es` leads through. */
  ghost predicate Lived(ws: seq<World>, es: seq<Happening>, saved: map<Id, At>) {
    && |ws| == |es| + 1 && ws[0] == Initial(saved)
    && forall i :: 0 <= i < |es| ==> MayHappen(ws[i], es[i]) && ws[i + 1] == Happen(ws[i], es[i])
  }

  // -------------------------------------------------- who may put a store where

  /** A report names nothing past what was sent. */
  predicate Modest(r: Report, seen: map<Id, Extent>) {
    r.Progress? && r.id in seen ==>
      r.offset <= seen[r.id].top && (r.taken.Some? ==> r.taken.value <= seen[r.id].top)
  }

  predicate AllModest(rs: seq<Report>, seen: map<Id, Extent>) {
    forall r :: r in rs ==> Modest(r, seen)
  }

  /** Whatever the consumer may be heard to say in a turn. */
  function Said(turn: Turn): seq<Report> {
    turn.reports + if turn.wait.Spoke? then [turn.wait.report] + turn.wait.more else []
  }

  /** Every store seen that has no position is read from, or taken up, no further than what was sent. */
  predicate TakesUp(w: World, at: map<Id, At>, origin: Id -> nat) {
    forall id :: id in w.seen && id !in w.s.at ==> Recorded(at, id, origin) <= w.seen[id].top
  }

  /** Nobody puts a store past what was sent of it. */
  predicate Keeps(w: World, e: Happening) {
    match e
    case Served(turn, _, origin) =>
      TakesUp(w, PickedUp(w.s, turn).at, origin) && AllModest(Said(turn), SeenAfter(w, turn, origin))
    case Ended(reports) => AllModest(reports, w.seen)
    case Connected(holds) => forall c :: c in holds && c.0 in w.seen && c.0 !in w.s.disk ==> c.1 <= w.seen[c.0].top
  }

  // ------------------------------------------------------------ the invariant

  /** Nothing on record of a store lies past `top`. */
  predicate AtMost(s: State, id: Id, top: nat) {
    && (id in s.at ==> s.at[id].offset <= top)
    && (id in s.disk ==> s.disk[id].offset <= top)
    && (id in s.tracked && s.tracked[id].taken.Some? ==> s.tracked[id].taken.value <= top)
  }

  /** Nothing was sent past the extent. */
  predicate Ends(x: Extent) {
    x.first <= x.top && forall i :: 0 <= i < |x.log| ==> x.log[i].end <= x.top
  }

  /** True of any run: what is tracked was seen, and what was not has nothing in memory that is not written. */
  ghost predicate Sound(w: World) {
    && (forall id :: id in w.s.tracked ==> id in w.seen)
    && (forall id :: id in w.seen ==> Ends(w.seen[id]))
    && (forall id :: id !in w.seen ==> Find(w.s.at, id) == Find(w.s.disk, id))
  }

  /** No store has a gap, and none can get one from where it stands. */
  ghost predicate NoGap(w: World) {
    Sound(w) && forall id :: id in w.seen ==> Whole(w.seen[id]) && AtMost(w.s, id, w.seen[id].top)
  }

  predicate ReportsAtMost(rs: seq<Report>, id: Id, top: nat) {
    forall r :: r in rs && r.Progress? && r.id == id ==>
      r.offset <= top && (r.taken.Some? ==> r.taken.value <= top)
  }

  lemma {:induction false} DrainAtMost(s: State, rs: seq<Report>, id: Id, top: nat)
    requires AtMost(s, id, top) && ReportsAtMost(rs, id, top)
    ensures AtMost(Drain(s, rs).state, id, top)
  {
    if rs != [] {
      DrainAtMost(s, Front(rs), id, top);
      hide Drain, Past, UpTo, NewestChunk, NewestWl;
      assert rs == Front(rs) + [Last(rs)];
      DrainLast(s, rs);
    }
  }

  lemma DrainLast(s: State, rs: seq<Report>)
    requires rs != []
    ensures var t := Drain(s, Front(rs));
            Drain(s, rs).state == if t.failed || Last(rs).Hello? then t.state else Take(t.state, Last(rs))
  {
    hide Take;
  }

  lemma SettleAtMost(s: State, rs: seq<Report>, id: Id, top: nat)
    requires AtMost(s, id, top) && ReportsAtMost(rs, id, top)
    ensures AtMost(Settle(s, rs).state, id, top)
  {
    hide Drain;
    DrainAtMost(s, rs, id, top);
  }

  /** The states a turn may end in: forwarded, settled, or told more while it waited. */
  lemma ServeEnds(s: State, turn: Turn, follow: bool)
    ensures var t, u := Serve(s, turn, follow).0, s.(tracked := AfterSplice(s, turn).tracked);
            var v := Settle(u, turn.reports).state;
            || t == u || t == v
            || (turn.wait.Spoke?
                && var w := Drain(v, [turn.wait.report] + turn.wait.more).state;
                   t == w || t == Persist(w))
  {
    hide AfterSplice, Drain, Settle, AnyInFlight;
  }

  /** A turn, failed or not, leaves nothing on record past what it was told. */
  lemma ServeAtMost(s: State, turn: Turn, follow: bool, id: Id, top: nat)
    requires AtMost(s, id, top) && ReportsAtMost(Said(turn), id, top)
    ensures AtMost(Serve(s, turn, follow).0, id, top)
  {
    var u := s.(tracked := AfterSplice(s, turn).tracked);
    SpliceAppends(Announce(MarkHeld(s.tracked), turn.stores), turn.frames, id);
    assert AtMost(u, id, top);
    ServeEnds(s, turn, follow);
    hide AfterSplice, Drain, Settle, Serve, AtMost;
    assert forall r :: r in turn.reports ==> r in Said(turn);
    SettleAtMost(u, turn.reports, id, top);
    if turn.wait.Spoke? {
      var rs := [turn.wait.report] + turn.wait.more;
      assert forall r :: r in rs ==> r in Said(turn);
      DrainAtMost(Settle(u, turn.reports).state, rs, id, top);
      PersistAtMost(Drain(Settle(u, turn.reports).state, rs).state, id, top);
    }
  }

  lemma PersistAtMost(s: State, id: Id, top: nat)
    requires AtMost(s, id, top)
    ensures AtMost(Persist(s), id, top)
  {
  }

  // ------------------------------------------------------- what a batch covers

  lemma {:induction false} ConsecutiveCovers(log: seq<Span>, sent: seq<Span>, from: nat, x: nat)
    requires Consecutive(sent, from) && sent != [] && from <= x < Last(sent).end
    ensures WasSent(log + sent, x)
  {
    if x >= Last(sent).begin {
      assert (log + sent)[|log| + |sent| - 1] == Last(sent);
    } else {
      ConsecutiveCovers(log, Front(sent), from, x);
      var i :| 0 <= i < |log + Front(sent)| && (log + Front(sent))[i].begin <= x < (log + Front(sent))[i].end;
      assert (log + sent)[i] == (log + Front(sent))[i];
    }
  }

  lemma EndsGrows(x: Extent, batch: seq<Span>, from: nat)
    requires Ends(x) && Consecutive(batch, from)
    ensures Ends(Grown(x, batch))
  {
    forall i | 0 <= i < |batch|
      ensures batch[i].end <= Last(batch).end
    {
      ConsecutiveEnds(batch, from, i);
    }
  }

  /** A batch leaves the extent whole if and only if it begins no further than what was sent. */
  lemma BatchLeavesNoGap(x: Extent, batch: seq<Span>, from: nat)
    requires Whole(x) && Ends(x) && Consecutive(batch, from)
    ensures Whole(Grown(x, batch)) <==> batch == [] || from <= x.top
  {
    var y := Grown(x, batch);
    if batch == [] {
      assert y == x by {
        assert x.log + [] == x.log;
      }
    } else if from <= x.top {
      forall b | y.first <= b < y.top
        ensures WasSent(y.log, b)
      {
        if b < x.top {
          assert WasSent(x.log, b);
          var i :| 0 <= i < |x.log| && x.log[i].begin <= b < x.log[i].end;
          assert y.log[i] == x.log[i];
        } else {
          ConsecutiveCovers(x.log, batch, from, b);
        }
      }
    } else {
      ConsecutiveEnds(batch, from, |batch| - 1);
      if WasSent(y.log, x.top) {
        var i :| 0 <= i < |y.log| && y.log[i].begin <= x.top < y.log[i].end;
        if i >= |x.log| {
          ConsecutiveEnds(batch, from, i - |x.log|);
        }
        assert false;
      }
    }
  }

  // ----------------------------------------------------------------- one step

  lemma {:induction false} DrainElsewhere(s: State, rs: seq<Report>, id: Id)
    requires id !in s.tracked
    ensures Drain(s, rs).state.tracked.Keys == s.tracked.Keys
    ensures Find(Drain(s, rs).state.at, id) == Find(s.at, id) && Drain(s, rs).state.disk == s.disk
  {
    if rs != [] {
      hide UpTo, Past, NewestChunk, NewestWl;
      DrainElsewhere(s, Front(rs), id);
    }
  }

  lemma SettleElsewhere(s: State, rs: seq<Report>, id: Id)
    requires id !in s.tracked
    ensures var t := Settle(s, rs).state;
            && t.tracked.Keys == s.tracked.Keys && Find(t.at, id) == Find(s.at, id)
            && (Find(t.disk, id) == Find(s.disk, id) || Find(t.disk, id) == Find(s.at, id))
  {
    hide Drain;
    DrainElsewhere(s, rs, id);
  }

  /** A store nobody mentions keeps its position, and what is written of it is its position. */
  lemma ServeElsewhere(s: State, turn: Turn, follow: bool, id: Id)
    requires id !in s.tracked && id !in turn.stores
    ensures var t := Serve(s, turn, follow).0;
            && id !in t.tracked && Find(t.at, id) == Find(s.at, id)
            && (Find(t.disk, id) == Find(s.disk, id) || Find(t.disk, id) == Find(s.at, id))
  {
    var u := s.(tracked := AfterSplice(s, turn).tracked);
    SpliceAppends(Announce(MarkHeld(s.tracked), turn.stores), turn.frames, id);
    assert u.tracked.Keys == Announce(MarkHeld(s.tracked), turn.stores).Keys;
    ServeEnds(s, turn, follow);
    hide AfterSplice, Drain, Serve, Settle, Find;
    SettleElsewhere(u, turn.reports, id);
    if turn.wait.Spoke? {
      DrainElsewhere(Settle(u, turn.reports).state, [turn.wait.report] + turn.wait.more, id);
    }
  }

  lemma StartsWhole(x: nat)
    ensures Whole(Extent(x, x, [])) && Ends(Extent(x, x, []))
  {
  }

  lemma ExtentEnds(w: World, turn: Turn, origin: Id -> nat, id: Id)
    requires Sound(w)
    ensures Ends(ExtentOf(w.seen, PickedUp(w.s, turn), id, origin))
  {
    hide PickedUp;
  }

  /** A batch follows on from where its store is read. */
  lemma BatchIsConsecutive(s: State, turn: Turn, origin: Id -> nat, id: Id)
    requires Ships(s, turn, origin)
    ensures Consecutive(Batch(turn, id), ReadFrom(s, id, origin))
  {
    hide Batch, ReadFrom;
  }

  lemma ServedSound(w: World, turn: Turn, follow: bool, origin: Id -> nat)
    requires Sound(w) && MayHappen(w, Served(turn, follow, origin))
    ensures Sound(Happen(w, Served(turn, follow, origin)))
  {
    var s, u := PickedUp(w.s, turn), Happen(w, Served(turn, follow, origin));
    forall id
      ensures id in u.seen ==> Ends(u.seen[id])
      ensures id !in u.seen ==> id !in u.s.tracked && Find(u.s.at, id) == Find(u.s.disk, id)
    {
      if id in u.seen {
        ExtentEnds(w, turn, origin, id);
        BatchIsConsecutive(s, turn, origin, id);
        EndsGrows(ExtentOf(w.seen, s, id, origin), Batch(turn, id), ReadFrom(s, id, origin));
      } else {
        ServeElsewhere(s, turn, follow, id);
        PickedElsewhere(w.s, turn, id);
      }
      hide Serve, Ends, Batch, ExtentOf, ReadFrom, Consecutive, PickedUp, Ships;
    }
    hide Serve, Ends, Batch, ExtentOf, Ships;
  }

  lemma PickedElsewhere(s: State, turn: Turn, id: Id)
    requires !exists c :: c in turn.picked && c.0 == id
    ensures Find(PickedUp(s, turn).at, id) == Find(s.at, id)
  {
    hide Seeded;
  }

  lemma SettleKeeps(s: State, rs: seq<Report>, id: Id)
    requires id !in s.tracked && Find(s.at, id) == Find(s.disk, id)
    ensures var t := Settle(s, rs).state; id !in t.tracked && Find(t.at, id) == Find(t.disk, id)
  {
    hide Settle;
    SettleElsewhere(s, rs, id);
  }

  lemma HappenSound(w: World, e: Happening)
    requires Sound(w) && MayHappen(w, e)
    ensures Sound(Happen(w, e))
  {
    match e
    case Served(turn, follow, origin) => ServedSound(w, turn, follow, origin);
    case Ended(reports) =>
      forall id | id !in w.seen
        ensures var t := Settle(w.s, reports).state; id !in t.tracked && Find(t.at, id) == Find(t.disk, id)
      {
        SettleKeeps(w.s, reports, id);
      }
      hide Settle;
    case Connected(_) =>
  }

  /** Where a batch begins: at what is recorded of the store, or at what its consumer has taken. */
  lemma ReadAtMost(w: World, turn: Turn, origin: Id -> nat, id: Id)
    requires NoGap(w) && TakesUp(w, PickedUp(w.s, turn).at, origin)
    ensures var s := PickedUp(w.s, turn);
            var x := ExtentOf(w.seen, s, id, origin);
            ReadFrom(s, id, origin) <= x.top && AtMost(s, id, x.top) && Whole(x)
  {
    hide Whole, Seeded, Ends;
    StartsWhole(Recorded(PickedUp(w.s, turn).at, id, origin));
    assert id in w.s.at ==> PickedUp(w.s, turn).at[id] == w.s.at[id];
  }

  lemma ServedOne(w: World, turn: Turn, follow: bool, origin: Id -> nat, id: Id)
    requires NoGap(w) && MayHappen(w, Served(turn, follow, origin)) && Keeps(w, Served(turn, follow, origin))
    requires id in SeenAfter(w, turn, origin)
    ensures var u := Happen(w, Served(turn, follow, origin));
            Whole(u.seen[id]) && AtMost(u.s, id, u.seen[id].top)
  {
    var s := PickedUp(w.s, turn);
    var x, batch := ExtentOf(w.seen, s, id, origin), Batch(turn, id);
    var y := Grown(x, batch);
    ReadAtMost(w, turn, origin, id);
    ExtentEnds(w, turn, origin, id);
    BatchIsConsecutive(s, turn, origin, id);
    BatchLeavesNoGap(x, batch, ReadFrom(s, id, origin));
    hide Serve, ReadFrom, PickedUp, TakesUp, Batch, Whole, Consecutive, Ends, Ships;
    assert AtMost(s, id, y.top);
    assert ReportsAtMost(Said(turn), id, y.top);
    hide AtMost;
    ServeAtMost(s, turn, follow, id, y.top);
  }

  lemma HappenKeepsNoGap(w: World, e: Happening)
    requires NoGap(w) && MayHappen(w, e) && Keeps(w, e)
    ensures NoGap(Happen(w, e))
  {
    HappenSound(w, e);
    var u := Happen(w, e);
    forall id | id in u.seen
      ensures Whole(u.seen[id]) && AtMost(u.s, id, u.seen[id].top)
    {
      match e
      case Served(turn, follow, origin) => ServedOne(w, turn, follow, origin, id);
      case Ended(reports) => EndedOne(w, reports, id);
      case Connected(holds) => ConnectedOne(w, holds, id);
    }
    hide Happen, Whole, AtMost, Keeps, MayHappen;
  }

  lemma EndedOne(w: World, reports: seq<Report>, id: Id)
    requires NoGap(w) && AllModest(reports, w.seen) && id in w.seen
    ensures AtMost(Settle(w.s, reports).state, id, w.seen[id].top)
  {
    assert ReportsAtMost(reports, id, w.seen[id].top);
    hide Settle, AtMost;
    SettleAtMost(w.s, reports, id, w.seen[id].top);
  }

  lemma ConnectedOne(w: World, holds: seq<(Id, nat)>, id: Id)
    requires NoGap(w) && Keeps(w, Connected(holds)) && id in w.seen
    ensures AtMost(Connect(w.s.disk, holds), id, w.seen[id].top)
  {
    hide Seeded;
  }

  // ------------------------------------------------------------- the theorems

  /** Whatever the consumer says, as long as nobody puts a store past what was sent of it. */
  lemma {:induction false} NothingIsSkipped(ws: seq<World>, es: seq<Happening>, saved: map<Id, At>, n: nat)
    requires Lived(ws, es, saved) && n < |ws|
    requires forall i :: 0 <= i < n ==> Keeps(ws[i], es[i])
    ensures NoGap(ws[n])
  {
    if n > 0 {
      NothingIsSkipped(ws, es, saved, n - 1);
      hide NoGap, Keeps, Happen, MayHappen;
      assert ws[n] == Happen(ws[n - 1], es[n - 1]);
      HappenKeepsNoGap(ws[n - 1], es[n - 1]);
    }
  }

  lemma {:induction false} AlwaysSound(ws: seq<World>, es: seq<Happening>, saved: map<Id, At>, n: nat)
    requires Lived(ws, es, saved) && n < |ws|
    ensures Sound(ws[n])
  {
    if n > 0 {
      AlwaysSound(ws, es, saved, n - 1);
      hide Sound, Happen, MayHappen;
      assert ws[n] == Happen(ws[n - 1], es[n - 1]);
      HappenSound(ws[n - 1], es[n - 1]);
    }
  }

  /** Every store sent from is read no further than what was sent of it before. */
  predicate ReadsOn(w: World, e: Happening) {
    e.Served? ==>
      forall id :: id in w.seen && Batch(e.turn, id) != [] ==>
        ReadFrom(PickedUp(w.s, e.turn), id, e.origin) <= w.seen[id].top
  }

  ghost predicate AllWhole(w: World) {
    forall id :: id in w.seen ==> Whole(w.seen[id])
  }

  lemma WholeStep(w: World, e: Happening)
    requires Sound(w) && MayHappen(w, e) && AllWhole(w)
    ensures AllWhole(Happen(w, e)) <==> ReadsOn(w, e)
  {
    if e.Served? {
      var turn, origin, u := e.turn, e.origin, Happen(w, e);
      var s := PickedUp(w.s, turn);
      forall id | id in u.seen
        ensures Whole(u.seen[id]) <==>
                (id in w.seen && Batch(turn, id) != [] ==> ReadFrom(s, id, origin) <= w.seen[id].top)
      {
        WholeOne(w, turn, origin, id);
      }
      hide Whole, Batch, ReadFrom, PickedUp, RunTurn, Sound, MayHappen;
      assert forall id :: id in w.seen ==> id in u.seen;
    }
  }

  lemma WholeOne(w: World, turn: Turn, origin: Id -> nat, id: Id)
    requires Sound(w) && Ships(PickedUp(w.s, turn), turn, origin) && AllWhole(w) && id in SeenAfter(w, turn, origin)
    ensures Whole(SeenAfter(w, turn, origin)[id]) <==>
            (id in w.seen && Batch(turn, id) != [] ==> ReadFrom(PickedUp(w.s, turn), id, origin) <= w.seen[id].top)
  {
    var s := PickedUp(w.s, turn);
    StartsWhole(Recorded(s.at, id, origin));
    ExtentEnds(w, turn, origin, id);
    BatchIsConsecutive(s, turn, origin, id);
    BatchLeavesNoGap(ExtentOf(w.seen, s, id, origin), Batch(turn, id), ReadFrom(s, id, origin));
    hide Whole, Batch, Consecutive, Ships, Ends, Seeded;
    assert id !in w.seen ==> id !in w.s.tracked;
  }

  lemma LivedStep(ws: seq<World>, es: seq<Happening>, saved: map<Id, At>, n: nat)
    requires Lived(ws, es, saved) && 0 < n < |ws|
    ensures |es| >= n && (AllWhole(ws[n - 1]) ==> (AllWhole(ws[n]) <==> ReadsOn(ws[n - 1], es[n - 1])))
  {
    AlwaysSound(ws, es, saved, n - 1);
    hide Sound, AllWhole, Happen, MayHappen, ReadsOn;
    var w, e := ws[n - 1], es[n - 1];
    assert MayHappen(w, e) && ws[n - 1 + 1] == Happen(w, e);
    if AllWhole(w) {
      WholeStep(w, e);
    }
  }

  /**
   * Any run, whatever anybody says: nothing is ever skipped if and only if no
   * read ever starts past what was sent before it.
   */
  lemma {:induction false} GapsAreExactly(ws: seq<World>, es: seq<Happening>, saved: map<Id, At>, n: nat)
    requires Lived(ws, es, saved) && n < |ws|
    ensures (forall i :: 0 <= i <= n ==> AllWhole(ws[i])) <==> (forall i :: 0 <= i < n ==> ReadsOn(ws[i], es[i]))
  {
    if n == 0 {
      assert AllWhole(ws[0]);
    } else {
      GapsAreExactly(ws, es, saved, n - 1);
      LivedStep(ws, es, saved, n);
    }
    hide AllWhole, ReadsOn, Lived;
  }

  /** So wherever a run stops, a store with a position on disk is next read at or before the end of what was sent. */
  lemma RestartSkipsNothing(ws: seq<World>, es: seq<Happening>, saved: map<Id, At>, n: nat, id: Id,
                            holds: seq<(Id, nat)>, turn: Turn, origin: Id -> nat)
    requires Lived(ws, es, saved) && n < |ws| && id in ws[n].seen && id in ws[n].s.disk
    requires forall i :: 0 <= i < n ==> Keeps(ws[i], es[i])
    ensures var x, s := ws[n].seen[id], PickedUp(Connect(ws[n].s.disk, holds), turn);
            && ReadFrom(s, id, origin) <= x.top
            && forall b :: x.first <= b < x.top ==> WasSent(x.log, b)
  {
    hide Keeps;
    NothingIsSkipped(ws, es, saved, n);
  }

  // ------------------------------------------------------ nothing sent twice

  /** Everything sent over every connection is one stretch, each entry once and in order. */
  ghost predicate Once(x: Extent) {
    Consecutive(x.log, x.first) && x.top == if x.log == [] then x.first else Last(x.log).end
  }

  /** A batch goes on with the stretch if and only if it begins where it ends. */
  lemma BatchIsOnce(x: Extent, batch: seq<Span>, from: nat)
    requires Once(x) && Consecutive(batch, from)
    ensures Once(Grown(x, batch)) <==> batch == [] || from == x.top
  {
    if batch == [] {
      assert x.log + [] == x.log;
    } else {
      ContinuesAtEnd(x.log, batch, x.first, from);
      ConsecutiveEnds(batch, from, |batch| - 1);
      assert Last(x.log + batch) == Last(batch);
    }
  }

  ghost predicate AllOnce(w: World) {
    forall id :: id in w.seen ==> Once(w.seen[id])
  }

  /** Every store sent from is read exactly where the last entry sent of it ended. */
  predicate ReadsAtTop(w: World, e: Happening) {
    e.Served? ==>
      forall id :: id in w.seen && Batch(e.turn, id) != [] ==>
        ReadFrom(PickedUp(w.s, e.turn), id, e.origin) == w.seen[id].top
  }

  lemma OnceOne(w: World, turn: Turn, origin: Id -> nat, id: Id)
    requires Sound(w) && Ships(PickedUp(w.s, turn), turn, origin) && AllOnce(w) && id in SeenAfter(w, turn, origin)
    ensures Once(SeenAfter(w, turn, origin)[id]) <==>
            (id in w.seen && Batch(turn, id) != [] ==> ReadFrom(PickedUp(w.s, turn), id, origin) == w.seen[id].top)
  {
    var s := PickedUp(w.s, turn);
    var x := ExtentOf(w.seen, s, id, origin);
    assert Once(x);
    BatchIsConsecutive(s, turn, origin, id);
    BatchIsOnce(x, Batch(turn, id), ReadFrom(s, id, origin));
    hide Batch, Consecutive, Ships, Seeded, Once;
    assert id !in w.seen ==> id !in w.s.tracked;
  }

  lemma OnceStep(w: World, e: Happening)
    requires Sound(w) && MayHappen(w, e) && AllOnce(w)
    ensures AllOnce(Happen(w, e)) <==> ReadsAtTop(w, e)
  {
    if e.Served? {
      var turn, origin, u := e.turn, e.origin, Happen(w, e);
      var s := PickedUp(w.s, turn);
      forall id | id in u.seen
        ensures Once(u.seen[id]) <==>
                (id in w.seen && Batch(turn, id) != [] ==> ReadFrom(s, id, origin) == w.seen[id].top)
      {
        OnceOne(w, turn, origin, id);
      }
      hide Once, Batch, ReadFrom, PickedUp, RunTurn, Sound, MayHappen;
      assert forall id :: id in w.seen ==> id in u.seen;
    }
  }

  lemma LivedOnce(ws: seq<World>, es: seq<Happening>, saved: map<Id, At>, n: nat)
    requires Lived(ws, es, saved) && n < |es|
    ensures AllOnce(ws[n]) ==> (AllOnce(ws[n + 1]) <==> ReadsAtTop(ws[n], es[n]))
  {
    AlwaysSound(ws, es, saved, n);
    hide Sound, AllOnce, Happen, MayHappen, ReadsAtTop;
    var w, e := ws[n], es[n];
    assert MayHappen(w, e) && ws[n + 1] == Happen(w, e);
    if AllOnce(w) {
      OnceStep(w, e);
    }
  }

  /**
   * Any run, whatever anybody says, crashes included: every store is sent each
   * byte once and in order if and only if every read that sends something
   * starts exactly where the last entry sent ended.
   */
  lemma {:induction false} RepeatsAreExactly(ws: seq<World>, es: seq<Happening>, saved: map<Id, At>, n: nat)
    requires Lived(ws, es, saved) && n < |ws|
    ensures (forall i :: 0 <= i <= n ==> AllOnce(ws[i])) <==> (forall i :: 0 <= i < n ==> ReadsAtTop(ws[i], es[i]))
  {
    if n == 0 {
      assert AllOnce(ws[0]);
    } else {
      RepeatsAreExactly(ws, es, saved, n - 1);
      LivedOnce(ws, es, saved, n - 1);
    }
    hide AllOnce, ReadsAtTop, Lived;
  }
}
