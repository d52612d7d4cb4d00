/**
 * Runs that meet the failing side of a condition: each turn sends one entry,
 * and the state it leads to is worked out.
 */
module DeliveryCases {
  import opened Common
  import opened Cursors
  import opened FeedModel
  import opened Delivery
  import opened DeliveryRuns
  import opened DeliveryGaps
  import opened OneShot

  // ------------------------------------------------------ turns of one entry

  function FromZero(id: Id): nat { 0 }

  function One(id: Id, begin: nat, len: nat): Frame {
    Entry(Some(id), Some(begin), Some(len), None, None)
  }

  /** One entry is sent, and these are the reports that have arrived by then. */
  function Fed(picked: seq<(Id, nat)>, id: Id, begin: nat, len: nat, reports: seq<Report>): Turn {
    Turn(picked, [id], [One(id, begin, len)], reports, Gone)
  }

  lemma OneSplice(a: map<Id, Tracked>, f: Frame)
    ensures Splice(a, [f]) == SpliceOne(Spliced(a, 0, false, None, false), f)
  {
    assert Front([f]) == [];
  }

  lemma OneReport(s: State, r: Report)
    requires r.Progress? && r.id in s.tracked
    ensures Drain(s, [r]) == Taken(Take(s, r), true, false)
  {
    assert Front([r]) == [];
    hide Take;
  }

  lemma OneAnnounced(tracked: map<Id, Tracked>, id: Id)
    ensures Announce(tracked, [id]) == if id in tracked then tracked else tracked[id := Untouched]
  {
    assert Front([id]) == [];
  }

  lemma NoneMarked(tracked: map<Id, Tracked>)
    requires forall id :: id in tracked ==> Holding(tracked[id]) < MAX_HELD_ENTRIES
    ensures MarkHeld(tracked) == tracked
  {
    hide Holding;
  }

  /** An answer of one entry of a store. */
  lemma OneEntry(s: State, turn: Turn, id: Id, f: Frame, t: Tracked)
    requires turn.stores == [id] && turn.frames == [f] && f.Entry? && WellFormed(f) && f.id.value == id
    requires s.tracked == map[id := t] || (s.tracked == map[] && t == Untouched)
    requires Holding(t) < MAX_HELD_ENTRIES
    ensures AfterSplice(s, turn)
         == Spliced(map[id := t.(pending := t.pending + [PendingOf(f)])], 1, false, Some(id), false)
  {
    hide Holding, MarkHeld, Announce, Splice;
    NoneMarked(s.tracked);
    OneAnnounced(s.tracked, id);
    OneSplice(map[id := t], f);
  }

  /** A turn that sent something ends with its reports. */
  lemma OneServed(s: State, turn: Turn, follow: bool, m: map<Id, Tracked>, id: Id)
    requires AfterSplice(s, turn) == Spliced(m, 1, false, Some(id), false)
    ensures var t := Settle(s.(tracked := m), turn.reports);
            Serve(s, turn, follow) == (t.state, if t.failed then Failed else Again)
  {
    hide AfterSplice, Settle;
  }

  lemma OneBatch(turn: Turn, id: Id, f: Frame)
    requires turn.frames == [f] && f.Entry? && WellFormed(f) && f.id.value == id
    ensures forall i :: Batch(turn, i) == if i == id then [Span(f.offset.value, PendingOf(f).end, f.chunk, PendingOf(f).wl)]
                                          else []
  {
    assert Front([f]) == [] && Forwarded([]) == [];
    assert Forwarded([f]) == [f];
    forall i
      ensures SpansOf([f], i) == if i == id then [Span(f.offset.value, PendingOf(f).end, f.chunk, PendingOf(f).wl)] else []
    {
      assert SpansOf([], i) == [];
    }
  }

  lemma OneConsecutive(e: Span)
    requires e.begin < e.end
    ensures Consecutive([e], e.begin)
  {
    assert Front([e]) == [];
  }

  lemma OneShips(s: State, turn: Turn, id: Id, begin: nat, len: nat, origin: Id -> nat)
    requires turn.stores == [id] && turn.frames == [One(id, begin, len)] && len > 0
    requires s.tracked.Keys <= {id} && (id in s.tracked ==> !Parked(s.tracked[id]))
    requires ReadFrom(s, id, origin) == begin
    ensures Ships(s, turn, origin)
  {
    OneBatch(turn, id, One(id, begin, len));
    OneConsecutive(Span(begin, begin + len, None, 0));
    hide Parked, Batch, Consecutive;
  }

  /** What a turn of one entry does to a process that tracks no other store. */
  lemma FedRuns(s: State, turn: Turn, id: Id, t: Tracked, begin: nat, len: nat)
    requires turn.stores == [id] && turn.frames == [One(id, begin, len)] && Holding(t) < MAX_HELD_ENTRIES
    requires s.tracked == map[id := t] || (s.tracked == map[] && t == Untouched)
    ensures var m := map[id := t.(pending := t.pending + [Pending(begin + len, None, 0)])];
            RunTurn(s, turn, true).0 == Settle(PickedUp(s, turn).(tracked := m), turn.reports).state
  {
    var f, p := One(id, begin, len), PickedUp(s, turn);
    hide Holding, Settle, AfterSplice, Serve, Seeded;
    OneEntry(p, turn, id, f, t);
    OneServed(p, turn, true, map[id := t.(pending := t.pending + [PendingOf(f)])], id);
  }

  lemma {:induction false} FedIsSeen(w: World, turn: Turn, id: Id, begin: nat, len: nat, origin: Id -> nat)
    requires turn.stores == [id] && turn.frames == [One(id, begin, len)]
    ensures id in SeenAfter(w, turn, origin)
    ensures SeenAfter(w, turn, origin)[id]
         == Grown(ExtentOf(w.seen, PickedUp(w.s, turn), id, origin), [Span(begin, begin + len, None, 0)])
  {
    var batch := [Span(begin, begin + len, None, 0)];
    assert Batch(turn, id) == batch by {
      OneBatch(turn, id, One(id, begin, len));
    }
    hide Batch, ExtentOf, Grown, PickedUp, SeenAfter, One;
    assert id in turn.stores;
  }

  lemma {:induction false} FedHappens(w: World, turn: Turn, id: Id, t: Tracked, begin: nat, len: nat, origin: Id -> nat)
    requires turn.stores == [id] && turn.frames == [One(id, begin, len)] && len > 0
    requires w.s.tracked == map[id := t] || (w.s.tracked == map[] && t == Untouched)
    requires !Parked(t) && ReadFrom(PickedUp(w.s, turn), id, origin) == begin
    ensures MayHappen(w, Served(turn, true, origin))
    ensures var m := map[id := t.(pending := t.pending + [Pending(begin + len, None, 0)])];
            var u := Happen(w, Served(turn, true, origin));
            && u.s == Settle(PickedUp(w.s, turn).(tracked := m), turn.reports).state
            && id in u.seen
            && u.seen[id] == Grown(ExtentOf(w.seen, PickedUp(w.s, turn), id, origin), [Span(begin, begin + len, None, 0)])
  {
    FedRuns(w.s, turn, id, t, begin, len);
    FedIsSeen(w, turn, id, begin, len, origin);
    assert PickedUp(w.s, turn).tracked == w.s.tracked;
    hide Holding, InFlight, Settle, RunTurn, Ships, ReadFrom, ExtentOf, PickedUp, Grown, SeenAfter, One;
    OneShips(PickedUp(w.s, turn), turn, id, begin, len, origin);
  }

  // --------------------------------------------------- a store put too far on

  const Nobody: World := Initial(map[])

  /** A store in which a read began past what had been sent before. */
  lemma GapAfter(x: Extent, begin: nat, len: nat)
    requires Whole(x) && Ends(x) && x.top < begin && len > 0
    ensures !Whole(Grown(x, [Span(begin, begin + len, None, 0)]))
  {
    OneConsecutive(Span(begin, begin + len, None, 0));
    BatchLeavesNoGap(x, [Span(begin, begin + len, None, 0)], begin);
  }

  /** A process that has just started tracks nothing, and owes nothing that has arrived. */
  lemma FirstFed(w: World, picked: seq<(Id, nat)>, id: Id, begin: nat, reports: seq<Report>)
    requires w.s.tracked == map[] && Recorded(Seeded(w.s.at, picked), id, FromZero) == begin
    ensures var turn, p := Fed(picked, id, begin, 10, reports), Seeded(w.s.at, picked);
            var u := Happen(w, Served(turn, true, FromZero));
            && MayHappen(w, Served(turn, true, FromZero))
            && u.s == Settle(State(map[id := Tracked([Pending(begin + 10, None, 0)], None, false)], p, w.s.disk),
                             reports).state
            && id in u.seen
            && u.seen[id] == Grown(if id in w.seen then w.seen[id] else Extent(begin, begin, []),
                                   [Span(begin, begin + 10, None, 0)])
  {
    hide Settle, Seeded, Grown, SeenAfter, RunTurn, Ships;
    FedHappens(w, Fed(picked, id, begin, 10, reports), id, Untouched, begin, 10, FromZero);
    assert [] + [Pending(begin + 10, None, 0)] == [Pending(begin + 10, None, 0)];
  }

  lemma NothingSaid(s: State)
    ensures Settle(s, []).state == s
  {
  }

  lemma OneSeed(id: Id, begin: nat)
    ensures Seeded(map[], [(id, begin)]) == map[id := At(begin, None, 0, 0)] && Seeded(map[], []) == map[]
  {
    assert Front([(id, begin)]) == [];
  }

  /** What a first entry of ten bytes makes of a store taken up at 10. */
  const Ten: Span := Span(10, 20, None, 0)

  lemma TenIsWhole()
    ensures Grown(Extent(10, 10, []), [Ten]) == Extent(10, 20, [Ten])
    ensures Whole(Extent(10, 20, [Ten])) && Ends(Extent(10, 20, [Ten]))
  {
    assert [Ten][0] == Ten && [] + [Ten] == [Ten];
  }

  /** A store's first ten bytes go out, it having been taken up at 10, and nothing is written. */
  function PickedTen(id: Id): Happening {
    Served(Fed([(id, 10)], id, 10, 10, []), true, FromZero)
  }

  lemma PickedTenHappens(id: Id)
    ensures var u := Happen(Nobody, PickedTen(id));
            MayHappen(Nobody, PickedTen(id)) && u.s.disk == map[] && id in u.seen && u.seen[id] == Extent(10, 20, [Ten])
  {
    OneSeed(id, 10);
    TenIsWhole();
    hide Settle, Grown, Happen, MayHappen, Seeded, Whole, Fed;
    FirstFed(Nobody, [(id, 10)], id, 10, []);
    NothingSaid(State(map[id := Tracked([Pending(20, None, 0)], None, false)], map[id := At(10, None, 0, 0)], map[]));
  }

  /** The next ten go out from further on, by a process that knows no better. */
  lemma {:induction false} GapHappens(w: World, picked: seq<(Id, nat)>, id: Id, reports: seq<Report>)
    requires w.s.tracked == map[] && Recorded(Seeded(w.s.at, picked), id, FromZero) == 30
    requires id in w.seen && w.seen[id] == Extent(10, 20, [Ten])
    ensures var e := Served(Fed(picked, id, 30, 10, reports), true, FromZero);
            MayHappen(w, e) && id in Happen(w, e).seen && !Whole(Happen(w, e).seen[id])
  {
    TenIsWhole();
    hide Settle, Grown, Happen, MayHappen, Seeded, Whole, Fed, Ends;
    FirstFed(w, picked, id, 30, reports);
    GapAfter(Extent(10, 20, [Ten]), 30, 10);
  }

  lemma LivedThree(a: Happening, b: Happening, c: Happening, saved: map<Id, At>)
    requires var w1 := Happen(Initial(saved), a);
             MayHappen(Initial(saved), a) && MayHappen(w1, b) && MayHappen(Happen(w1, b), c)
    ensures var w1 := Happen(Initial(saved), a);
            var w2 := Happen(w1, b);
            Lived([Initial(saved), w1, w2, Happen(w2, c)], [a, b, c], saved)
  {
    hide Happen, MayHappen, Initial;
  }

  /** The first ten bytes by one process, and a gap by the next. */
  lemma GapRun(first: Happening, holds: seq<(Id, nat)>, picked: seq<(Id, nat)>, id: Id) returns (ws: seq<World>)
    requires MayHappen(Nobody, first)
    requires var w := Happen(Nobody, first);
             && id in w.seen && w.seen[id] == Extent(10, 20, [Ten])
             && Recorded(Seeded(Seeded(w.s.disk, holds), picked), id, FromZero) == 30
    ensures Lived(ws, [first, Connected(holds), Served(Fed(picked, id, 30, 10, []), true, FromZero)], map[])
    ensures id in Last(ws).seen && !Whole(Last(ws).seen[id])
  {
    var e := Served(Fed(picked, id, 30, 10, []), true, FromZero);
    var w1 := Happen(Nobody, first);
    var w2 := Happen(w1, Connected(holds));
    ws := [Nobody, w1, w2, Happen(w2, e)];
    assert w2 == World(Connect(w1.s.disk, holds), w1.seen) && MayHappen(w1, Connected(holds));
    hide Happen, MayHappen, Lived, Whole, Fed, Seeded;
    GapHappens(w2, picked, id, []);
    LivedThree(first, Connected(holds), e, map[]);
  }

  /**
   * A store taken up at its end is on no record until its consumer reports: a
   * process that ends before that comes back to a later end. Nobody said a word
   * and the entries between were never sent.
   */
  lemma LostPickUpSkips(id: Id) returns (ws: seq<World>, es: seq<Happening>)
    ensures Lived(ws, es, map[]) && id in Last(ws).seen && !Whole(Last(ws).seen[id])
    ensures es == [PickedTen(id), Connected([]), Served(Fed([(id, 30)], id, 30, 10, []), true, FromZero)]
  {
    es := [PickedTen(id), Connected([]), Served(Fed([(id, 30)], id, 30, 10, []), true, FromZero)];
    PickedTenHappens(id);
    OneSeed(id, 30);
    hide Happen, MayHappen, PickedTen, Whole, Fed, Seeded, Lived;
    ws := GapRun(PickedTen(id), [], [(id, 30)], id);
  }

  /** So does a claim to hold what was never sent, of a store on no record. */
  lemma ClaimSkips(id: Id) returns (ws: seq<World>, es: seq<Happening>)
    ensures Lived(ws, es, map[]) && id in Last(ws).seen && !Whole(Last(ws).seen[id])
    ensures es == [PickedTen(id), Connected([(id, 30)]), Served(Fed([], id, 30, 10, []), true, FromZero)]
  {
    es := [PickedTen(id), Connected([(id, 30)]), Served(Fed([], id, 30, 10, []), true, FromZero)];
    PickedTenHappens(id);
    OneSeed(id, 30);
    SeededNothing(Seeded(map[], [(id, 30)]));
    hide Happen, MayHappen, PickedTen, Whole, Fed, Seeded, Lived;
    ws := GapRun(PickedTen(id), [(id, 30)], [], id);
  }

  lemma SeededNothing(at: map<Id, At>)
    ensures Seeded(at, []) == at
  {
  }

  const SentTen: Tracked := Tracked([Pending(20, None, 0)], None, false)

  lemma TenCovered(offset: nat)
    requires offset >= 20
    ensures var ps := SentTen.pending;
            Past(ps, offset) == [] && UpTo(ps, offset) == ps && NewestChunk(ps) == None && NewestWl(ps) == 0
  {
    var ps := SentTen.pending;
    assert Front(ps) == [] && Past([], offset) == [] && UpTo([], offset) == [];
  }

  /** A watermark at or past the one entry owed. */
  lemma TenAcknowledged(s: State, id: Id, offset: nat)
    requires s.tracked == map[id := SentTen] && s.at == map[id := At(10, None, 0, 0)] && offset >= 20
    ensures Take(s, Progress(id, offset, None))
         == State(map[id := Untouched], map[id := At(offset, None, 0, 1)], s.disk)
  {
    TenCovered(offset);
    hide Past, UpTo, NewestChunk, NewestWl;
    assert s.tracked[id] == SentTen && |SentTen.pending| == 1;
    assert s.at[id := At(offset, None, 0, 1)] == map[id := At(offset, None, 0, 1)];
  }

  /** And so does a watermark past what was sent. */
  lemma OverreachSkips(id: Id) returns (ws: seq<World>, es: seq<Happening>)
    ensures Lived(ws, es, map[]) && id in Last(ws).seen && !Whole(Last(ws).seen[id])
    ensures es == [Served(Fed([(id, 10)], id, 10, 10, [Progress(id, 30, None)]), true, FromZero), Connected([]),
                   Served(Fed([], id, 30, 10, []), true, FromZero)]
  {
    var r := Progress(id, 30, None);
    var first := Served(Fed([(id, 10)], id, 10, 10, [r]), true, FromZero);
    es := [first, Connected([]), Served(Fed([], id, 30, 10, []), true, FromZero)];
    OverreachHappens(id, r);
    SeededNothing(map[id := At(30, None, 0, 1)]);
    hide Happen, MayHappen, Whole, Fed, Seeded, Lived;
    ws := GapRun(first, [], [], id);
  }

  lemma OverreachHappens(id: Id, r: Report)
    requires r == Progress(id, 30, None)
    ensures var e := Served(Fed([(id, 10)], id, 10, 10, [r]), true, FromZero);
            var u := Happen(Nobody, e);
            && MayHappen(Nobody, e) && u.s.disk == map[id := At(30, None, 0, 1)]
            && id in u.seen && u.seen[id] == Extent(10, 20, [Ten])
  {
    OneSeed(id, 10);
    TenIsWhole();
    var s := State(map[id := SentTen], map[id := At(10, None, 0, 0)], map[]);
    TenAcknowledged(s, id, 30);
    OneReport(s, r);
    hide Drain, Take, Grown, Happen, MayHappen, Seeded, Whole, Fed;
    FirstFed(Nobody, [(id, 10)], id, 10, [r]);
  }

  /**
   * A consumer that goes back is sent again what it had acknowledged: from
   * 10 although everything up to 20 was sent and named.
   */
  lemma GoingBackRepeats(id: Id) returns (turn: Turn, h: History)
    ensures turn == Fed([(id, 10)], id, 10, 10, [Progress(id, 20, None), Progress(id, 10, None)])
    ensures h == History(10, [Ten], 20)
    ensures var s := RunTurn(Connect(map[], []), turn, true).0;
            && s.tracked == map[id := Untouched] && id in s.at
            && Good(s.tracked[id], s.at[id].offset, h) && !Parked(s.tracked[id])
            && ReadFrom(s, id, FromZero) == 10 < SentEnd(h)
  {
    var r, back := Progress(id, 20, None), Progress(id, 10, None);
    turn, h := Fed([(id, 10)], id, 10, 10, [r, back]), History(10, [Ten], 20);
    var s := State(map[id := SentTen], map[id := At(10, None, 0, 0)], map[]);
    OneSeed(id, 10);
    FedRuns(Connect(map[], []), turn, id, Untouched, 10, 10);
    assert [] + [Pending(20, None, 0)] == SentTen.pending;
    TenAcknowledged(s, id, 20);
    TwoReports(s, r, back);
    WentBack(Take(s, r), id);
    TenIsGood();
    hide Settle, RunTurn, Good, Take, Seeded;
  }

  lemma {:induction false} TwoReports(s: State, r: Report, back: Report)
    requires r.Progress? && back.Progress? && r.id == back.id && r.id in s.tracked
    ensures Settle(s, [r, back]).state == Persist(Take(Take(s, r), back))
  {
    OneReport(s, r);
    assert Front([r, back]) == [r];
    assert r.id in Take(s, r).tracked;
    hide Take;
  }

  lemma WentBack(s: State, id: Id)
    requires s.tracked == map[id := Untouched] && s.at == map[id := At(20, None, 0, 1)]
    ensures Take(s, Progress(id, 10, None)) == s.(at := map[id := At(10, None, 0, 1)])
  {
    assert Past([], 10) == [] && UpTo([], 10) == [] && NewestChunk([]) == None && NewestWl([]) == 0;
    assert s.at[id := At(10, None, 0, 1)] == map[id := At(10, None, 0, 1)];
  }

  lemma TenIsGood()
    ensures Good(Untouched, 10, History(10, [Ten], 20)) && InFlight(Untouched) == 0 == Holding(Untouched)
  {
    assert Front([Ten]) == [];
    assert Unacknowledged([Ten], 20) == [];
  }

  // ------------------------------------------------------- a store at the cap

  /** One entry of one byte is sent, and the consumer has taken it and keeps its watermark at the start. */
  function Hoard(id: Id, n: nat): Turn {
    Fed([], id, n, 1, [Progress(id, 0, Some(n + 1))])
  }

  function Hoarding(id: Id, n: nat): seq<Turn> {
    if n == 0 then [] else Hoarding(id, n - 1) + [Hoard(id, n - 1)]
  }

  function Units(n: nat): (ps: seq<Pending>)
    ensures |ps| == n
    ensures forall i :: 0 <= i < n ==> ps[i] == Pending(i + 1, None, 0)
  {
    if n == 0 then [] else Units(n - 1) + [Pending(n, None, 0)]
  }

  lemma {:induction false} UnitsUpTo(n: nat, at: nat)
    requires at == 0 || at >= n
    ensures UpTo(Units(n), at) == (if at == 0 then [] else Units(n))
    ensures Past(Units(n), at) == if at == 0 then Units(n) else []
  {
    if n > 0 {
      assert Front(Units(n)) == Units(n - 1);
      UnitsUpTo(n - 1, at);
    }
  }

  const AtStart: At := At(0, None, 0, 0)

  /** What `n` such turns lead to. */
  function Hoarded(id: Id, n: nat): State {
    if n == 0 then State(map[], map[], map[])
    else State(map[id := Tracked(Units(n), Some(n), false)], map[id := AtStart], map[id := AtStart])
  }

  lemma HoardedFlight(id: Id, n: nat)
    requires n > 0
    ensures var t := Hoarded(id, n).tracked[id]; InFlight(t) == 0 && Holding(t) == n
  {
    UnitsUpTo(n, n);
    hide Units, Past, UpTo;
  }

  lemma UnitsSnoc(n: nat)
    ensures Units(0) == [] && Units(n + 1) == Units(n) + [Pending(n + 1, None, 0)]
  {
  }

  /** A watermark at the start of the store covers nothing. */
  lemma NothingCovered(s: State, id: Id, t: Tracked, taken: Option<nat>)
    requires s.tracked == map[id := t] && UpTo(t.pending, 0) == [] && Past(t.pending, 0) == t.pending
    requires Find(s.at, id) in {None, Some(AtStart)}
    ensures Watermark(s, id, 0, taken)
         == State(map[id := t.(taken := TakenAfter(t, taken))], s.at[id := AtStart], s.disk)
  {
    hide UpTo, Past, TakenAfter;
    assert s.tracked[id] == t;
  }

  lemma HoardMark(id: Id, n: nat, s: State, t: Tracked)
    requires s.at == Hoarded(id, n).at && s.tracked == map[id := t]
    requires t == Tracked(Units(n + 1), if n == 0 then None else Some(n), false)
    ensures Watermark(s, id, 0, Some(n + 1)) == Hoarded(id, n + 1).(disk := s.disk)
  {
    UnitsUpTo(n + 1, 0);
    hide Units, Past, UpTo, Watermark;
    NothingCovered(s, id, t, Some(n + 1));
    assert s.at[id := AtStart] == map[id := AtStart];
  }

  lemma HoardReport(id: Id, n: nat, s: State, t: Tracked)
    requires s.at == Hoarded(id, n).at && s.tracked == map[id := t]
    requires t == Tracked(Units(n + 1), if n == 0 then None else Some(n), false)
    ensures Settle(s, [Progress(id, 0, Some(n + 1))]) == Taken(Hoarded(id, n + 1), true, false)
  {
    OneReport(s, Progress(id, 0, Some(n + 1)));
    HoardMark(id, n, s, t);
    hide Drain, Units, Watermark;
  }

  lemma HoardTaken(id: Id, n: nat) returns (t: Tracked)
    requires n < MAX_HELD_ENTRIES
    ensures Hoarded(id, n).tracked == (if n == 0 then map[] else map[id := t]) && (n == 0 ==> t == Untouched)
    ensures Holding(t) < MAX_HELD_ENTRIES
    ensures t.(pending := t.pending + [Pending(n + 1, None, 0)])
         == Tracked(Units(n + 1), if n == 0 then None else Some(n), false)
  {
    UnitsSnoc(n);
    if n == 0 {
      t := Untouched;
    } else {
      t := Tracked(Units(n), Some(n), false);
      HoardedFlight(id, n);
      hide Holding;
    }
    hide Units;
  }

  lemma HoardPicks(id: Id, n: nat)
    ensures PickedUp(Hoarded(id, n), Hoard(id, n)) == Hoarded(id, n)
  {
    SeededNothing(Hoarded(id, n).at);
    hide Seeded, Units;
  }

  lemma HoardStep(id: Id, n: nat)
    requires n < MAX_HELD_ENTRIES
    ensures RunTurn(Hoarded(id, n), Hoard(id, n), false) == (Hoarded(id, n + 1), Again)
  {
    hide Holding, Units, Settle, Serve, AfterSplice, Hoarded, PickedUp;
    var s, turn := Hoarded(id, n), Hoard(id, n);
    var t := HoardTaken(id, n);
    var u := t.(pending := t.pending + [Pending(n + 1, None, 0)]);
    HoardPicks(id, n);
    OneEntry(s, turn, id, One(id, n, 1), t);
    OneServed(s, turn, false, map[id := u], id);
    HoardReport(id, n, s.(tracked := map[id := u]), u);
  }

  // a run of such turns

  /** The shipper keeps its promise at every turn. */
  ghost predicate AllShipped(s: State, turns: seq<Turn>, follow: bool, origin: Id -> nat) {
    turns == [] || (AllShipped(s, Front(turns), follow, origin)
                    && Ships(PickedUp(Turns(s, Front(turns), follow), Last(turns)), Last(turns), origin))
  }

  lemma HoardShips(id: Id, n: nat)
    requires n < MAX_HELD_ENTRIES
    ensures Ships(PickedUp(Hoarded(id, n), Hoard(id, n)), Hoard(id, n), FromZero)
  {
    var s, turn := Hoarded(id, n), Hoard(id, n);
    OneBatch(turn, id, One(id, n, 1));
    OneConsecutive(Span(n, n + 1, None, 0));
    if n > 0 {
      HoardedFlight(id, n);
    }
    assert PickedUp(s, turn) == s;
    assert ReadFrom(s, id, FromZero) == n;
    hide InFlight, Holding, Batch, Consecutive, Units;
  }

  lemma TurnsSnoc(s: State, turns: seq<Turn>, turn: Turn, origin: Id -> nat)
    ensures Turns(s, turns + [turn], false) == RunTurn(Turns(s, turns, false), turn, false).0
    ensures AllShipped(s, turns, false, origin) && Ships(PickedUp(Turns(s, turns, false), turn), turn, origin) ==>
              AllShipped(s, turns + [turn], false, origin)
  {
    hide RunTurn, Ships, PickedUp;
    assert Front(turns + [turn]) == turns;
  }

  lemma HoardedOnce(start: State, turns: seq<Turn>, id: Id, m: nat)
    requires m < MAX_HELD_ENTRIES
    requires Turns(start, turns, false) == Hoarded(id, m) && AllShipped(start, turns, false, FromZero)
    ensures Turns(start, turns + [Hoard(id, m)], false) == Hoarded(id, m + 1)
    ensures AllShipped(start, turns + [Hoard(id, m)], false, FromZero)
  {
    hide RunTurn, Hoarded, Ships, Turns, AllShipped, PickedUp, Hoard, FromZero;
    HoardStep(id, m);
    HoardShips(id, m);
    TurnsSnoc(start, turns, Hoard(id, m), FromZero);
  }

  lemma HoardingNext(id: Id, m: nat)
    ensures Hoarding(id, m + 1) == Hoarding(id, m) + [Hoard(id, m)]
  {
  }

  lemma HoardingNone(start: State, id: Id)
    ensures Turns(start, Hoarding(id, 0), false) == start && AllShipped(start, Hoarding(id, 0), false, FromZero)
  {
  }

  lemma {:induction false} HoardingLeads(start: State, id: Id, n: nat)
    requires n <= MAX_HELD_ENTRIES && start == Hoarded(id, 0)
    ensures Turns(start, Hoarding(id, n), false) == Hoarded(id, n)
    ensures AllShipped(start, Hoarding(id, n), false, FromZero)
  {
    hide Turns, AllShipped, Hoarded, Hoard, Hoarding, FromZero;
    HoardingNone(start, id);
    if n > 0 {
      var m: nat := n - 1;
      HoardingLeads(start, id, m);
      HoardedOnce(start, Hoarding(id, m), id, m);
      HoardingNext(id, m);
    }
  }

  const Quiet: Turn := Turn([], [], [StreamEnd(false)], [], Gone)

  lemma NothingShipped()
    ensures forall id :: Batch(Quiet, id) == [] && SpansOf(Quiet.frames, id) == []
  {
    assert Front([StreamEnd(false)]) == [];
    assert Forwarded([]) == [] && Forwarded([StreamEnd(false)]) == [StreamEnd(false)];
    forall id
      ensures SpansOf([StreamEnd(false)], id) == []
    {
      assert SpansOf([], id) == [];
    }
  }

  /** A turn in which nothing happens ends a one-shot that has nothing in flight. */
  lemma QuietDrains(s: State, id: Id, t: Tracked)
    requires s.tracked == map[id := t] && InFlight(t) == 0
    ensures RunTurn(s, Quiet, false).1 == Drained
  {
    var a := Announce(MarkHeld(s.tracked), []);
    OneSplice(a, StreamEnd(false));
    assert InFlight(a[id]) == 0;
    hide InFlight, Holding;
  }

  /**
   * At the cap it fails: a consumer takes every entry and acknowledges none,
   * and after two million of them the one-shot ends drained although
   * the store holds one more.
   */
  lemma {:induction false} CapEndsOneShotEarly(id: Id) returns (s: State, tapeEnd: map<Id, nat>)
    ensures s == Turns(Connect(map[], []), Hoarding(id, 2_000_000), false)
    ensures AllShipped(Connect(map[], []), Hoarding(id, 2_000_000), false, FromZero)
    ensures RunTurn(s, Quiet, false).1 == Drained && AtCap(s)
    ensures Ships(PickedUp(s, Quiet), Quiet, FromZero) && ReadToTheEnd(PickedUp(s, Quiet), Quiet, tapeEnd, FromZero)
    ensures id in tapeEnd && ReadFrom(s, id, FromZero) < tapeEnd[id]
  {
    s, tapeEnd := Hoarded(id, MAX_HELD_ENTRIES), map[id := MAX_HELD_ENTRIES + 1];
    HoardingLeads(Hoarded(id, 0), id, MAX_HELD_ENTRIES);
    AtCapEnds(id, MAX_HELD_ENTRIES);
    hide Turns, Hoarding, Units, RunTurn, Ships, ReadToTheEnd, AtCap, AllShipped;
  }

  lemma AtCapEnds(id: Id, n: nat)
    requires n >= MAX_HELD_ENTRIES
    ensures var s, tapeEnd := Hoarded(id, n), map[id := n + 1];
            && RunTurn(s, Quiet, false).1 == Drained && AtCap(s)
            && Ships(PickedUp(s, Quiet), Quiet, FromZero)
            && ReadToTheEnd(PickedUp(s, Quiet), Quiet, tapeEnd, FromZero)
            && ReadFrom(s, id, FromZero) < n + 1
  {
    var s := Hoarded(id, n);
    HoardedFlight(id, n);
    NothingShipped();
    hide Units, InFlight, Holding, RunTurn, Batch, SpansOf;
    assert s.tracked == map[id := s.tracked[id]];
    QuietDrains(s, id, s.tracked[id]);
    assert PickedUp(s, Quiet) == s;
  }
}
