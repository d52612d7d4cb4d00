/**
 * Feeding a consumer (src/feed.rs): what the loop remembers of each store it
 * has sent from, and what one turn of the loop does to it. Reports arrive as
 * values; the shipper's answer is a parameter of the turn.
 */
module FeedModel {
  import opened Common
  import opened Cursors

  const MAX_HELD_ENTRIES: nat := 2_000_000

  /** An entry sent and not acknowledged. */
  datatype Pending = Pending(end: nat, chunk: Option<nat>, wl: nat)

  datatype Tracked = Tracked(pending: seq<Pending>, taken: Option<nat>, saidHeld: bool)

  const Untouched := Tracked([], None, false)

  /** The entries that end past `at`, and those that do not. */
  function Past(ps: seq<Pending>, at: nat): (r: seq<Pending>)
    ensures forall p :: p in r <==> p in ps && p.end > at
  {
    if ps == [] then []
    else
      assert ps == Front(ps) + [Last(ps)];
      if Last(ps).end > at then Past(Front(ps), at) + [Last(ps)] else Past(Front(ps), at)
  }

  function UpTo(ps: seq<Pending>, at: nat): (r: seq<Pending>)
    ensures |r| + |Past(ps, at)| == |ps|
    ensures forall p :: p in r <==> p in ps && p.end <= at
  {
    if ps == [] then []
    else
      assert ps == Front(ps) + [Last(ps)];
      if Last(ps).end <= at then UpTo(Front(ps), at) + [Last(ps)] else UpTo(Front(ps), at)
  }

  /** Sent and neither taken nor acknowledged. */
  function InFlight(t: Tracked): nat {
    if t.taken.None? then |t.pending| else |Past(t.pending, t.taken.value)|
  }

  /** Taken and not acknowledged. */
  function Holding(t: Tracked): nat {
    if t.taken.None? then 0 else |UpTo(t.pending, t.taken.value)|
  }

  predicate Parked(t: Tracked) {
    InFlight(t) > 0 || Holding(t) >= MAX_HELD_ENTRIES
  }

  datatype Report =
    | Hello
    | Progress(id: Id, offset: nat, taken: Option<nat>)
    | Note(changed: bool)  // whether the note differs from the one on record

  /** One record of the shipper's answer. */
  datatype Frame =
    | Entry(id: Option<Id>, offset: Option<nat>, len: Option<nat>, chunk: Option<nat>, wl: Option<nat>)
    | StreamEnd(limited: bool)
    | Other

  /** What the loop owns: the stores it has sent from, and the positions in memory and on disk. */
  datatype State = State(tracked: map<Id, Tracked>, at: map<Id, At>, disk: map<Id, At>)

  // ------------------------------------------ where an unread store starts

  /**
   * A consumer's claim to hold a store already, or the policy that takes a
   * store up at its end: either is recorded only where nothing is.
   */
  function Seeded(at: map<Id, At>, claims: seq<(Id, nat)>): (r: map<Id, At>)
    ensures forall id :: id in at ==> id in r && r[id] == at[id]
    ensures forall id :: id in r && id !in at ==> (id, r[id].offset) in claims && r[id].chunk == None
    ensures forall c :: c in claims ==> c.0 in r
  {
    if claims == [] then at
    else
      var r, c := Seeded(at, Front(claims)), Last(claims);
      assert claims == Front(claims) + [c];
      if c.0 in r then r else r[c.0 := AdvancedAt(None, c.1, None, 0, 0)]
  }

  /** A process starting on what was last written, with what its consumer claims to hold. */
  function Connect(disk: map<Id, At>, holds: seq<(Id, nat)>): State {
    State(map[], Seeded(disk, holds), Seeded(disk, holds))
  }

  // ------------------------------------------------------------- announcing

  function Announce(tracked: map<Id, Tracked>, stores: seq<Id>): (r: map<Id, Tracked>)
    ensures forall id :: id in r <==> id in tracked || id in stores
    ensures forall id :: id in r ==> r[id] == if id in tracked then tracked[id] else Untouched
  {
    if stores == [] then tracked
    else
      var t, id := Announce(tracked, Front(stores)), Last(stores);
      assert stores == Front(stores) + [id];
      if id in t then t else t[id := Untouched]
  }

  // --------------------------------------------------------------- splicing

  /** Forwarding one answer: what has been sent and what was learned, until something is malformed. */
  datatype Spliced = Spliced(tracked: map<Id, Tracked>, sent: nat, more: bool, last: Option<Id>, failed: bool)

  predicate WellFormed(f: Frame) {
    f.Entry? ==> f.id.Some? && f.offset.Some? && f.len.Some?
  }

  function PendingOf(f: Frame): Pending
    requires f.Entry? && WellFormed(f)
  {
    Pending(f.offset.value + f.len.value, f.chunk, if f.wl.Some? then f.wl.value else 0)
  }

  function SpliceOne(s: Spliced, f: Frame): Spliced {
    if s.failed then s
    else if !WellFormed(f) then s.(failed := true)
    else
      match f
      case Entry(Some(id), _, _, _, _) =>
        var t := if id !in s.tracked then s.tracked
                 else s.tracked[id := s.tracked[id].(pending := s.tracked[id].pending + [PendingOf(f)])];
        Spliced(t, s.sent + 1, s.more, Some(id), false)
      case StreamEnd(limited) => s.(more := limited)
      case _ => s
  }

  function Splice(tracked: map<Id, Tracked>, frames: seq<Frame>): Spliced {
    if frames == [] then Spliced(tracked, 0, false, None, false)
    else SpliceOne(Splice(tracked, Front(frames)), Last(frames))
  }

  // ----------------------------------------------------------------- taking

  function NewestChunk(ps: seq<Pending>): (c: Option<nat>)
    ensures c.Some? ==> exists p :: p in ps && p.chunk == c
    ensures forall p :: p in ps && p.chunk.Some? ==> c.Some? && p.chunk.value <= c.value
  {
    if ps == [] then None
    else
      assert ps == Front(ps) + [Last(ps)];
      MaxOption(Last(ps).chunk, NewestChunk(Front(ps)))
  }

  function NewestWl(ps: seq<Pending>): nat {
    if ps == [] then 0 else Max(NewestWl(Front(ps)), Last(ps).wl)
  }

  function TakenAfter(t: Tracked, taken: Option<nat>): Option<nat> {
    if taken.None? then t.taken
    else Some(Max(if t.taken.Some? then t.taken.value else 0, taken.value))
  }

  /** A watermark: what it covers is forgotten, and the position is moved with what those entries said. */
  function Watermark(s: State, id: Id, offset: nat, taken: Option<nat>): State
    requires id in s.tracked
  {
    var t := s.tracked[id];
    var acked := UpTo(t.pending, offset);
    s.(tracked := s.tracked[id := t.(pending := Past(t.pending, offset), taken := TakenAfter(t, taken))],
       at := s.at[id := AdvancedAt(Find(s.at, id), offset, NewestChunk(acked), NewestWl(acked), |acked|)])
  }

  function Take(s: State, r: Report): State {
    if r.Progress? && r.id in s.tracked then Watermark(s, r.id, r.offset, r.taken) else s
  }

  /** Reports acted on in turn, up to one that is refused; `moved` is whether the file is worth writing. */
  datatype Taken = Taken(state: State, moved: bool, failed: bool)

  function Drain(s: State, rs: seq<Report>): Taken {
    if rs == [] then Taken(s, false, false)
    else
      var t, r := Drain(s, Front(rs)), Last(rs);
      if t.failed then t
      else if r.Hello? then t.(failed := true)
      else Taken(Take(t.state, r), t.moved || (if r.Note? then r.changed else r.id in t.state.tracked), false)
  }

  function Persist(s: State): State {
    s.(disk := s.at)
  }

  // ------------------------------------------------------------- one turn

  /** What the consumer does while the loop waits for it. */
  datatype Wait = Spoke(report: Report, more: seq<Report>) | Silent(tooLong: bool) | Gone

  /**
   * A turn's surroundings: the stores taken up at their end, the shipper's
   * answer, the reports that have arrived, and the wait.
   */
  datatype Turn = Turn(picked: seq<(Id, nat)>, stores: seq<Id>, frames: seq<Frame>, reports: seq<Report>, wait: Wait)

  datatype Outcome = Again | Drained | GaveUp | Failed

  predicate AnyInFlight(tracked: map<Id, Tracked>) {
    exists id :: id in tracked && InFlight(tracked[id]) > 0
  }

  /** A store at the cap is announced once. */
  function MarkHeld(tracked: map<Id, Tracked>): (r: map<Id, Tracked>)
    ensures r.Keys == tracked.Keys
    ensures forall id :: id in r ==> r[id].pending == tracked[id].pending && r[id].taken == tracked[id].taken
    ensures forall id :: id in r ==> (r[id].saidHeld <==> tracked[id].saidHeld || Holding(tracked[id]) >= 2_000_000)
  {
    map id | id in tracked ::
      if Holding(tracked[id]) >= MAX_HELD_ENTRIES then tracked[id].(saidHeld := true) else tracked[id]
  }

  /** The state the read is made in. */
  function PickedUp(s: State, turn: Turn): State {
    s.(at := Seeded(s.at, turn.picked))
  }

  /** The state once the answer is forwarded. */
  function AfterSplice(s: State, turn: Turn): Spliced {
    Splice(Announce(MarkHeld(s.tracked), turn.stores), turn.frames)
  }

  /** Reports drained and, if one of them is worth it, written. */
  function Settle(s: State, reports: seq<Report>): Taken {
    var t := Drain(s, reports);
    if t.failed || !t.moved then t else t.(state := Persist(t.state))
  }

  function AfterDrain(s: State, turn: Turn): Taken {
    Settle(s.(tracked := AfterSplice(s, turn).tracked), turn.reports)
  }

  function RunTurn(s: State, turn: Turn, follow: bool): (State, Outcome) {
    Serve(PickedUp(s, turn), turn, follow)
  }

  /** The turn from its read on. */
  function Serve(s: State, turn: Turn, follow: bool): (State, Outcome) {
    var skipped := AnyInFlight(s.tracked);
    var sp := AfterSplice(s, turn);
    if sp.failed then (s.(tracked := sp.tracked), Failed)
    else
      var t := AfterDrain(s, turn);
      if t.failed then (t.state, Failed)
      else if sp.sent > 0 || sp.more then (t.state, Again)
      else if !AnyInFlight(t.state.tracked) then (t.state, if skipped || follow then Again else Drained)
      else
        match turn.wait
        case Spoke(r, more) =>
          var u := Drain(t.state, [r] + more);
          if u.failed then (u.state, Failed) else (Persist(u.state), Again)
        case Silent(tooLong) => (t.state, if tooLong && !follow then GaveUp else Again)
        case Gone => (t.state, Failed)
  }
}
