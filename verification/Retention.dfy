/**
 * Retention never outruns delivery, end to end: stores grow, followers are fed
 * from them and acknowledge, positions are written, claimed or taken up at a
 * store's end, processes end, crash and restart, and stores drop their heads by
 * interest. Whatever a consumer says and in whatever order, a chunk dropped by
 * interest holds only bytes below the highest offset every retaining follower
 * of the store has acknowledged.
 */
module Retention {
  import opened Common
  import opened Cursors
  import opened FeedModel
  import EntryModel
  import opened EntryTape
  import opened EntryAttribution
  import F = Follower

  /** The highest offset a consumer has ever acknowledged, store by store. */
  type Acks = map<Id, nat>

  function AckOf(acks: Acks, id: Id): nat {
    if id in acks then acks[id] else 0
  }

  /** Chunk `k` is the tape from `starts[k]` to `starts[k + 1]`; those below `head` are gone. */
  datatype Store = Store(fields: F.Fields, starts: seq<nat>, head: nat)
  {
    ghost predicate Valid() {
      && starts != [] && head < |starts|
      && forall i, j :: 0 <= i <= j < |starts| ==> starts[i] <= starts[j]
    }

    function NextSeq(): nat
      requires starts != []
    {
      |starts| - 1
    }

    function Chunks(): (m: Bases)
      ensures forall k: nat :: k in m <==> k < |starts| - 1
      ensures forall k: nat :: k in m ==> m[k] == starts[k]
    {
      map k: nat | k < |starts| - 1 :: starts[k]
    }
  }

  type Stores = map<Id, Store>

  function ChunksOf(stores: Stores, id: Id): Bases {
    if id in stores then stores[id].Chunks() else map[]
  }

  // ------------------------------------------------ what a feeding loop keeps

  ghost predicate Carries(ps: seq<Pending>, m: Bases) {
    forall p :: p in ps ==> Reaches(p.chunk, p.end, m)
  }

  /** Every entry owed reaches the chunk it names. */
  ghost predicate OwedReaches(tracked: map<Id, Tracked>, stores: Stores) {
    forall id :: id in tracked ==> Carries(tracked[id].pending, ChunksOf(stores, id))
  }

  /** A recorded chunk begins at or before what was acknowledged. */
  ghost predicate Backed(at: map<Id, At>, acks: Acks, stores: Stores) {
    forall id :: id in at ==> Reaches(at[id].chunk, AckOf(acks, id), ChunksOf(stores, id))
  }

  ghost predicate Faithful(s: State, acks: Acks, stores: Stores) {
    OwedReaches(s.tracked, stores) && Backed(s.at, acks, stores) && Backed(s.disk, acks, stores)
  }

  /** A record the entry sink made of pushes of a store's chunks, each wherever a read may have begun in it. */
  ghost predicate Reads(c: EntryModel.Config, ins: seq<Input>, start: nat, r: EntryModel.Record, m: Bases) {
    FromChunks(ins, start, m) && (r in Feed(c, EntryModel.New, ins, start).out || r in Emitted(c, ins, start))
  }

  ghost predicate ReadFromStore(f: Frame, stores: Stores)
    requires f.Entry? && WellFormed(f)
  {
    exists c, ins, start, r ::
      Reads(c, ins, start, r, ChunksOf(stores, f.id.value))
      && f.offset.value == r.offset && f.len.value == |r.payload| && f.chunk == r.chunk
  }

  ghost predicate AllRead(frames: seq<Frame>, stores: Stores) {
    forall f :: f in frames && f.Entry? && WellFormed(f) ==> ReadFromStore(f, stores)
  }

  lemma SentReachesItsChunk(f: Frame, stores: Stores)
    requires f.Entry? && WellFormed(f) && ReadFromStore(f, stores)
    ensures Reaches(PendingOf(f).chunk, PendingOf(f).end, ChunksOf(stores, f.id.value))
  {
    var c, ins, start, r :|
      Reads(c, ins, start, r, ChunksOf(stores, f.id.value))
      && f.offset.value == r.offset && f.len.value == |r.payload| && f.chunk == r.chunk;
    RecordsReachTheirChunk(c, ins, start, ChunksOf(stores, f.id.value));
  }

  lemma SpliceOneOwes(s: Spliced, f: Frame, stores: Stores)
    requires OwedReaches(s.tracked, stores)
    requires f.Entry? && WellFormed(f) ==> ReadFromStore(f, stores)
    ensures OwedReaches(SpliceOne(s, f).tracked, stores)
  {
    if f.Entry? && WellFormed(f) {
      SentReachesItsChunk(f, stores);
      hide ReadFromStore, Reaches, ChunksOf;
    }
  }

  lemma {:induction false} SpliceOwes(tracked: map<Id, Tracked>, frames: seq<Frame>, stores: Stores)
    requires OwedReaches(tracked, stores) && AllRead(frames, stores)
    ensures OwedReaches(Splice(tracked, frames).tracked, stores)
  {
    if frames != [] {
      hide SpliceOne, ReadFromStore, OwedReaches;
      SpliceOwes(tracked, Front(frames), stores);
      SpliceOneOwes(Splice(tracked, Front(frames)), Last(frames), stores);
    }
  }

  // --------------------------------------------------------- acknowledging

  /** The highest acknowledgements after reports, of those a loop in state `s` acts on. */
  function AcksAfter(s: State, acks: Acks, rs: seq<Report>): Acks {
    if rs == [] then acks
    else
      var t, a, r := Drain(s, Front(rs)), AcksAfter(s, acks, Front(rs)), Last(rs);
      if !t.failed && r.Progress? && r.id in t.state.tracked then a[r.id := Max(AckOf(a, r.id), r.offset)] else a
  }

  lemma ReachesFurther(chunk: Option<nat>, end: nat, to: nat, m: Bases)
    requires Reaches(chunk, end, m) && end <= to
    ensures Reaches(chunk, to, m)
  {
  }

  /** The chunk a watermark records is that of an entry it covers, or was recorded before. */
  lemma AdvancedIsBacked(was: Option<At>, ps: seq<Pending>, offset: nat, ack: nat, wl: nat, n: nat, m: Bases)
    requires Carries(ps, m) && (was.Some? ==> Reaches(was.value.chunk, ack, m))
    ensures Reaches(AdvancedAt(was, offset, NewestChunk(UpTo(ps, offset)), wl, n).chunk, Max(ack, offset), m)
  {
    var acked := UpTo(ps, offset);
    var newest := NewestChunk(acked);
    if newest.Some? {
      var p :| p in acked && p.chunk == newest;
      ReachesFurther(p.chunk, p.end, offset, m);
    }
  }

  lemma WatermarkFaithful(s: State, acks: Acks, id: Id, offset: nat, taken: Option<nat>, stores: Stores)
    requires Faithful(s, acks, stores) && id in s.tracked
    ensures Faithful(Watermark(s, id, offset, taken), acks[id := Max(AckOf(acks, id), offset)], stores)
  {
    var ps, m := s.tracked[id].pending, ChunksOf(stores, id);
    var acked := UpTo(ps, offset);
    AdvancedIsBacked(Find(s.at, id), ps, offset, AckOf(acks, id), NewestWl(acked), |acked|, m);
    assert Carries(Past(ps, offset), m);
    var t, after := Watermark(s, id, offset, taken), acks[id := Max(AckOf(acks, id), offset)];
    hide AdvancedAt, NewestChunk, NewestWl, Past, UpTo, ChunksOf, TakenAfter;
    forall i | i in t.at
      ensures Reaches(t.at[i].chunk, AckOf(after, i), ChunksOf(stores, i))
    {
    }
    forall i | i in t.disk
      ensures Reaches(t.disk[i].chunk, AckOf(after, i), ChunksOf(stores, i))
    {
      ReachesFurther(t.disk[i].chunk, AckOf(acks, i), AckOf(after, i), ChunksOf(stores, i));
    }
  }

  lemma {:induction false} DrainFaithful(s: State, acks: Acks, rs: seq<Report>, stores: Stores)
    requires Faithful(s, acks, stores)
    ensures Faithful(Drain(s, rs).state, AcksAfter(s, acks, rs), stores)
  {
    if rs != [] {
      hide Watermark, Faithful;
      DrainFaithful(s, acks, Front(rs), stores);
      var t, a, r := Drain(s, Front(rs)), AcksAfter(s, acks, Front(rs)), Last(rs);
      if !t.failed && r.Progress? && r.id in t.state.tracked {
        WatermarkFaithful(t.state, a, r.id, r.offset, r.taken, stores);
      }
    }
  }

  /** What a store's consumer has acknowledged is the highest of what it had and what it says, if it was sent from. */
  lemma {:induction false} AcksAre(s: State, acks: Acks, rs: seq<Report>, id: Id)
    requires Hello !in rs
    ensures var a, was := AckOf(AcksAfter(s, acks, rs), id), AckOf(acks, id);
            && was <= a
            && (forall r :: r in rs && r.Progress? && r.id == id && id in s.tracked ==> r.offset <= a)
            && (a == was || (id in s.tracked && exists r :: r in rs && r.Progress? && r.id == id && r.offset == a))
    ensures !Drain(s, rs).failed && Drain(s, rs).state.tracked.Keys == s.tracked.Keys
  {
    if rs != [] {
      assert rs == Front(rs) + [Last(rs)];
      AcksAre(s, acks, Front(rs), id);
      hide Past, UpTo, NewestChunk, NewestWl;
    }
  }

  /** The highest acknowledgements after a turn, which may drain twice. */
  function TurnAcks(s: State, acks: Acks, turn: Turn): Acks {
    var sp, t := AfterSplice(s, turn), AfterDrain(s, turn);
    var a := if sp.failed then acks else AcksAfter(s.(tracked := sp.tracked), acks, turn.reports);
    if !sp.failed && !t.failed && sp.sent == 0 && !sp.more && AnyInFlight(t.state.tracked) && turn.wait.Spoke?
    then AcksAfter(t.state, a, [turn.wait.report] + turn.wait.more)
    else a
  }

  /** A claim or a pick-up says nothing of a chunk. */
  lemma SeededBacked(at: map<Id, At>, claims: seq<(Id, nat)>, acks: Acks, stores: Stores)
    requires Backed(at, acks, stores)
    ensures Backed(Seeded(at, claims), acks, stores)
  {
    hide Seeded;
    var r := Seeded(at, claims);
    forall id | id in r
      ensures Reaches(r[id].chunk, AckOf(acks, id), ChunksOf(stores, id))
    {
      if id in at {
        assert r[id] == at[id];
      }
    }
  }

  lemma PickedFaithful(s: State, acks: Acks, turn: Turn, stores: Stores)
    requires Faithful(s, acks, stores)
    ensures Faithful(PickedUp(s, turn), acks, stores)
  {
    SeededBacked(s.at, turn.picked, acks, stores);
    hide Backed, OwedReaches, Seeded;
  }

  /** A new process, whatever its consumer claims. */
  lemma ConnectFaithful(s: State, holds: seq<(Id, nat)>, acks: Acks, stores: Stores)
    requires Faithful(s, acks, stores)
    ensures Faithful(Connect(s.disk, holds), acks, stores)
  {
    SeededBacked(s.disk, holds, acks, stores);
    hide Backed, Seeded;
  }

  lemma AnnouncedOwes(s: State, turn: Turn, stores: Stores)
    requires OwedReaches(s.tracked, stores)
    ensures OwedReaches(Announce(MarkHeld(s.tracked), turn.stores), stores)
  {
    var a := Announce(MarkHeld(s.tracked), turn.stores);
    forall id | id in a
      ensures Carries(a[id].pending, ChunksOf(stores, id))
    {
      if id in s.tracked {
        assert Carries(s.tracked[id].pending, ChunksOf(stores, id));
      }
    }
  }

  lemma SplicedFaithful(s: State, acks: Acks, turn: Turn, stores: Stores)
    requires Faithful(s, acks, stores) && AllRead(turn.frames, stores)
    ensures Faithful(s.(tracked := AfterSplice(s, turn).tracked), acks, stores)
  {
    hide Splice, Announce, MarkHeld, Backed, OwedReaches, AllRead;
    AnnouncedOwes(s, turn, stores);
    SpliceOwes(Announce(MarkHeld(s.tracked), turn.stores), turn.frames, stores);
  }

  lemma PersistFaithful(s: State, acks: Acks, stores: Stores)
    requires Faithful(s, acks, stores)
    ensures Faithful(Persist(s), acks, stores)
  {
    hide Backed, OwedReaches;
  }

  lemma SettledFaithful(s: State, acks: Acks, reports: seq<Report>, stores: Stores)
    requires Faithful(s, acks, stores)
    ensures Faithful(Settle(s, reports).state, AcksAfter(s, acks, reports), stores)
  {
    hide Drain, Faithful, AcksAfter;
    DrainFaithful(s, acks, reports, stores);
    PersistFaithful(Drain(s, reports).state, AcksAfter(s, acks, reports), stores);
  }

  lemma ServedFaithful(s: State, acks: Acks, turn: Turn, follow: bool, stores: Stores)
    requires Faithful(s, acks, stores) && AllRead(turn.frames, stores)
    ensures Faithful(Serve(s, turn, follow).0, TurnAcks(s, acks, turn), stores)
  {
    hide Drain, AfterSplice, Settle, Faithful, AllRead, AnyInFlight, AcksAfter;
    SplicedFaithful(s, acks, turn, stores);
    var u := s.(tracked := AfterSplice(s, turn).tracked);
    SettledFaithful(u, acks, turn.reports, stores);
    var t := Settle(u, turn.reports).state;
    if turn.wait.Spoke? {
      var rs, a := [turn.wait.report] + turn.wait.more, AcksAfter(u, acks, turn.reports);
      DrainFaithful(t, a, rs, stores);
      PersistFaithful(Drain(t, rs).state, AcksAfter(t, a, rs), stores);
    }
  }

  lemma TurnFaithful(s: State, acks: Acks, turn: Turn, follow: bool, stores: Stores)
    requires Faithful(s, acks, stores) && AllRead(turn.frames, stores)
    ensures Faithful(RunTurn(s, turn, follow).0, TurnAcks(PickedUp(s, turn), acks, turn), stores)
  {
    hide Serve, Faithful, AllRead, TurnAcks;
    PickedFaithful(s, acks, turn, stores);
    ServedFaithful(PickedUp(s, turn), acks, turn, follow, stores);
  }

  // ----------------------------------------------------------- whole systems

  /** A follower: its declaration, its process, and what its consumer has acknowledged. */
  datatype Reader = Reader(name: string, selects: F.Fields -> bool, retains: bool, s: State, acks: Acks)

  /** `index` is the registry as a retention tick last read it; none if it could not be read. */
  datatype World = World(stores: Stores, readers: seq<Reader>, index: Option<seq<F.Retaining>>)

  datatype Event =
    | Grew(id: Id, bytes: nat)
    | Fed(i: nat, turn: Turn, follow: bool)
    | Ended(i: nat, reports: seq<Report>)
    | Connected(i: nat, holds: seq<(Id, nat)>)
    | RegistryRead(readable: bool)
    | HeadDropped(id: Id)

  function Positions(disk: map<Id, At>): map<Id, Option<nat>> {
    map id | id in disk :: disk[id].chunk
  }

  function Declared(r: Reader): F.Retaining {
    F.Retaining(r.name, r.selects, Positions(r.s.disk))
  }

  function Registry(readers: seq<Reader>): (all: seq<F.Retaining>)
    ensures forall d :: d in all <==> exists r :: r in readers && r.retains && d == Declared(r)
  {
    if readers == [] then []
    else
      assert readers == Front(readers) + [Last(readers)];
      if Last(readers).retains then Registry(Front(readers)) + [Declared(Last(readers))] else Registry(Front(readers))
  }

  function InterestIn(w: World, id: Id): F.Interest
    requires id in w.stores && w.stores[id].starts != []
  {
    if w.index.None? then F.Blind
    else F.InterestOf(F.Matching(w.index.value, w.stores[id].fields), w.stores[id].NextSeq())
  }

  function Held(st: Store): (held: seq<nat>)
    requires st.starts != [] && st.head < |st.starts|
    ensures |held| == st.NextSeq() - st.head && Sorted(held)
    ensures forall j :: 0 <= j < |held| ==> held[j] == st.head + j
  {
    seq(st.NextSeq() - st.head, j => st.head + j)
  }

  function Dropped(st: Store, i: F.Interest): Store
    requires st.starts != [] && st.head < |st.starts|
  {
    st.(head := st.head + F.Droppable(i, Held(st)))
  }

  ghost predicate MayOccur(w: World, e: Event) {
    match e
    case Grew(id, _) => id in w.stores
    case Fed(i, turn, _) => i < |w.readers| && AllRead(turn.frames, w.stores)
    case Ended(i, _) => i < |w.readers|
    case Connected(i, _) => i < |w.readers|
    case RegistryRead(_) => true
    case HeadDropped(id) => id in w.stores
  }

  function Grown(st: Store, bytes: nat): Store
    requires st.starts != []
  {
    st.(starts := st.starts + [Last(st.starts) + bytes])
  }

  function Turned(r: Reader, turn: Turn, follow: bool): Reader {
    r.(s := RunTurn(r.s, turn, follow).0, acks := TurnAcks(PickedUp(r.s, turn), r.acks, turn))
  }

  /** The end of a stream: everything its consumer still says. */
  function HeardOut(r: Reader, reports: seq<Report>): Reader {
    r.(s := Settle(r.s, reports).state, acks := AcksAfter(r.s, r.acks, reports))
  }

  /** A process that starts, after a crash or an end. */
  function Restarted(r: Reader, holds: seq<(Id, nat)>): Reader {
    r.(s := Connect(r.s.disk, holds))
  }

  ghost function Occur(w: World, e: Event): World
    requires StoresValid(w.stores) && MayOccur(w, e)
  {
    match e
    case Grew(id, bytes) => w.(stores := w.stores[id := Grown(w.stores[id], bytes)])
    case Fed(i, turn, follow) => w.(readers := w.readers[i := Turned(w.readers[i], turn, follow)])
    case Ended(i, reports) => w.(readers := w.readers[i := HeardOut(w.readers[i], reports)])
    case Connected(i, holds) => w.(readers := w.readers[i := Restarted(w.readers[i], holds)])
    case RegistryRead(readable) => w.(index := if readable then Some(Registry(w.readers)) else None)
    case HeadDropped(id) => w.(stores := w.stores[id := Dropped(w.stores[id], InterestIn(w, id))])
  }

  // ------------------------------------------------------------ the invariant

  ghost predicate StoresValid(stores: Stores) {
    forall id :: id in stores ==>
      stores[id].Valid() && "id" in stores[id].fields && stores[id].fields["id"] == id
  }

  /** What the registry says of a follower is backed by what it has acknowledged. */
  ghost predicate Stands(r: F.Retaining, reader: Reader, stores: Stores) {
    && r.selects == reader.selects
    && forall id :: id in r.at ==> Reaches(r.at[id], AckOf(reader.acks, id), ChunksOf(stores, id))
  }

  ghost predicate Indexed(index: Option<seq<F.Retaining>>, reader: Reader, stores: Stores) {
    index.Some? && reader.retains ==> exists r :: r in index.value && Stands(r, reader, stores)
  }

  /** Every dropped chunk lies below what was acknowledged. */
  predicate DroppedIsAcknowledged(st: Store, ack: nat)
    requires st.head < |st.starts|
  {
    forall k :: 0 < k <= st.head ==> st.starts[k] <= ack
  }

  ghost predicate ReaderSafe(w: World, reader: Reader)
    requires StoresValid(w.stores)
  {
    && Faithful(reader.s, reader.acks, w.stores)
    && Indexed(w.index, reader, w.stores)
    && forall id :: id in w.stores && reader.retains && reader.selects(w.stores[id].fields) ==>
         DroppedIsAcknowledged(w.stores[id], AckOf(reader.acks, id))
  }

  ghost predicate Safe(w: World) {
    StoresValid(w.stores) && forall i :: 0 <= i < |w.readers| ==> ReaderSafe(w, w.readers[i])
  }

  // --------------------------------------------------------------- the proof

  /** A follower the registry holds stands at or past the floor, in a chunk that exists. */
  lemma FloorIsPassed(all: seq<F.Retaining>, fields: F.Fields, nextSeq: nat, r: F.Retaining)
    requires r in all && r.selects(fields) && F.InterestOf(F.Matching(all, fields), nextSeq).floor.Some?
    ensures var at := F.PositionIn(r, fields);
            at.Some? && F.InterestOf(F.Matching(all, fields), nextSeq).floor.value <= at.value < nextSeq
  {
    hide F.InterestOf;
    assert F.Held(r.name, F.PositionIn(r, fields)) in F.Matching(all, fields);
    F.FloorIsLeast(F.Matching(all, fields), nextSeq);
  }

  /** Any chunk below the floor ends at or before what every retaining follower of the store has acknowledged. */
  lemma BelowFloorIsAcknowledged(w: World, id: Id, reader: Reader, k: nat)
    requires StoresValid(w.stores) && id in w.stores
    requires reader.retains && reader.selects(w.stores[id].fields) && Indexed(w.index, reader, w.stores)
    requires InterestIn(w, id).floor.Some? && k < InterestIn(w, id).floor.value
    ensures k + 1 < |w.stores[id].starts| && w.stores[id].starts[k + 1] <= AckOf(reader.acks, id)
  {
    hide F.InterestOf, F.Matching, ChunksOf, Reaches;
    var st := w.stores[id];
    var r :| r in w.index.value && Stands(r, reader, w.stores);
    FloorIsPassed(w.index.value, st.fields, st.NextSeq(), r);
    var at := r.at[id];
    ReachedChunkBegins(w.stores, id, at, AckOf(reader.acks, id));
    assert st.starts[k + 1] <= st.starts[at.value];
  }

  lemma ReachedChunkBegins(stores: Stores, id: Id, chunk: Option<nat>, end: nat)
    requires id in stores && chunk.Some? && Reaches(chunk, end, ChunksOf(stores, id))
    ensures chunk.value < |stores[id].starts| && stores[id].starts[chunk.value] <= end
  {
  }

  lemma ChunkBegins(stores: Stores, id: Id, k: nat)
    requires id in stores && k in ChunksOf(stores, id)
    ensures k < |stores[id].starts| && ChunksOf(stores, id)[k] == stores[id].starts[k]
  {
  }

  /** A store that grows keeps the chunks it had. */
  lemma GrowthKeepsReach(stores: Stores, id: Id, bytes: nat, chunk: Option<nat>, end: nat, at: Id)
    requires id in stores && stores[id].starts != [] && Reaches(chunk, end, ChunksOf(stores, at))
    ensures Reaches(chunk, end, ChunksOf(stores[id := Grown(stores[id], bytes)], at))
  {
    if at == id && chunk.Some? {
      ChunkBegins(stores, id, chunk.value);
    }
  }

  /** `stores` may have grown into `after`: every chunk still begins where it did. */
  ghost predicate Keeps(stores: Stores, after: Stores) {
    forall id, chunk, end :: Reaches(chunk, end, ChunksOf(stores, id)) ==> Reaches(chunk, end, ChunksOf(after, id))
  }

  lemma KeptFaithful(s: State, acks: Acks, stores: Stores, after: Stores)
    requires Faithful(s, acks, stores) && Keeps(stores, after)
    ensures Faithful(s, acks, after)
  {
    hide Reaches, ChunksOf;
    forall id | id in s.tracked
      ensures Carries(s.tracked[id].pending, ChunksOf(after, id))
    {
      assert Carries(s.tracked[id].pending, ChunksOf(stores, id));
    }
  }

  lemma KeptIndexed(index: Option<seq<F.Retaining>>, reader: Reader, stores: Stores, after: Stores)
    requires Indexed(index, reader, stores) && Keeps(stores, after)
    ensures Indexed(index, reader, after)
  {
    hide Reaches, ChunksOf;
    if index.Some? && reader.retains {
      var r :| r in index.value && Stands(r, reader, stores);
      assert Stands(r, reader, after);
    }
  }

  lemma GrewSafe(w: World, id: Id, bytes: nat)
    requires Safe(w) && id in w.stores
    ensures Safe(Occur(w, Grew(id, bytes)))
  {
    var after := w.stores[id := Grown(w.stores[id], bytes)];
    forall i: Id, chunk, end | Reaches(chunk, end, ChunksOf(w.stores, i))
      ensures Reaches(chunk, end, ChunksOf(after, i))
    {
      GrowthKeepsReach(w.stores, id, bytes, chunk, end, i);
    }
    assert Keeps(w.stores, after);
    forall r | r in w.readers
      ensures Faithful(r.s, r.acks, after) && Indexed(w.index, r, after)
    {
      KeptFaithful(r.s, r.acks, w.stores, after);
      KeptIndexed(w.index, r, w.stores, after);
    }
    hide Faithful, Indexed, Reaches, Keeps;
  }

  /** A follower's acknowledgements only grow. */
  lemma {:induction false} AcksGrow(s: State, acks: Acks, rs: seq<Report>, id: Id)
    ensures AckOf(acks, id) <= AckOf(AcksAfter(s, acks, rs), id)
  {
    if rs != [] {
      hide Drain;
      AcksGrow(s, acks, Front(rs), id);
    }
  }

  lemma TurnAcksGrow(s: State, acks: Acks, turn: Turn, id: Id)
    ensures AckOf(acks, id) <= AckOf(TurnAcks(s, acks, turn), id)
  {
    var sp, t := AfterSplice(s, turn), AfterDrain(s, turn);
    hide AfterSplice, AfterDrain, AcksAfter, AckOf, AnyInFlight;
    AcksGrow(s.(tracked := sp.tracked), acks, turn.reports, id);
    if turn.wait.Spoke? {
      AcksGrow(t.state, acks, [turn.wait.report] + turn.wait.more, id);
      AcksGrow(t.state, AcksAfter(s.(tracked := sp.tracked), acks, turn.reports),
               [turn.wait.report] + turn.wait.more, id);
    }
  }

  /** One follower moves on, its acknowledgements no lower: nothing it said before is taken back. */
  lemma MovedReaderSafe(w: World, reader: Reader, after: Reader)
    requires StoresValid(w.stores) && ReaderSafe(w, reader) && Faithful(after.s, after.acks, w.stores)
    requires after.selects == reader.selects && after.retains == reader.retains
    requires forall id :: AckOf(reader.acks, id) <= AckOf(after.acks, id)
    ensures ReaderSafe(w, after)
  {
    hide Faithful, ChunksOf, AckOf;
    if w.index.Some? && reader.retains {
      var r :| r in w.index.value && Stands(r, reader, w.stores);
      assert Stands(r, after, w.stores);
    }
  }

  lemma FedSafe(w: World, i: nat, turn: Turn, follow: bool)
    requires Safe(w) && MayOccur(w, Fed(i, turn, follow))
    ensures Safe(Occur(w, Fed(i, turn, follow)))
  {
    var r := w.readers[i];
    forall id
      ensures AckOf(r.acks, id) <= AckOf(TurnAcks(PickedUp(r.s, turn), r.acks, turn), id)
    {
      TurnAcksGrow(PickedUp(r.s, turn), r.acks, turn, id);
    }
    TurnFaithful(r.s, r.acks, turn, follow, w.stores);
    hide RunTurn, TurnAcks, AckOf, Faithful;
    MovedReaderSafe(w, r, Turned(r, turn, follow));
    hide Indexed;
  }

  lemma EndedSafe(w: World, i: nat, reports: seq<Report>)
    requires Safe(w) && i < |w.readers|
    ensures Safe(Occur(w, Ended(i, reports)))
  {
    var r := w.readers[i];
    forall id
      ensures AckOf(r.acks, id) <= AckOf(AcksAfter(r.s, r.acks, reports), id)
    {
      AcksGrow(r.s, r.acks, reports, id);
    }
    SettledFaithful(r.s, r.acks, reports, w.stores);
    hide Settle, AcksAfter, AckOf, Faithful;
    MovedReaderSafe(w, r, HeardOut(r, reports));
    hide Indexed;
  }

  lemma ConnectedSafe(w: World, i: nat, holds: seq<(Id, nat)>)
    requires Safe(w) && i < |w.readers|
    ensures Safe(Occur(w, Connected(i, holds)))
  {
    var r := w.readers[i];
    ConnectFaithful(r.s, holds, r.acks, w.stores);
    hide Faithful, Connect;
    MovedReaderSafe(w, r, Restarted(r, holds));
    hide Indexed;
  }

  lemma RegistryReadSafe(w: World, readable: bool)
    requires Safe(w)
    ensures Safe(Occur(w, RegistryRead(readable)))
  {
    var index := if readable then Some(Registry(w.readers)) else None;
    forall i | 0 <= i < |w.readers|
      ensures Indexed(index, w.readers[i], w.stores)
    {
      var r := w.readers[i];
      if r.retains && readable {
        assert Stands(Declared(r), r, w.stores);
      }
    }
    hide Faithful, Indexed, Registry;
  }

  /** How far a drop goes: past chunks below the floor and no others. */
  lemma DropStopsAtFloor(st: Store, i: F.Interest, k: nat)
    requires st.starts != [] && st.head < |st.starts| && st.head < k <= Dropped(st, i).head
    ensures k < |st.starts| && i.floor.Some? && k - 1 < i.floor.value
  {
    assert Held(st)[k - 1 - st.head] == k - 1;
    hide F.Droppable;
  }

  /**
   * Interest lets go of exactly the head chunks that every retaining follower
   * of the store, and at least one, has recorded a position past, in a chunk
   * that was written.
   */
  lemma HeadDropsTheRead(w: World, id: Id, k: nat)
    requires StoresValid(w.stores) && id in w.stores && w.index.Some?
    requires w.stores[id].head <= k < w.stores[id].NextSeq()
    ensures var st, all := w.stores[id], w.index.value;
            k < Dropped(st, InterestIn(w, id)).head <==>
              && (exists r :: r in all && r.selects(st.fields))
              && forall r :: r in all && r.selects(st.fields) ==>
                   id in r.at && r.at[id].Some? && k < r.at[id].value < st.NextSeq()
  {
    var st := w.stores[id];
    assert Held(st)[k - st.head] == k;
    F.LetsGoTheRead(F.Matching(w.index.value, st.fields), st.NextSeq(), Held(st), k - st.head);
    F.MatchedPositions(w.index.value, st.fields, id, k, st.NextSeq());
    hide F.Droppable, F.InterestOf, F.Matching;
  }

  lemma DropKeeps(stores: Stores, id: Id, i: F.Interest)
    requires id in stores && stores[id].starts != [] && stores[id].head < |stores[id].starts|
    ensures Keeps(stores, stores[id := Dropped(stores[id], i)])
  {
    hide F.Droppable;
    var after := stores[id := Dropped(stores[id], i)];
    forall at
      ensures ChunksOf(after, at) == ChunksOf(stores, at)
    {
    }
  }

  lemma DropAcknowledged(w: World, id: Id, reader: Reader)
    requires StoresValid(w.stores) && id in w.stores && ReaderSafe(w, reader)
    requires reader.retains && reader.selects(w.stores[id].fields)
    ensures var st := Dropped(w.stores[id], InterestIn(w, id));
            st.head < |st.starts| && DroppedIsAcknowledged(st, AckOf(reader.acks, id))
  {
    hide InterestIn, F.Droppable, Faithful, Indexed;
    var st := Dropped(w.stores[id], InterestIn(w, id));
    forall k | 0 < k <= st.head
      ensures k < |st.starts| && st.starts[k] <= AckOf(reader.acks, id)
    {
      if k > w.stores[id].head {
        DropStopsAtFloor(w.stores[id], InterestIn(w, id), k);
        BelowFloorIsAcknowledged(w, id, reader, k - 1);
      }
    }
  }

  lemma HeadDroppedSafe(w: World, id: Id)
    requires Safe(w) && id in w.stores
    ensures Safe(Occur(w, HeadDropped(id)))
  {
    var after := w.stores[id := Dropped(w.stores[id], InterestIn(w, id))];
    DropKeeps(w.stores, id, InterestIn(w, id));
    forall r | r in w.readers
      ensures Faithful(r.s, r.acks, after) && Indexed(w.index, r, after)
      ensures r.retains && r.selects(after[id].fields) ==>
                after[id].head < |after[id].starts| && DroppedIsAcknowledged(after[id], AckOf(r.acks, id))
    {
      KeptFaithful(r.s, r.acks, w.stores, after);
      KeptIndexed(w.index, r, w.stores, after);
      if r.retains && r.selects(after[id].fields) {
        DropAcknowledged(w, id, r);
      }
    }
    assert after[id].head < |after[id].starts|;
    hide Faithful, Indexed, Keeps, Dropped, InterestIn, DroppedIsAcknowledged;
  }

  /** Whatever happens, in whatever order. */
  lemma OccurSafe(w: World, e: Event)
    requires Safe(w) && MayOccur(w, e)
    ensures Safe(Occur(w, e))
  {
    match e
    case Grew(id, bytes) => GrewSafe(w, id, bytes);
    case Fed(i, turn, follow) => FedSafe(w, i, turn, follow);
    case Ended(i, reports) => EndedSafe(w, i, reports);
    case Connected(i, holds) => ConnectedSafe(w, i, holds);
    case RegistryRead(readable) => RegistryReadSafe(w, readable);
    case HeadDropped(id) => HeadDroppedSafe(w, id);
  }

  // -------------------------------------------------------------- the theorem

  /** Stores with their chunks on disk; followers that have never run; no registry read yet. */
  ghost predicate Fresh(w: World) {
    && StoresValid(w.stores) && w.index == None
    && (forall id :: id in w.stores ==> w.stores[id].head == 0)
    && forall r :: r in w.readers ==> r.s == State(map[], map[], map[]) && r.acks == map[]
  }

  ghost predicate History(ws: seq<World>, es: seq<Event>) {
    && |ws| == |es| + 1 && Fresh(ws[0])
    && forall i :: 0 <= i < |es| ==>
         StoresValid(ws[i].stores) && MayOccur(ws[i], es[i]) && ws[i + 1] == Occur(ws[i], es[i])
  }

  lemma {:induction false} AlwaysSafe(ws: seq<World>, es: seq<Event>, n: nat)
    requires History(ws, es) && n < |ws|
    ensures Safe(ws[n])
  {
    if n > 0 {
      AlwaysSafe(ws, es, n - 1);
      OccurSafe(ws[n - 1], es[n - 1]);
      hide Safe, Occur, MayOccur;
      assert ws[n] == Occur(ws[n - 1], es[n - 1]);
    }
  }

  /**
   * At any point of any history: of a store a retaining follower covers, the
   * chunks already dropped and those the floor now lets go end at or before
   * the highest offset that follower has acknowledged.
   */
  lemma RetentionNeverOutrunsDelivery(ws: seq<World>, es: seq<Event>, n: nat, id: Id, r: Reader, k: nat)
    requires History(ws, es) && n < |ws| && id in ws[n].stores && ws[n].stores[id].starts != []
    requires r in ws[n].readers && r.retains && r.selects(ws[n].stores[id].fields)
    requires k < ws[n].stores[id].head
             || (InterestIn(ws[n], id).floor.Some? && k < InterestIn(ws[n], id).floor.value)
    ensures k + 1 < |ws[n].stores[id].starts| && ws[n].stores[id].starts[k + 1] <= AckOf(r.acks, id)
  {
    AlwaysSafe(ws, es, n);
    hide InterestIn, Faithful, Indexed;
    if k < ws[n].stores[id].head {
      assert DroppedIsAcknowledged(ws[n].stores[id], AckOf(r.acks, id));
    } else {
      BelowFloorIsAcknowledged(ws[n], id, r, k);
    }
  }
}
