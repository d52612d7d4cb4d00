/**
 * One history from end to end, in which a chunk does go: a store grows a
 * second chunk, a follower is sent an entry of it and acknowledges it as its
 * stream ends, starts again, the registry is read, and the head is dropped.
 */
module RetentionCase {
  import opened Common
  import opened Cursors
  import opened FeedModel
  import opened DeliveryCases
  import EntryModel
  import opened EntryTape
  import opened EntryAttribution
  import F = Follower
  import opened Retention

  const S: Id := "s"

  const Everything: F.Fields -> bool := (f: F.Fields) => true

  function StoreOf(starts: seq<nat>, head: nat): Store {
    Store(map["id" := S], starts, head)
  }

  function ReaderIn(s: State, acks: Acks): Reader {
    Reader("r", Everything, true, s, acks)
  }

  function Stores1(starts: seq<nat>, head: nat): Stores {
    map[S := StoreOf(starts, head)]
  }

  /** Two bytes of the second chunk, which is the first the follower is sent. */
  const TheEntry: Frame := Entry(Some(S), Some(2), Some(2), Some(1), None)

  const TheTurn: Turn := Turn([(S, 2)], [S], [TheEntry], [], Gone)

  const TheReport: Report := Progress(S, 4, None)

  const NotYet: State := State(map[], map[], map[])

  const Sent: State :=
    State(map[S := Tracked([Pending(4, Some(1), 0)], None, false)], map[S := At(2, None, 0, 0)], map[])

  const Done: map<Id, At> := map[S := At(4, Some(1), 0, 1)]

  // ------------------------------------------------ the entry is the store's

  const Unfiltered: EntryModel.Config := EntryModel.Config((head: seq<byte>) => None, None, None, None)

  const TheChunk: Input := Push([97, NEWLINE], Some(1), (0, 0))

  const TheRecord: EntryModel.Record := EntryModel.Record(2, None, Some(1), (0, 0), [97, NEWLINE])

  lemma EntryIsRead()
    ensures TheRecord in Emitted(Unfiltered, [TheChunk], 2)
  {
    var data := [97, NEWLINE];
    var b := EntryModel.Step(Unfiltered, EntryModel.New, EntryModel.Begin(Some(1), (0, 0), 2));
    assert b == EntryModel.New.(cur := EntryModel.Source(Some(1), (0, 0)), lineBegin := 2);
    FeedLast(Unfiltered, EntryModel.New, [TheChunk], 2, 2);
    assert Front([TheChunk]) == [] && Data([]) == [];
    EntryModel.RunPush(Unfiltered, EntryModel.New, data, Some(1), (0, 0), 2);
    EntryBytes(b, data);
  }

  /** The bytes, one by one, and the end of them. */
  lemma EntryBytes(b: EntryModel.Sink, data: seq<byte>)
    requires b == EntryModel.New.(cur := EntryModel.Source(Some(1), (0, 0)), lineBegin := 2) && data == [97, NEWLINE]
    ensures EntryModel.Finish(Unfiltered, EntryModel.CutLong(Unfiltered, EntryModel.RunBytes(Unfiltered, b, data, 2))).out
         == [TheRecord]
  {
    var c := Unfiltered;
    assert Front(data) == [97] && Front([97]) == [];
    assert EntryModel.RunBytes(c, b, [], 2) == b;
    EntryModel.RunBytesLast(c, b, [97], 2, 2);
    EntryModel.RunBytesLast(c, b, data, 2, 3);
    assert b.line + [97] == [97] && [97] + [NEWLINE] == data;
    var t := EntryModel.RunBytes(c, b, data, 2);
    assert t.entry == data && t.line == [] && t.out == [] && t.entryBegin == 2;
    assert EntryModel.CutLong(c, t) == t;
    assert [] + [TheRecord] == [TheRecord];
  }

  lemma FrameIsRead(stores: Stores)
    requires stores == Stores1([0, 2, 4], 0)
    ensures AllRead([TheEntry], stores)
  {
    var m := ChunksOf(stores, S);
    EntryIsRead();
    assert 1 in m && m[1] == 2;
    assert Front([TheChunk]) == [] && FromChunks([], 2, m) && Data([]) == [];
    assert FromChunks([TheChunk], 2, m);
    assert Reads(Unfiltered, [TheChunk], 2, TheRecord, m);
    assert ReadFromStore(TheEntry, stores);
  }

  // --------------------------------------------------------- what happens

  lemma Feeds()
    ensures RunTurn(NotYet, TheTurn, true).0 == Sent && TurnAcks(PickedUp(NotYet, TheTurn), map[], TheTurn) == map[]
  {
    var p := PickedUp(NotYet, TheTurn);
    var m := map[S := Tracked([Pending(4, Some(1), 0)], None, false)];
    OneSeed(S, 2);
    assert p == NotYet.(at := map[S := At(2, None, 0, 0)]);
    OneEntry(p, TheTurn, S, TheEntry, Untouched);
    assert [] + [PendingOf(TheEntry)] == [Pending(4, Some(1), 0)];
    hide AfterSplice;
    OneServed(p, TheTurn, true, m, S);
    NothingSaid(p.(tracked := m));
  }

  lemma TheEntryIsCovered()
    ensures var ps := Sent.tracked[S].pending;
            && Past(ps, 4) == [] && UpTo(ps, 4) == ps && NewestChunk(ps) == Some(1) && NewestWl(ps) == 0
  {
    var ps := Sent.tracked[S].pending;
    assert Front(ps) == [] && Past([], 4) == [] && UpTo([], 4) == [];
    assert NewestChunk([]) == None && NewestWl([]) == 0;
  }

  lemma Acknowledges()
    ensures Settle(Sent, [TheReport]).state == State(map[S := Untouched], Done, Done)
    ensures AcksAfter(Sent, map[], [TheReport]) == map[S := 4]
  {
    TheEntryIsCovered();
    hide Past, UpTo, NewestChunk, NewestWl;
    OneReport(Sent, TheReport);
    assert Sent.at[S := At(4, Some(1), 0, 1)] == Done;
    assert Take(Sent, TheReport) == State(map[S := Untouched], Done, map[]);
    FirstAck();
    hide Drain, Take;
  }

  lemma FirstAck()
    ensures AcksAfter(Sent, map[], [TheReport]) == map[S := 4]
  {
    assert Front([TheReport]) == [];
    assert Drain(Sent, []) == Taken(Sent, false, false) && AcksAfter(Sent, map[], []) == map[];
  }

  const W0: World := World(Stores1([0, 2], 0), [ReaderIn(NotYet, map[])], None)
  const W1: World := W0.(stores := Stores1([0, 2, 4], 0))
  const W2: World := W1.(readers := [ReaderIn(Sent, map[])])
  const W3: World := W1.(readers := [ReaderIn(State(map[S := Untouched], Done, Done), map[S := 4])])
  const W4: World := W1.(readers := [ReaderIn(State(map[], Done, Done), map[S := 4])])
  const W5: World := W4.(index := Some([F.Retaining("r", Everything, map[S := Some(1)])]))
  const W6: World := W5.(stores := Stores1([0, 2, 4], 1))

  lemma AllValid(starts: seq<nat>, head: nat)
    requires starts in {[0, 2], [0, 2, 4]} && head <= 1
    ensures StoresValid(Stores1(starts, head))
  {
  }

  lemma StepsToSent()
    ensures StoresValid(W0.stores) && StoresValid(W1.stores)
    ensures Occur(W0, Grew(S, 2)) == W1
    ensures MayOccur(W1, Retention.Fed(0, TheTurn, true)) && Occur(W1, Retention.Fed(0, TheTurn, true)) == W2
  {
    AllValid([0, 2], 0);
    AllValid([0, 2, 4], 0);
    assert [0, 2] + [4] == [0, 2, 4];
    assert W0.stores[S := StoreOf([0, 2, 4], 0)] == W1.stores;
    FrameIsRead(W1.stores);
    Feeds();
    assert [ReaderIn(NotYet, map[])][0 := ReaderIn(Sent, map[])] == [ReaderIn(Sent, map[])];
    hide RunTurn, TurnAcks, AllRead;
  }

  lemma StepsToDone()
    ensures StoresValid(W2.stores) && StoresValid(W3.stores)
    ensures Occur(W2, Ended(0, [TheReport])) == W3 && Occur(W3, Retention.Connected(0, [])) == W4
  {
    AllValid([0, 2, 4], 0);
    Acknowledges();
    SeededNothing(Done);
    hide Settle, AcksAfter, Seeded;
    var after := ReaderIn(State(map[S := Untouched], Done, Done), map[S := 4]);
    assert [ReaderIn(Sent, map[])][0 := after] == [after];
    assert [after][0 := ReaderIn(State(map[], Done, Done), map[S := 4])] == W4.readers;
  }

  const Its: F.Retaining := F.Retaining("r", Everything, map[S := Some(1)])

  lemma StepToRead()
    ensures StoresValid(W4.stores) && Occur(W4, RegistryRead(true)) == W5
  {
    AllValid([0, 2, 4], 0);
    var r := W4.readers[0];
    assert Front([r]) == [] && Registry([]) == [];
    assert Retention.Positions(Done) == map[S := Some(1)];
    assert W4.readers == [r];
    assert Registry([r]) == [] + [Declared(r)];
    assert Declared(r) == Its && [] + [Its] == [Its];
  }

  lemma StepToDropped()
    ensures StoresValid(W5.stores) && Occur(W5, HeadDropped(S)) == W6
  {
    AllValid([0, 2, 4], 0);
    var st := W5.stores[S];
    HeadDropsTheRead(W5, S, 0);
    HeadDropsTheRead(W5, S, 1);
    assert Its in W5.index.value && Its.selects(st.fields);
    hide InterestIn, F.Droppable;
    assert Dropped(st, InterestIn(W5, S)).head == 1;
    assert W5.stores[S := StoreOf([0, 2, 4], 1)] == W6.stores;
  }

  lemma SixSteps(a: Event, b: Event, c: Event, d: Event, e: Event, f: Event)
    requires StoresValid(W0.stores) && StoresValid(W1.stores) && StoresValid(W2.stores) && StoresValid(W3.stores)
    requires StoresValid(W4.stores) && StoresValid(W5.stores) && Fresh(W0)
    requires MayOccur(W0, a) && Occur(W0, a) == W1 && MayOccur(W1, b) && Occur(W1, b) == W2
    requires MayOccur(W2, c) && Occur(W2, c) == W3 && MayOccur(W3, d) && Occur(W3, d) == W4
    requires MayOccur(W4, e) && Occur(W4, e) == W5 && MayOccur(W5, f) && Occur(W5, f) == W6
    ensures History([W0, W1, W2, W3, W4, W5, W6], [a, b, c, d, e, f])
  {
    hide Occur, MayOccur, StoresValid, Fresh;
    var ws, es := [W0, W1, W2, W3, W4, W5, W6], [a, b, c, d, e, f];
    forall i | 0 <= i < |es|
      ensures StoresValid(ws[i].stores) && MayOccur(ws[i], es[i]) && ws[i + 1] == Occur(ws[i], es[i])
    {
    }
  }

  lemma MayAll()
    ensures MayOccur(W0, Grew(S, 2)) && MayOccur(W2, Ended(0, [TheReport]))
    ensures MayOccur(W3, Retention.Connected(0, [])) && MayOccur(W4, RegistryRead(true))
    ensures MayOccur(W5, HeadDropped(S)) && Fresh(W0)
  {
    AllValid([0, 2], 0);
    hide StoresValid, AllRead;
  }

  /** It is a history, and in it the first chunk goes. */
  lemma ChunkGoes() returns (ws: seq<World>, es: seq<Event>)
    ensures es == [Grew(S, 2), Retention.Fed(0, TheTurn, true), Ended(0, [TheReport]), Retention.Connected(0, []),
                   RegistryRead(true), HeadDropped(S)]
    ensures ws == [W0, W1, W2, W3, W4, W5, W6] && History(ws, es)
    ensures ws[0].stores[S].head == 0 && ws[6].stores[S].head == 1
  {
    OneHasGone();
    es := [Grew(S, 2), Retention.Fed(0, TheTurn, true), Ended(0, [TheReport]), Retention.Connected(0, []),
           RegistryRead(true), HeadDropped(S)];
    ws := [W0, W1, W2, W3, W4, W5, W6];
    hide Occur, MayOccur, Fresh, StoresValid, History;
    StepsToSent();
    StepsToDone();
    StepToRead();
    StepToDropped();
    MayAll();
    SixSteps(Grew(S, 2), Retention.Fed(0, TheTurn, true), Ended(0, [TheReport]), Retention.Connected(0, []),
             RegistryRead(true), HeadDropped(S));
  }

  /** One was held at its start, and one has gone at its end. */
  lemma OneHasGone()
    ensures W0.stores[S].head == 0 && W6.stores[S].head == 1
  {
  }
}
