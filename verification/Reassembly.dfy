/**
 * Putting a split line back together (src/forward.rs, `PartialReassembler`):
 * fragments are buffered by id and merged when the last one arrives, within a
 * bound on each buffer and a bound on how many there are.
 */
module Reassembly {
  import opened Common

  const PARTIAL_MAX_BYTES: nat := 16 * 1024 * 1024
  const PARTIAL_MAX_OUTSTANDING: nat := 1000

  type Id = string

  /** A decoded record, as far as reassembly looks at it. */
  datatype Message = Message(time: nat, partial: bool, id: Option<Id>, last: bool, payload: seq<byte>)

  datatype Partial = Partial(firstTime: nat, bytes: seq<byte>)

  type Buffers = map<Id, Partial>

  /** An entry as merged, and the id it was merged under. */
  datatype Merged = Merged(id: Option<Id>, time: nat, bytes: seq<byte>)

  datatype Entry = Entry(time: nat, line: seq<byte>)

  function WithNewline(bytes: seq<byte>): (line: seq<byte>)
    ensures line != [] && Last(line) == NEWLINE
    ensures line == bytes || line == bytes + [NEWLINE]
    ensures bytes != [] && Last(bytes) == NEWLINE ==> line == bytes
  {
    if bytes == [] || Last(bytes) != NEWLINE then bytes + [NEWLINE] else bytes
  }

  /** The id a fragment is buffered under; a whole record and one without an id have none. */
  function Key(m: Message): Option<Id> {
    if m.partial then m.id else None
  }

  datatype State = State(buffers: Buffers, merged: seq<Merged>)

  predicate Full(b: Buffers, id: Id) {
    id !in b && |b| >= PARTIAL_MAX_OUTSTANDING
  }

  /** The buffer of an id once a fragment has joined it. */
  function Joined(was: Option<Partial>, m: Message): Partial {
    if was.Some? then Partial(was.value.firstTime, was.value.bytes + m.payload) else Partial(m.time, m.payload)
  }

  predicate Closes(p: Partial, m: Message) {
    |p.bytes| > PARTIAL_MAX_BYTES || m.last
  }

  function Held(b: Buffers, id: Id): Option<Partial> {
    if id in b then Some(b[id]) else None
  }

  function Step(s: State, m: Message): State {
    var key := Key(m);
    if key.None? || Full(s.buffers, key.value) then
      s.(merged := s.merged + [Merged(key, m.time, m.payload)])
    else
      var p := Joined(Held(s.buffers, key.value), m);
      if Closes(p, m) then State(s.buffers - {key.value}, s.merged + [Merged(key, p.firstTime, p.bytes)])
      else s.(buffers := s.buffers[key.value := p])
  }

  function Run(ms: seq<Message>): State {
    if ms == [] then State(map[], []) else Step(Run(Front(ms)), Last(ms))
  }

  class PartialReassembler {
    var buffers: Buffers

    constructor ()
      ensures buffers == Run([]).buffers
    {
      buffers := map[];
    }

    method Feed(m: Message) returns (out: seq<Entry>)
      modifies this
      ensures var after := Step(State(old(buffers), []), m);
              && buffers == after.buffers
              && out == Map((e: Merged) => Entry(e.time, WithNewline(e.bytes)), after.merged)
    {
      ghost var f := (e: Merged) => Entry(e.time, WithNewline(e.bytes));
      assert forall e :: Map(f, [e]) == [f(e)];
      if !m.partial || m.id.None? {
        return [Entry(m.time, WithNewline(m.payload))];
      }
      var id := m.id.value;
      if id !in buffers && |buffers| >= PARTIAL_MAX_OUTSTANDING {
        return [Entry(m.time, WithNewline(m.payload))];
      }
      var buf := if id in buffers then buffers[id] else Partial(m.time, []);
      buf := buf.(bytes := buf.bytes + m.payload);
      assert [] + m.payload == m.payload;
      if |buf.bytes| > PARTIAL_MAX_BYTES {
        buffers := buffers - {id};
        return [Entry(buf.firstTime, WithNewline(buf.bytes))];
      }
      if m.last {
        buffers := buffers - {id};
        return [Entry(buf.firstTime, WithNewline(buf.bytes))];
      }
      buffers := buffers[id := buf];
      return [];
    }
  }

  /** A whole record, and a fragment of no series, come out at once, as they are. */
  lemma WholeComesOut(s: State, m: Message)
    requires !m.partial || m.id.None?
    ensures Step(s, m) == State(s.buffers, s.merged + [Merged(None, m.time, m.payload)])
  {
  }

  // ------------------------------------------------------------ it is bounded

  predicate Bounded(b: Buffers) {
    |b| <= 1000 && forall id :: id in b ==> |b[id].bytes| <= 0x100_0000
  }

  /** Whatever arrives. */
  lemma {:induction false} RunIsBounded(ms: seq<Message>)
    ensures Bounded(Run(ms).buffers)
  {
    if ms != [] {
      RunIsBounded(Front(ms));
      var s, m := Run(Front(ms)), Last(ms);
      var key := Key(m);
      if key.Some? {
        assert |s.buffers - {key.value}| <= |s.buffers|;
      }
    }
  }

  // ------------------------------------------------------------- one id's share

  /** What was merged under one id, or under none. */
  function Under(es: seq<Merged>, id: Option<Id>): seq<Merged> {
    if es == [] then []
    else if Last(es).id == id then Under(Front(es), id) + [Last(es)]
    else Under(Front(es), id)
  }

  function Only(ms: seq<Message>, id: Option<Id>): seq<Message> {
    if ms == [] then []
    else if Key(Last(ms)) == id then Only(Front(ms), id) + [Last(ms)]
    else Only(Front(ms), id)
  }

  function Payloads(ms: seq<Message>): seq<byte> {
    if ms == [] then [] else Payloads(Front(ms)) + Last(ms).payload
  }

  function Bytes(es: seq<Merged>): seq<byte> {
    if es == [] then [] else Bytes(Front(es)) + Last(es).bytes
  }

  function Waiting(b: Buffers, id: Option<Id>): seq<byte> {
    if id.Some? && id.value in b then b[id.value].bytes else []
  }

  lemma UnderOne(es: seq<Merged>, e: Merged, id: Option<Id>)
    ensures Under(es + [e], id) == if e.id == id then Under(es, id) + [e] else Under(es, id)
    ensures e.id == id ==> Bytes(Under(es + [e], id)) == Bytes(Under(es, id)) + e.bytes
  {
    assert Front(es + [e]) == es;
    assert Front(Under(es, id) + [e]) == Under(es, id);
  }

  /** Every byte of every fragment is in exactly one entry or buffer, in order. */
  lemma {:induction false} BytesAreConserved(ms: seq<Message>, id: Option<Id>)
    ensures Payloads(Only(ms, id)) == Bytes(Under(Run(ms).merged, id)) + Waiting(Run(ms).buffers, id)
  {
    if ms != [] {
      var f, m := Front(ms), Last(ms);
      BytesAreConserved(f, id);
      hide Run;
      RunLast(ms);
      StepConserves(Run(f), m, id, Payloads(Only(f, id)));
      if Key(m) == id {
        assert Front(Only(f, id) + [m]) == Only(f, id);
      }
    }
  }

  lemma RunLast(ms: seq<Message>)
    requires ms != []
    ensures Run(ms) == Step(Run(Front(ms)), Last(ms))
  {
  }

  lemma {:induction false} StepConserves(s: State, m: Message, id: Option<Id>, sent: seq<byte>)
    requires sent == Bytes(Under(s.merged, id)) + Waiting(s.buffers, id)
    ensures var t := Step(s, m);
            (if Key(m) == id then sent + m.payload else sent) == Bytes(Under(t.merged, id)) + Waiting(t.buffers, id)
  {
    hide Bytes, Under, Full;
    var key, before := Key(m), Bytes(Under(s.merged, id));
    if key.None? || Full(s.buffers, key.value) {
      UnderOne(s.merged, Merged(key, m.time, m.payload), id);
      if key == id {
        NothingWaits(s.buffers, id);
        assert (before + []) + m.payload == (before + m.payload) + [];
      }
    } else if key == id {
      var p := Joined(Held(s.buffers, key.value), m);
      UnderOne(s.merged, Merged(key, p.firstTime, p.bytes), id);
      assert p.bytes == Waiting(s.buffers, id) + m.payload;
      Assoc(before, Waiting(s.buffers, id), m.payload);
      assert (before + p.bytes) + [] == before + p.bytes;
    } else {
      var p := Joined(Held(s.buffers, key.value), m);
      UnderOne(s.merged, Merged(key, p.firstTime, p.bytes), id);
    }
  }

  lemma NothingWaits(b: Buffers, id: Option<Id>)
    requires id.None? || Full(b, id.value)
    ensures Waiting(b, id) == []
  {
  }

  // ------------------------------------------- what is interleaved does not matter

  datatype View = View(held: Option<Partial>, merged: seq<Merged>)

  function ViewOf(s: State, id: Id): View {
    View(Held(s.buffers, id), Under(s.merged, Some(id)))
  }

  /** A series is begun, with more of it to come, and there is no room for it. */
  predicate Crowded(s: State, m: Message) {
    && Key(m).Some? && Full(s.buffers, Key(m).value)
    && !Closes(Partial(m.time, m.payload), m)
  }

  /** What a fragment does to its own series, given room. */
  lemma OwnSeriesOnly(s: State, t: State, m: Message, id: Id)
    requires ViewOf(s, id) == ViewOf(t, id) && Key(m) == Some(id) && !Full(t.buffers, id)
    ensures ViewOf(Step(s, m), id) == ViewOf(Step(t, m), id) <==> !Crowded(s, m)
  {
    var p, q := Joined(Held(s.buffers, id), m), Merged(Some(id), m.time, m.payload);
    UnderOne(s.merged, Merged(Some(id), p.firstTime, p.bytes), Some(id));
    UnderOne(t.merged, Merged(Some(id), p.firstTime, p.bytes), Some(id));
    UnderOne(s.merged, q, Some(id));
    hide Under;
  }

  lemma OtherSeriesAreUntouched(s: State, m: Message, id: Id)
    requires Key(m) != Some(id)
    ensures ViewOf(Step(s, m), id) == ViewOf(s, id)
  {
    forall e
      ensures Under(s.merged + [e], Some(id)) == if e.id == Some(id) then Under(s.merged, Some(id)) + [e]
                                                 else Under(s.merged, Some(id))
    {
      UnderOne(s.merged, e, Some(id));
    }
    hide Under;
  }

  /** A series alone always has room. */
  lemma {:induction false} AloneHasRoom(ms: seq<Message>, id: Id)
    ensures Run(Only(ms, Some(id))).buffers.Keys <= {id} && !Full(Run(Only(ms, Some(id))).buffers, id)
  {
    if ms != [] {
      AloneHasRoom(Front(ms), id);
      assert Key(Last(ms)) == Some(id) ==> Front(Only(ms, Some(id))) == Only(Front(ms), Some(id));
      var b := Run(Only(ms, Some(id))).buffers;
      assert b.Keys <= {id};
      assert id !in b ==> b.Keys == {};
    }
  }

  predicate Alike(ms: seq<Message>, id: Id) {
    ViewOf(Run(ms), id) == ViewOf(Run(Only(ms, Some(id))), id)
  }

  lemma {:induction false} AlikeStep(ms: seq<Message>, id: Id)
    requires ms != [] && Alike(Front(ms), id)
    ensures Alike(ms, id) <==> !(Key(Last(ms)) == Some(id) && Crowded(Run(Front(ms)), Last(ms)))
  {
    var f, m := Front(ms), Last(ms);
    AloneHasRoom(f, id);
    RunLast(ms);
    if Key(m) == Some(id) {
      var o := Only(ms, Some(id));
      assert Front(o) == Only(f, Some(id)) && Last(o) == m;
      RunLast(o);
      OwnSeriesOnly(Run(f), Run(Only(f, Some(id))), m, id);
    } else {
      OtherSeriesAreUntouched(Run(f), m, id);
    }
    hide Run, Step, ViewOf, Crowded;
  }

  /** At no point so far was a series begun without room for it. */
  predicate RoomThroughout(ms: seq<Message>) {
    ms == [] || (RoomThroughout(Front(ms)) && !Crowded(Run(Front(ms)), Last(ms)))
  }

  ghost predicate AlikeThroughout(ms: seq<Message>) {
    (forall id :: Alike(ms, id)) && (ms == [] || AlikeThroughout(Front(ms)))
  }

  /**
   * At every point each series is where its own fragments alone would have
   * brought it, whatever is interleaved, if and only if none was begun without
   * room for it.
   */
  lemma {:induction false} InterleavingDoesNotMatter(ms: seq<Message>)
    ensures AlikeThroughout(ms) <==> RoomThroughout(ms)
  {
    if ms != [] {
      InterleavingDoesNotMatter(Front(ms));
      hide Alike, Crowded;
      if AlikeThroughout(Front(ms)) {
        forall id
          ensures Alike(ms, id) <==> !(Key(Last(ms)) == Some(id) && Crowded(Run(Front(ms)), Last(ms)))
        {
          assert Alike(Front(ms), id);
          AlikeStep(ms, id);
        }
        if Crowded(Run(Front(ms)), Last(ms)) {
          CrowdedHasKey(Run(Front(ms)), Last(ms));
          assert !Alike(ms, Key(Last(ms)).value);
        }
      }
    }
  }

  lemma CrowdedHasKey(s: State, m: Message)
    requires Crowded(s, m)
    ensures Key(m).Some?
  {
  }

  /** The `k`th of as many ids as one likes. */
  function Name(k: nat): Id {
    seq(k, i => 'x')
  }

  const FIRST: seq<byte> := [97]
  const SECOND: seq<byte> := [98]

  function Fragment(k: nat, last: bool): Message {
    Message(0, true, Some(Name(k)), last, if last then SECOND else FIRST)
  }

  /** A series of each of the first `n` ids is begun. */
  function Openings(n: nat): seq<Message> {
    if n == 0 then [] else Openings(n - 1) + [Fragment(n - 1, false)]
  }

  lemma {:induction false} OpeningsWait(n: nat)
    requires n <= PARTIAL_MAX_OUTSTANDING
    ensures var s := Run(Openings(n));
            s.merged == [] && |s.buffers| == n && forall id :: id in s.buffers ==> |id| < n
  {
    if n > 0 {
      var m: nat := n - 1;
      OpeningsWait(m);
      assert Front(Openings(n)) == Openings(m);
      RunLast(Openings(n));
      assert Name(m) !in Run(Openings(m)).buffers;
    }
  }

  /** A thousand series are open, and one more of two fragments comes. */
  function OneTooMany(): seq<Message> {
    Openings(1000) + [Fragment(1000, false)] + [Fragment(1000, true)]
  }

  lemma RunSnoc(ms: seq<Message>, m: Message)
    ensures Run(ms + [m]) == Step(Run(ms), m)
  {
    assert Front(ms + [m]) == ms;
  }

  lemma {:induction false} OpeningsElsewhere(n: nat, k: nat)
    requires n <= k
    ensures Only(Openings(n), Some(Name(k))) == []
  {
    if n > 0 {
      OpeningsElsewhere(n - 1, k);
      assert |Name(n - 1)| != |Name(k)|;
    }
  }

  lemma OnlySnoc(ms: seq<Message>, m: Message, id: Option<Id>)
    ensures Only(ms + [m], id) == if Key(m) == id then Only(ms, id) + [m] else Only(ms, id)
  {
    assert Front(ms + [m]) == ms;
  }

  lemma TwoAlone(k: nat)
    ensures Run([Fragment(k, false), Fragment(k, true)]).merged == [Merged(Some(Name(k)), 0, FIRST + SECOND)]
  {
    var first, last := Fragment(k, false), Fragment(k, true);
    assert [] + [first] == [first] && [first] + [last] == [first, last];
    RunSnoc([], first);
    RunSnoc([first], last);
    assert Run([]) == State(map[], []);
    hide Run, Name;
    var id := Name(k);
    assert Run([first]) == State(map[id := Partial(0, FIRST)], []);
    var e := [Merged(Some(id), 0, FIRST + SECOND)];
    assert Step(Run([first]), last) == State(Run([first]).buffers - {id}, [] + e);
    assert [] + e == e;
  }

  lemma TwoCrowded(s: State, k: nat)
    requires s.merged == [] && |s.buffers| >= PARTIAL_MAX_OUTSTANDING && Name(k) !in s.buffers
    ensures var id := Some(Name(k));
            Step(Step(s, Fragment(k, false)), Fragment(k, true)).merged == [Merged(id, 0, FIRST), Merged(id, 0, SECOND)]
    ensures Crowded(s, Fragment(k, false))
  {
  }

  /** Its fragments come out apart, where alone they would have been one entry. */
  lemma {:induction false} ThousandAndFirstIsSplit()
    ensures var id := Some(Name(1000));
            && Run(OneTooMany()).merged == [Merged(id, 0, FIRST), Merged(id, 0, SECOND)]
            && Run(Only(OneTooMany(), id)).merged == [Merged(id, 0, FIRST + SECOND)]
            && !RoomThroughout(OneTooMany())
  {
    SplitAt(PARTIAL_MAX_OUTSTANDING);
    hide Run, Only, RoomThroughout, Openings;
  }

  lemma SplitAt(k: nat)
    requires k == PARTIAL_MAX_OUTSTANDING
    ensures var id, ms := Some(Name(k)), Openings(k) + [Fragment(k, false)] + [Fragment(k, true)];
            && Run(ms).merged == [Merged(id, 0, FIRST), Merged(id, 0, SECOND)]
            && Run(Only(ms, id)).merged == [Merged(id, 0, FIRST + SECOND)]
            && !RoomThroughout(ms)
  {
    var id, first, last := Some(Name(k)), Fragment(k, false), Fragment(k, true);
    var started := Openings(k);
    var begun := started + [first];
    OpeningsWait(k);
    OpeningsElsewhere(k, k);
    hide Run, Only, Openings, Step, Crowded;
    TwoCrowded(Run(started), k);
    RunSnoc(started, first);
    RunSnoc(begun, last);
    assert Front(begun) == started && Front(begun + [last]) == begun;
    OnlySnoc(started, first, id);
    OnlySnoc(begun, last, id);
    TwoAlone(k);
    assert [] + [first] == [first] && [first] + [last] == [first, last];
  }

  /** One whole series: fragments of one id, only the last of them last, and within the bound. */
  predicate Series(ms: seq<Message>, id: Id) {
    && ms != [] && |Payloads(ms)| <= 0x100_0000
    && forall i :: 0 <= i < |ms| ==> Key(ms[i]) == Some(id) && (ms[i].last <==> i == |ms| - 1)
  }

  lemma {:induction false} SeriesSoFar(s: State, ms: seq<Message>, id: Id)
    requires id !in s.buffers && |s.buffers| < 1000
    requires ms != [] && |Payloads(ms)| <= 0x100_0000
    requires forall i :: 0 <= i < |ms| ==> Key(ms[i]) == Some(id) && !ms[i].last
    ensures RunFrom(s, ms) == s.(buffers := s.buffers[id := Partial(ms[0].time, Payloads(ms))])
  {
    if |ms| == 1 {
      assert Front(ms) == [];
      assert [] + ms[0].payload == ms[0].payload;
    } else {
      SeriesSoFar(s, Front(ms), id);
    }
  }

  function RunFrom(s: State, ms: seq<Message>): State {
    if ms == [] then s else Step(RunFrom(s, Front(ms)), Last(ms))
  }

  /** It comes out as one entry: the first fragment's time, and the fragments in the order they came. */
  lemma SeriesComesOutWhole(s: State, ms: seq<Message>, id: Id)
    requires Series(ms, id) && id !in s.buffers && |s.buffers| < 1000
    ensures RunFrom(s, ms) == State(s.buffers, s.merged + [Merged(Some(id), ms[0].time, Payloads(ms))])
  {
    var f := Front(ms);
    if f == [] {
      assert [] + ms[0].payload == ms[0].payload;
      assert s.buffers - {id} == s.buffers;
    } else {
      SeriesSoFar(s, f, id);
      assert s.buffers[id := Partial(ms[0].time, Payloads(f))] - {id} == s.buffers;
    }
  }
}
