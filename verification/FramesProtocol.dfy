/**
 * A sender and a receiver of frames over two channels that keep their order:
 * whatever is interleaved, the sender's stream numbers stay distinct and are
 * not used again once accepted, so the receiver never sees a stream opened
 * twice (src/frames.rs).
 */
module FramesProtocol {
  import opened Common
  import opened LittleEndian
  import opened FrameModel
  import opened Cursors
  import opened FramesSender
  import R = FramesReceiver

  // ------------------------------------------------ what a recorded position says

  /**
   * A recorded chunk and the offset beside it are those of one chunk, where
   * `ends` is where each chunk ends, if and only if the receiver has not gone
   * back behind what was recorded before.
   */
  lemma SavedTogether(s: Stream, held: map<Id, At>, ends: nat -> nat)
    requires Caught(s, held) && s.lastSent.value.offset == ends(s.lastSent.value.number)
    requires forall i, j :: i < j ==> ends(i) < ends(j)
    ensures var v := SaveOne(Saved([s], held, false), 0);
            && v.changed && v.live[0].undeclared == 0 && s.store in v.held
            && (forall id :: id != s.store ==> Find(v.held, id) == Find(held, id))
            && var at := v.held[s.store];
               && at.chunk.Some?
               && (at.offset == ends(at.chunk.value)
                   <==> !(s.store in held && held[s.store].chunk.Some?
                          && held[s.store].chunk.value > HighestEnd(s.acked).value))
  {
  }

  /** What changes a sender's streams and positions; a pass of saving is one `Recorded` for each stream. */
  datatype Change =
    | Opened(wire: u32, store: Id)
    | Put(i: nat, number: nat, lastWriteMs: nat, chunks: nat)
    | Answered(f: Framed)
    | Closed(i: nat)
    | Recorded(i: nat)

  /** Where each chunk of each store ends; later chunks end later. */
  ghost predicate Increasing(ends: (Id, nat) -> nat) {
    forall id, i, j :: i < j ==> ends(id, i) < ends(id, j)
  }

  function Changed(v: Saved, c: Change, ends: (Id, nat) -> nat): Saved {
    match c
    case Opened(wire, store) => v.(live := v.live + [Stream(wire, store, [], None, 0)])
    case Put(i, number, lastWriteMs, chunks) =>
      if i >= |v.live| then v
      else
        var s := v.live[i];
        v.(live := v.live[i := s.(lastSent := Some(LastSent(number, ends(s.store, number), lastWriteMs)),
                                  undeclared := s.undeclared + chunks)])
    case Answered(f) => v.(live := Kept(Acked(v.live, f), f))
    case Closed(i) => if i < |v.live| then v.(live := v.live[..i] + v.live[i + 1..]) else v
    case Recorded(i) => if i < |v.live| then SaveOne(v, i) else v
  }

  /** The receiver acknowledges less than what is recorded of the store, and that is about to be recorded. */
  predicate GoesBack(v: Saved, c: Change) {
    c.Recorded? && c.i < |v.live| && Caught(v.live[c.i], v.held)
    && var s := v.live[c.i];
       s.store in v.held && v.held[s.store].chunk.Some? && v.held[s.store].chunk.value > HighestEnd(s.acked).value
  }

  ghost predicate PutRight(live: seq<Stream>, ends: (Id, nat) -> nat) {
    forall s :: s in live && s.lastSent.Some? ==> s.lastSent.value.offset == ends(s.store, s.lastSent.value.number)
  }

  /** Every recorded chunk and offset are those of one chunk. */
  ghost predicate Together(held: map<Id, At>, ends: (Id, nat) -> nat) {
    forall id :: id in held && held[id].chunk.Some? ==> held[id].offset == ends(id, held[id].chunk.value)
  }

  lemma AnsweredRight(live: seq<Stream>, f: Framed, ends: (Id, nat) -> nat)
    requires PutRight(live, ends)
    ensures PutRight(Kept(Acked(live, f), f), ends)
  {
    var i := PlaceOf(live, f.stream);
    if f.frame.CoverageOf? && i < |live| {
      assert live[i] in live;
    }
  }

  lemma ChangedRight(v: Saved, c: Change, ends: (Id, nat) -> nat)
    requires PutRight(v.live, ends)
    ensures PutRight(Changed(v, c, ends).live, ends)
  {
    if c.Answered? {
      AnsweredRight(v.live, c.f, ends);
    }
    hide Kept, Acked, Caught;
  }

  lemma ChangedTogether(v: Saved, c: Change, ends: (Id, nat) -> nat)
    requires Increasing(ends) && PutRight(v.live, ends) && Together(v.held, ends)
    ensures Together(Changed(v, c, ends).held, ends) <==> !GoesBack(v, c)
  {
    if c.Recorded? && c.i < |v.live| && Caught(v.live[c.i], v.held) {
      var s, u := v.live[c.i], Changed(v, c, ends);
      assert s in v.live && s.store in u.held;
      assert forall id :: id != s.store ==> Find(u.held, id) == Find(v.held, id);
    }
  }

  /** `vs` is what a sender goes through, from what it had on record. */
  ghost predicate Sends(vs: seq<Saved>, cs: seq<Change>, held: map<Id, At>, ends: (Id, nat) -> nat) {
    && |vs| == |cs| + 1 && vs[0] == Saved([], held, false)
    && forall i :: 0 <= i < |cs| ==> vs[i + 1] == Changed(vs[i], cs[i], ends)
  }

  lemma {:induction false} AlwaysRight(vs: seq<Saved>, cs: seq<Change>, held: map<Id, At>, ends: (Id, nat) -> nat, n: nat)
    requires Sends(vs, cs, held, ends) && n < |vs|
    ensures PutRight(vs[n].live, ends)
  {
    if n > 0 {
      AlwaysRight(vs, cs, held, ends, n - 1);
      ChangedRight(vs[n - 1], cs[n - 1], ends);
      hide PutRight, Changed;
      assert vs[n] == Changed(vs[n - 1], cs[n - 1], ends);
    }
  }

  /**
   * Whatever is opened, sent, answered, closed and saved: every recorded pair
   * stays one chunk's exactly as long as the receiver has not gone back.
   */
  lemma {:induction false} RecordedTogether(vs: seq<Saved>, cs: seq<Change>, held: map<Id, At>,
                                            ends: (Id, nat) -> nat, n: nat)
    requires Sends(vs, cs, held, ends) && n < |vs| && Increasing(ends) && Together(held, ends)
    ensures (forall i :: 0 <= i <= n ==> Together(vs[i].held, ends))
            <==> forall i :: 0 <= i < n ==> !GoesBack(vs[i], cs[i])
  {
    if n > 0 {
      var m: nat := n - 1;
      RecordedTogether(vs, cs, held, ends, m);
      AlwaysRight(vs, cs, held, ends, m);
      hide PutRight, Together, Changed, GoesBack, Increasing;
      assert vs[m + 1] == Changed(vs[m], cs[m], ends);
      if Together(vs[m].held, ends) {
        ChangedTogether(vs[m], cs[m], ends);
      }
    }
  }

  /** A stream is opened, a chunk is put on it and acknowledged, and that is recorded. */
  function SendOne(wire: u32, id: Id, number: u64): seq<Change> {
    [Opened(wire, id), Put(0, number, 0, 1), Answered(Framed(wire, CoverageOf([Run(0, number)]))), Recorded(0)]
  }

  function Sending(wire: u32, id: Id, number: u64, acked: seq<Run>, offset: nat): Stream {
    Stream(wire, id, acked, Some(LastSent(number, offset, 0)), 1)
  }

  /** The states that leads through, from a sender with no stream. */
  function States(v: Saved, wire: u32, id: Id, number: u64, offset: nat): (vs: seq<Saved>)
    ensures |vs| == 5
  {
    var acked := v.(live := [Sending(wire, id, number, [Run(0, number)], offset)]);
    [v, v.(live := [Stream(wire, id, [], None, 0)]), v.(live := [Sending(wire, id, number, [], offset)]), acked,
     SaveOne(acked, 0)]
  }

  ghost predicate Leads(vs: seq<Saved>, cs: seq<Change>, ends: (Id, nat) -> nat) {
    |vs| == |cs| + 1 && forall i :: 0 <= i < |cs| ==> vs[i + 1] == Changed(vs[i], cs[i], ends)
  }

  lemma SendOneLeads(v: Saved, wire: u32, id: Id, number: u64, ends: (Id, nat) -> nat)
    requires v.live == []
    ensures Leads(States(v, wire, id, number, ends(id, number)), SendOne(wire, id, number), ends)
  {
    var vs, cs := States(v, wire, id, number, ends(id, number)), SendOne(wire, id, number);
    assert v.live + [Stream(wire, id, [], None, 0)] == [Stream(wire, id, [], None, 0)];
    hide SaveOne;
    assert vs[1] == Changed(vs[0], cs[0], ends);
    assert vs[2] == Changed(vs[1], cs[1], ends);
    assert vs[3] == Changed(vs[2], cs[2], ends);
    assert vs[4] == Changed(vs[3], cs[3], ends);
  }

  lemma LeadsOn(vs: seq<Saved>, cs: seq<Change>, ws: seq<Saved>, ds: seq<Change>, c: Change, ends: (Id, nat) -> nat)
    requires Leads(vs, cs, ends) && Leads(ws, ds, ends) && ws[0] == Changed(Last(vs), c, ends)
    ensures Leads(vs + ws, cs + [c] + ds, ends)
  {
    hide Changed;
    var all, changes := vs + ws, cs + [c] + ds;
    forall i | 0 <= i < |changes|
      ensures all[i + 1] == Changed(all[i], changes[i], ends)
    {
      if i < |cs| {
        assert all[i + 1] == vs[i + 1];
      } else if i > |cs| {
        assert changes[i] == ds[i - |vs|] && all[i] == ws[i - |vs|] && all[i + 1] == ws[i - |vs| + 1];
      }
    }
  }

  /** Recording it: the chunk recorded is the greater, the offset the new one. */
  lemma SendOneRecords(v: Saved, wire: u32, id: Id, number: u64, offset: nat)
    requires v.live == [Sending(wire, id, number, [Run(0, number)], offset)]
    ensures var at := AdvancedAt(Find(v.held, id), offset, Some(number), 0, 1);
            var s := v.live[0].(undeclared := 0);
            SaveOne(v, 0) == Saved([s], v.held[id := at], true)
    ensures HighestEnd(v.live[0].acked) == Some(number) && Caught(v.live[0], v.held)
  {
    assert Front([Run(0, number)]) == [];
    assert HighestEnd([Run(0, number)]) == Some(number);
  }

  /** What a sender has after chunk 7 of a store was sent, acknowledged and recorded, its stream closed. */
  function SevenRecorded(id: Id, ends: (Id, nat) -> nat): Saved {
    Saved([], map[id := At(ends(id, 7), Some(7), 0, 1)], true)
  }

  lemma SevenLeads(id: Id, ends: (Id, nat) -> nat)
    ensures var v := Saved([], map[], false);
            Changed(Last(States(v, 0, id, 7, ends(id, 7))), Closed(0), ends) == SevenRecorded(id, ends)
  {
    var v := Saved([], map[], false);
    var acked := States(v, 0, id, 7, ends(id, 7))[3];
    SendOneRecords(acked, 0, id, 7, ends(id, 7));
    hide SaveOne;
    assert acked.held[id := At(ends(id, 7), Some(7), 0, 1)] == map[id := At(ends(id, 7), Some(7), 0, 1)];
  }

  lemma FiveGoesBack(v: Saved, id: Id, ends: (Id, nat) -> nat)
    requires v == SevenRecorded(id, ends)
    ensures var vs := States(v, 1, id, 5, ends(id, 5));
            && GoesBack(vs[3], Recorded(0)) && id in vs[4].held
            && vs[4].held[id].chunk == Some(7) && vs[4].held[id].offset == ends(id, 5)
  {
    SendOneRecords(States(v, 1, id, 5, ends(id, 5))[3], 1, id, 5, ends(id, 5));
    hide SaveOne, Caught, HighestEnd;
  }

  /**
   * It fails of a receiver that acknowledged chunk 7 and, having lost it, is
   * sent and acknowledges chunk 5 on its next stream.
   */
  lemma GoneBack(id: Id, ends: (Id, nat) -> nat) returns (vs: seq<Saved>, cs: seq<Change>)
    requires Increasing(ends)
    ensures cs == SendOne(0, id, 7) + [Closed(0)] + SendOne(1, id, 5)
    ensures Sends(vs, cs, map[], ends) && GoesBack(vs[8], cs[8])
    ensures id in Last(vs).held
    ensures var at := Last(vs).held[id]; at.chunk == Some(7) && at.offset == ends(id, 5) != ends(id, 7)
  {
    var v, w := Saved([], map[], false), SevenRecorded(id, ends);
    var one, two := States(v, 0, id, 7, ends(id, 7)), States(w, 1, id, 5, ends(id, 5));
    vs, cs := one + two, SendOne(0, id, 7) + [Closed(0)] + SendOne(1, id, 5);
    SendOneLeads(v, 0, id, 7, ends);
    SendOneLeads(w, 1, id, 5, ends);
    SevenLeads(id, ends);
    FiveGoesBack(w, id, ends);
    assert two[0] == w && one[0] == v;
    hide Changed, SaveOne, GoesBack, States, SevenRecorded;
    LeadsOn(one, SendOne(0, id, 7), two, SendOne(1, id, 5), Closed(0), ends);
    assert vs[8] == two[3] && Last(vs) == two[4];
  }

  /** Until the acknowledgement has caught up with what was sent, what is recorded stands. */
  lemma BehindSavesNothing(v: Saved, n: nat)
    requires n <= |v.live| && forall i :: 0 <= i < n ==> !Caught(v.live[i], v.held)
    ensures Save(v, n) == v
  {
  }

  // ------------------------------------------------------------ both ends

  const NIL: Uuid := seq(16, i => 0)

  /** What a reply is on the wire; `runs` is what a session says it holds. */
  function OnWire(r: R.Tagged<R.Reply>, runs: R.Session -> seq<Run>): Framed {
    match r.value
    case Acceptance(session) => Framed(r.stream, Accepted(NIL, runs(session)))
    case Refusal(reason) => Framed(r.stream, Conflict(NIL, [], reason))
    case Ack(session) => Framed(r.stream, CoverageOf(runs(session)))
  }

  function AllOnWire(rs: seq<R.Tagged<R.Reply>>, runs: R.Session -> seq<Run>): (fs: seq<Framed>)
    ensures |fs| == |rs| && forall i :: 0 <= i < |rs| ==> fs[i] == OnWire(rs[i], runs)
  {
    seq(|rs|, i requires 0 <= i < |rs| => OnWire(rs[i], runs))
  }

  /** `out` and `back` are what is on its way; `taken` are the numbers accepted so far. */
  datatype Link = Link(
    live: seq<Stream>, next: u32, waiting: Option<Id>, taken: seq<u32>,
    out: seq<Framed>, table: R.Table, back: seq<Framed>)

  const Connected := Link([], 0, None, [], [], R.Fresh, [])

  datatype Event =
    | Offered(store: Id, opening: Frame)
    | Heard
    | Shipped(wire: u32, frame: Frame)
    | Ended(wire: u32)
    | Arrived(refusal: Option<seq<byte>>)

  predicate MayOccur(l: Link, e: Event) {
    match e
    case Offered(_, opening) => l.waiting.None? && opening.StreamOpen?
    case Heard => l.back != [] && l.next + 1 < 0x1_0000_0000
    case Shipped(wire, frame) => l.waiting.None? && PlaceOf(l.live, wire) < |l.live| && frame.Chunk?
    case Ended(wire) => l.waiting.None? && PlaceOf(l.live, wire) < |l.live|
    case Arrived(_) => l.out != [] && !l.table.failed
  }

  /** A frame heard: the answer being waited for, or an acknowledgement or a refusal of a stream in hand. */
  function Hear(l: Link, f: Framed): Link {
    if l.waiting.Some? && f.stream == l.next && f.frame.Accepted? && l.next + 1 < 0x1_0000_0000 then
      l.(live := l.live + [Stream(l.next, l.waiting.value, [], None, 0)], next := l.next + 1,
         taken := l.taken + [l.next], waiting := None)
    else if l.waiting.Some? && f.stream == l.next && f.frame.Conflict? then l.(waiting := None)
    else l.(live := Kept(Acked(l.live, f), f))
  }

  function Occur(l: Link, e: Event, runs: R.Session -> seq<Run>): Link
    requires MayOccur(l, e)
  {
    match e
    case Offered(store, opening) => l.(waiting := Some(store), out := l.out + [Framed(l.next, opening)])
    case Heard => Hear(l.(back := l.back[1..]), l.back[0])
    case Shipped(wire, frame) => l.(out := l.out + [Framed(wire, frame)])
    case Ended(wire) =>
      var i := PlaceOf(l.live, wire);
      l.(live := l.live[..i] + l.live[i + 1..], out := l.out + [Framed(wire, StreamClose)])
    case Arrived(refusal) =>
      var t := R.Step(l.table, R.Arrival(l.out[0], refusal));
      l.(out := l.out[1..], table := t, back := l.back + AllOnWire(NewReplies(l.table, t), runs))
  }

  function NewReplies(t: R.Table, u: R.Table): seq<R.Tagged<R.Reply>> {
    if |t.sent| <= |u.sent| then u.sent[|t.sent|..] else []
  }

  // ------------------------------------------------------------ the invariant

  predicate Distinct(live: seq<Stream>) {
    forall i, j :: 0 <= i < j < |live| ==> live[i].wire != live[j].wire
  }

  predicate Below(live: seq<Stream>, next: u32) {
    forall i :: 0 <= i < |live| ==> live[i].wire < next
  }

  predicate Rising(taken: seq<u32>, next: u32) {
    && (forall i, j :: 0 <= i < j < |taken| ==> taken[i] < taken[j])
    && forall i :: 0 <= i < |taken| ==> taken[i] < next
  }

  function Opens(fs: seq<Framed>): nat {
    if fs == [] then 0 else (if fs[0].frame.StreamOpen? then 1 else 0) + Opens(fs[1..])
  }

  function Acceptances(fs: seq<Framed>, wire: u32): nat {
    if fs == [] then 0
    else (if fs[0].stream == wire && fs[0].frame.Accepted? then 1 else 0) + Acceptances(fs[1..], wire)
  }

  function Refusals(fs: seq<Framed>, wire: u32): nat {
    if fs == [] then 0
    else (if fs[0].stream == wire && fs[0].frame.Conflict? then 1 else 0) + Refusals(fs[1..], wire)
  }

  /** On the way out: only the stream being offered is opened, and only accepted ones carry anything else. */
  predicate OutBound(out: seq<Framed>, next: u32) {
    forall i :: 0 <= i < |out| ==>
      if out[i].frame.StreamOpen? then out[i].stream == next else out[i].stream < next
  }

  /** On the way back: nothing of a stream not yet offered, and accepted is only what is being offered. */
  predicate InBound(back: seq<Framed>, next: u32) {
    forall i :: 0 <= i < |back| ==>
      back[i].stream <= next && (back[i].frame.Accepted? ==> back[i].stream == next)
  }

  predicate InStep(l: Link) {
    && Distinct(l.live) && Below(l.live, l.next) && Rising(l.taken, l.next)
    && OutBound(l.out, l.next) && InBound(l.back, l.next)
    && (forall id :: id in l.table.open ==> id <= l.next)
    && Opens(l.out) + Acceptances(l.back, l.next) + Refusals(l.back, l.next) == (if l.waiting.Some? then 1 else 0)
    && (l.next in l.table.open ==> Acceptances(l.back, l.next) == 1)
  }

  // counting over channels

  lemma {:induction false} OpensMore(fs: seq<Framed>, f: Framed)
    ensures Opens(fs + [f]) == Opens(fs) + if f.frame.StreamOpen? then 1 else 0
  {
    if fs != [] {
      assert (fs + [f])[1..] == fs[1..] + [f];
      OpensMore(fs[1..], f);
    }
  }

  lemma {:induction false} AnswersMore(fs: seq<Framed>, f: Framed, wire: u32)
    ensures Acceptances(fs + [f], wire)
         == Acceptances(fs, wire) + if f.stream == wire && f.frame.Accepted? then 1 else 0
    ensures Refusals(fs + [f], wire) == Refusals(fs, wire) + if f.stream == wire && f.frame.Conflict? then 1 else 0
  {
    if fs != [] {
      assert (fs + [f])[1..] == fs[1..] + [f];
      AnswersMore(fs[1..], f, wire);
    }
  }

  /** Nothing is on its way back for a number that has not been offered. */
  lemma {:induction false} NothingFromAbove(fs: seq<Framed>, wire: u32)
    requires forall i :: 0 <= i < |fs| ==> fs[i].stream < wire
    ensures Acceptances(fs, wire) == 0 && Refusals(fs, wire) == 0
  {
    if fs != [] {
      NothingFromAbove(fs[1..], wire);
    }
  }

  lemma {:induction false} NoneCounted(fs: seq<Framed>, wire: u32)
    ensures Opens(fs) == 0 ==> forall i :: 0 <= i < |fs| ==> !fs[i].frame.StreamOpen?
    ensures Acceptances(fs, wire) == 0 ==>
              forall i :: 0 <= i < |fs| ==> !(fs[i].stream == wire && fs[i].frame.Accepted?)
  {
    if fs != [] {
      NoneCounted(fs[1..], wire);
      assert forall i :: 1 <= i < |fs| ==> fs[i] == fs[1..][i - 1];
    }
  }

  // what each event keeps

  lemma SentKeeps(l: Link, f: Framed, waiting: Option<Id>)
    requires InStep(l) && l.waiting.None?
    requires if f.frame.StreamOpen? then waiting.Some? && f.stream == l.next else waiting.None? && f.stream < l.next
    ensures InStep(l.(waiting := waiting, out := l.out + [f]))
  {
    OpensMore(l.out, f);
    hide Opens, Acceptances, Refusals;
  }

  lemma EndedKeeps(live: seq<Stream>, next: u32, wire: u32)
    requires Distinct(live) && Below(live, next) && PlaceOf(live, wire) < |live|
    ensures var i := PlaceOf(live, wire);
            var rest := live[..i] + live[i + 1..];
            Distinct(rest) && Below(rest, next) && live[i].wire == wire < next
  {
  }

  /** A stream that ends takes no other with it. */
  lemma EndsExactly(live: seq<Stream>, wire: u32, s: Stream)
    requires Distinct(live) && PlaceOf(live, wire) < |live|
    ensures var i := PlaceOf(live, wire);
            s in live[..i] + live[i + 1..] <==> s in live && s.wire != wire
  {
    var i := PlaceOf(live, wire);
    var rest := live[..i] + live[i + 1..];
    if s in live && s.wire != wire {
      var j :| 0 <= j < |live| && live[j] == s;
      assert s == rest[if j < i then j else j - 1];
    }
  }

  lemma NotedKeeps(live: seq<Stream>, next: u32, f: Framed)
    requires Distinct(live) && Below(live, next)
    ensures Distinct(Kept(Acked(live, f), f)) && Below(Kept(Acked(live, f), f), next)
  {
    if PlaceOf(live, f.stream) < |live| && f.frame.Conflict? {
      EndedKeeps(live, next, f.stream);
    }
  }

  lemma HeardKeeps(l: Link)
    requires InStep(l) && MayOccur(l, Heard)
    ensures InStep(Hear(l.(back := l.back[1..]), l.back[0]))
  {
    var f, back := l.back[0], l.back[1..];
    var n := l.next + 1;
    assert forall i :: 0 <= i < |back| ==> back[i] == l.back[i + 1];
    NoneCounted(back, l.next);
    NoneCounted(l.out, l.next);
    NothingFromAbove(back, n);
    NotedKeeps(l.live, l.next, f);
    assert Acceptances(l.back, l.next) == (if f.stream == l.next && f.frame.Accepted? then 1 else 0) + Acceptances(back, l.next);
    assert Refusals(l.back, l.next) == (if f.stream == l.next && f.frame.Conflict? then 1 else 0) + Refusals(back, l.next);
    hide Opens, Acceptances, Refusals, Kept, Acked, PlaceOf;
  }

  /** What one arrival sends back. */
  lemma StepReplies(t: R.Table, a: R.Arrival)
    requires !t.failed
    ensures var u, f, id := R.Step(t, a), a.framed.frame, a.framed.stream;
            var rs := NewReplies(t, u);
            && (forall i :: i in u.open ==> i in t.open || (i == id && f.StreamOpen? && a.refusal.None?))
            && if f.StreamOpen? && id !in t.open then
                 !u.failed && |rs| == 1 && rs[0].stream == id
                 && (if a.refusal.Some? then rs[0].value.Refusal? && u.open == t.open else rs[0].value.Acceptance?)
               else |rs| <= 1 && (rs != [] ==> rs[0].stream == id && !rs[0].value.Acceptance?)
    ensures R.Step(t, a).failed <==>
              (a.framed.stream in t.open
               && (a.framed.frame.StreamOpen? || (a.framed.frame.StreamClose? && a.refusal.Some?)))
  {
  }

  /** A channel with its first frame gone. */
  lemma PopKeeps(l: Link)
    requires InStep(l) && l.out != []
    ensures Opens(l.out) == (if l.out[0].frame.StreamOpen? then 1 else 0) + Opens(l.out[1..])
    ensures OutBound(l.out[1..], l.next)
    ensures if l.out[0].frame.StreamOpen? then l.out[0].stream == l.next && l.next !in l.table.open
            else l.out[0].stream < l.next
  {
  }

  /** The replies to one arrival, on the wire. */
  lemma RepliesOnWire(l: Link, rs: seq<R.Tagged<R.Reply>>, runs: R.Session -> seq<Run>)
    requires |rs| <= 1
    ensures var back := l.back + AllOnWire(rs, runs);
            if rs == [] then back == l.back
            else
              var g := OnWire(rs[0], runs);
              && back == l.back + [g]
              && Acceptances(back, l.next)
                 == Acceptances(l.back, l.next) + (if g.stream == l.next && g.frame.Accepted? then 1 else 0)
              && Refusals(back, l.next)
                 == Refusals(l.back, l.next) + (if g.stream == l.next && g.frame.Conflict? then 1 else 0)
  {
    if rs != [] {
      assert AllOnWire(rs, runs) == [OnWire(rs[0], runs)];
      AnswersMore(l.back, OnWire(rs[0], runs), l.next);
    }
  }

  lemma ArrivedKeeps(l: Link, refusal: Option<seq<byte>>, runs: R.Session -> seq<Run>)
    requires InStep(l) && MayOccur(l, Arrived(refusal))
    ensures InStep(Occur(l, Arrived(refusal), runs))
    ensures l.out[0].frame.StreamOpen? ==> l.out[0].stream !in l.table.open
  {
    var a := R.Arrival(l.out[0], refusal);
    var rs := NewReplies(l.table, R.Step(l.table, a));
    PopKeeps(l);
    StepReplies(l.table, a);
    hide R.Step, NewReplies, Opens, Acceptances, Refusals, AllOnWire;
    RepliesOnWire(l, rs, runs);
    hide OutBound, Distinct, Below, Rising;
  }

  lemma OccurKeeps(l: Link, e: Event, runs: R.Session -> seq<Run>)
    requires InStep(l) && MayOccur(l, e)
    ensures InStep(Occur(l, e, runs))
  {
    match e
    case Offered(store, opening) =>
      SentKeeps(l, Framed(l.next, opening), Some(store));
    case Heard =>
      HeardKeeps(l);
    case Shipped(wire, frame) =>
      SentKeeps(l, Framed(wire, frame), None);
    case Ended(wire) =>
      EndedKeeps(l.live, l.next, wire);
      var i := PlaceOf(l.live, wire);
      SentKeeps(l.(live := l.live[..i] + l.live[i + 1..]), Framed(wire, StreamClose), None);
    case Arrived(refusal) =>
      ArrivedKeeps(l, refusal, runs);
  }

  ghost predicate Reached(ls: seq<Link>, es: seq<Event>, runs: R.Session -> seq<Run>) {
    && |ls| == |es| + 1 && ls[0] == Connected
    && forall i :: 0 <= i < |es| ==> MayOccur(ls[i], es[i]) && ls[i + 1] == Occur(ls[i], es[i], runs)
  }

  lemma {:induction false} AlwaysInStep(ls: seq<Link>, es: seq<Event>, runs: R.Session -> seq<Run>, n: nat)
    requires Reached(ls, es, runs) && n < |ls|
    ensures InStep(ls[n])
  {
    if n > 0 {
      AlwaysInStep(ls, es, runs, n - 1);
      OccurKeeps(ls[n - 1], es[n - 1], runs);
      hide InStep, Occur, MayOccur;
      assert ls[n] == Occur(ls[n - 1], es[n - 1], runs);
    }
  }

  /**
   * At any point of any run: the numbers in hand are distinct, the one to be
   * offered next is above every number ever accepted, and a stream that is
   * about to be opened at the far end is not open there.
   */
  lemma NumbersAreNeverReused(ls: seq<Link>, es: seq<Event>, runs: R.Session -> seq<Run>, n: nat)
    requires Reached(ls, es, runs) && n < |ls|
    ensures var l := ls[n];
            && Distinct(l.live)
            && (forall w :: w in l.taken ==> w < l.next)
            && (forall i :: 0 <= i < |l.out| && l.out[i].frame.StreamOpen? ==> l.out[i].stream !in l.taken)
            && (l.out != [] && l.out[0].frame.StreamOpen? && !l.table.failed ==> l.out[0].stream !in l.table.open)
  {
    AlwaysInStep(ls, es, runs, n);
    hide Occur;
    if ls[n].out != [] && !ls[n].table.failed {
      ArrivedKeeps(ls[n], None, runs);
    }
  }

  /** So the connection fails only where a store that is closed cannot be finished. */
  lemma DoubleOpenIsUnreachable(ls: seq<Link>, es: seq<Event>, runs: R.Session -> seq<Run>, n: nat)
    requires Reached(ls, es, runs) && n < |es| && !ls[n].table.failed && ls[n + 1].table.failed
    ensures es[n].Arrived? && es[n].refusal.Some? && ls[n].out[0].frame.StreamClose?
  {
    NumbersAreNeverReused(ls, es, runs, n);
    assert ls[n + 1] == Occur(ls[n], es[n], runs);
    if es[n].Arrived? {
      StepReplies(ls[n].table, R.Arrival(ls[n].out[0], es[n].refusal));
    }
    hide R.Step, Acked, Kept;
  }

  // ------------------------------------------------ what the channels carry

  /** What an event puts on the wire. */
  function Puts(l: Link, e: Event): seq<Framed> {
    match e
    case Offered(_, opening) => [Framed(l.next, opening)]
    case Shipped(wire, frame) => [Framed(wire, frame)]
    case Ended(wire) => [Framed(wire, StreamClose)]
    case _ => []
  }

  /** What it takes off the wire at the receiver, and at the sender. */
  function Arrivals(l: Link, e: Event): seq<R.Arrival> {
    if e.Arrived? && l.out != [] then [R.Arrival(l.out[0], e.refusal)] else []
  }

  function Hearing(l: Link, e: Event): seq<Framed> {
    if e.Heard? && l.back != [] then [l.back[0]] else []
  }

  function PutSoFar(ls: seq<Link>, es: seq<Event>, n: nat): seq<Framed>
    requires n <= |es| && n < |ls|
  {
    if n == 0 then [] else PutSoFar(ls, es, n - 1) + Puts(ls[n - 1], es[n - 1])
  }

  /** What has arrived at the receiver. */
  function ArrivedSoFar(ls: seq<Link>, es: seq<Event>, n: nat): seq<R.Arrival>
    requires n <= |es| && n < |ls|
  {
    if n == 0 then [] else ArrivedSoFar(ls, es, n - 1) + Arrivals(ls[n - 1], es[n - 1])
  }

  function FramesOf(arrivals: seq<R.Arrival>): seq<Framed> {
    if arrivals == [] then [] else FramesOf(Front(arrivals)) + [Last(arrivals).framed]
  }

  /** What has been heard at the sender. */
  function HeardSoFar(ls: seq<Link>, es: seq<Event>, n: nat): seq<Framed>
    requires n <= |es| && n < |ls|
  {
    if n == 0 then [] else HeardSoFar(ls, es, n - 1) + Hearing(ls[n - 1], es[n - 1])
  }

  /** Everything put on the wire has arrived or is on its way, in order; the receiver is where that brought it. */
  ghost predicate Carried(l: Link, put: seq<Framed>, arrived: seq<R.Arrival>, heard: seq<Framed>,
                          runs: R.Session -> seq<Run>) {
    && put == FramesOf(arrived) + l.out
    && l.table == R.Received(arrived)
    && AllOnWire(l.table.sent, runs) == heard + l.back
  }

  lemma OutCarried(l: Link, e: Event, put: seq<Framed>, arrived: seq<R.Arrival>, heard: seq<Framed>,
                   runs: R.Session -> seq<Run>)
    requires Carried(l, put, arrived, heard, runs) && MayOccur(l, e) && !e.Arrived? && !e.Heard?
    ensures Carried(Occur(l, e, runs), put + Puts(l, e), arrived, heard, runs)
  {
    Assoc(FramesOf(arrived), l.out, Puts(l, e));
    hide FramesOf, R.Received, AllOnWire;
  }

  lemma HeardCarried(l: Link, put: seq<Framed>, arrived: seq<R.Arrival>, heard: seq<Framed>, runs: R.Session -> seq<Run>)
    requires Carried(l, put, arrived, heard, runs) && l.back != [] && MayOccur(l, Heard)
    ensures Carried(Occur(l, Heard, runs), put, arrived, heard + [l.back[0]], runs)
  {
    assert l.back == [l.back[0]] + l.back[1..];
    Assoc(heard, [l.back[0]], l.back[1..]);
    hide FramesOf, R.Received, AllOnWire, Kept, Acked;
  }

  lemma ArrivedCarried(l: Link, refusal: Option<seq<byte>>, put: seq<Framed>, arrived: seq<R.Arrival>,
                       heard: seq<Framed>, runs: R.Session -> seq<Run>)
    requires Carried(l, put, arrived, heard, runs) && MayOccur(l, Event.Arrived(refusal))
    ensures Carried(Occur(l, Event.Arrived(refusal), runs), put, arrived + [R.Arrival(l.out[0], refusal)], heard, runs)
  {
    var a := R.Arrival(l.out[0], refusal);
    assert Front(arrived + [a]) == arrived;
    assert l.out == [l.out[0]] + l.out[1..];
    Assoc(FramesOf(arrived), [l.out[0]], l.out[1..]);
    StepReplies(l.table, a);
    hide R.Step;
    var t := R.Step(l.table, a);
    WiredMore(l.table.sent, NewReplies(l.table, t), runs);
    Assoc(heard, l.back, AllOnWire(NewReplies(l.table, t), runs));
    assert t.sent == l.table.sent + NewReplies(l.table, t);
  }

  lemma WiredMore(a: seq<R.Tagged<R.Reply>>, b: seq<R.Tagged<R.Reply>>, runs: R.Session -> seq<Run>)
    ensures AllOnWire(a + b, runs) == AllOnWire(a, runs) + AllOnWire(b, runs)
  {
  }

  lemma StepCarried(l: Link, e: Event, put: seq<Framed>, arrived: seq<R.Arrival>, heard: seq<Framed>,
                    runs: R.Session -> seq<Run>)
    requires Carried(l, put, arrived, heard, runs) && MayOccur(l, e)
    ensures Carried(Occur(l, e, runs), put + Puts(l, e), arrived + Arrivals(l, e), heard + Hearing(l, e), runs)
  {
    assert put + [] == put && arrived + [] == arrived && heard + [] == heard;
    hide Carried, Occur;
    match e
    case Arrived(refusal) => ArrivedCarried(l, refusal, put, arrived, heard, runs);
    case Heard => HeardCarried(l, put, arrived, heard, runs);
    case _ => OutCarried(l, e, put, arrived, heard, runs);
  }

  /**
   * Over any run: everything put on the wire has arrived, in order, or is on
   * its way; the receiver is where what arrived brings it; and every reply of
   * its has been heard, in order, or is on its way.
   */
  lemma {:induction false} ChannelsKeepOrder(ls: seq<Link>, es: seq<Event>, runs: R.Session -> seq<Run>, n: nat)
    requires Reached(ls, es, runs) && n < |ls|
    ensures Carried(ls[n], PutSoFar(ls, es, n), ArrivedSoFar(ls, es, n), HeardSoFar(ls, es, n), runs)
  {
    if n > 0 {
      var m: nat := n - 1;
      ChannelsKeepOrder(ls, es, runs, m);
      hide Carried, Occur, MayOccur, Puts, Arrivals, Hearing;
      assert MayOccur(ls[m], es[m]) && ls[m + 1] == Occur(ls[m], es[m], runs);
      StepCarried(ls[m], es[m], PutSoFar(ls, es, m), ArrivedSoFar(ls, es, m), HeardSoFar(ls, es, m), runs);
    }
  }

  /** Ending a stream takes it, and no other, off the sender's list, and tells the receiver. */
  lemma EndedIs(l: Link, wire: u32, runs: R.Session -> seq<Run>)
    requires Distinct(l.live) && MayOccur(l, Ended(wire))
    ensures var u := Occur(l, Ended(wire), runs);
            && (forall s :: s in u.live <==> s in l.live && s.wire != wire)
            && u.out == l.out + [Framed(wire, StreamClose)] && u.next == l.next && u.taken == l.taken
  {
    KeptIs(l.live, Framed(wire, Conflict(NIL, [], [])));
    assert Occur(l, Ended(wire), runs).live == Kept(l.live, Framed(wire, Conflict(NIL, [], [])));
    hide Kept;
  }
}
