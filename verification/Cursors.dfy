/**
 * A consumer's durable position (src/cursor.rs): a chunk number and a count
 * inside it, what a restart skips, and the per-store positions of a selection.
 */
module Cursors {
  import opened Common

  // ------------------------------------------------------ values and steps

  /** The chunk a consumer stands in and how many of its entries it was given. */
  datatype Place = Place(chunk: Option<nat>, n: nat)

  const Nowhere := Place(None, 0)

  function Advanced(p: Place, chunk: Option<nat>): Place {
    match chunk
    case None => p
    case Some(_) => Place(chunk, (if p.chunk == chunk then p.n else 0) + 1)
  }

  /** What is left to skip of a resumed stream. */
  datatype Skip = Skip(at: Option<(nat, nat)>, seen: nat, skipped: nat, done: bool)

  function SkipTo(p: Place): Skip {
    Skip(if p.chunk.Some? then Some((p.chunk.value, p.n)) else None, 0, 0, false)
  }

  predicate Delivers(r: Skip, chunk: Option<nat>) {
    || r.done || r.at.None? || chunk.None?
    || chunk.value > r.at.value.0
    || (chunk.value == r.at.value.0 && r.seen >= r.at.value.1)
  }

  function Passed(r: Skip, chunk: Option<nat>): Skip {
    if Delivers(r, chunk) then r.(done := true)
    else r.(seen := r.seen + if chunk.value == r.at.value.0 then 1 else 0, skipped := r.skipped + 1)
  }

  // ------------------------------------------------------------ the objects

  class Cursor {
    var number: Option<nat>
    var n: nat
    var wl: nat
    var delivered: nat

    function Where(): Place
      reads this
    {
      Place(number, n)
    }

    constructor ()
      ensures Where() == Nowhere && wl == 0 && delivered == 0
    {
      number, n, wl, delivered := None, 0, 0, 0;
    }

    method Advance(chunk: Option<nat>, wl: nat)
      modifies this
      ensures Where() == Advanced(old(Where()), chunk)
      ensures this.wl == wl && delivered == old(delivered) + 1
    {
      delivered := delivered + 1;
      this.wl := wl;
      if chunk.None? {
        return;
      }
      if number != chunk {
        number := chunk;
        n := 0;
      }
      n := n + 1;
    }
  }

  class Resume {
    const at: Option<(nat, nat)>
    var seenInChunk: nat
    var skipped: nat
    var done: bool

    function State(): Skip
      reads this
    {
      Skip(at, seenInChunk, skipped, done)
    }

    constructor (cursor: Place)
      ensures State() == SkipTo(cursor)
    {
      at := if cursor.chunk.Some? then Some((cursor.chunk.value, cursor.n)) else None;
      seenInChunk, skipped, done := 0, 0, false;
    }

    method Deliver(chunk: Option<nat>) returns (deliver: bool)
      modifies this
      ensures deliver == Delivers(old(State()), chunk)
      ensures State() == Passed(old(State()), chunk)
    {
      if done {
        return true;
      }
      if at.None? || chunk.None? {
        done := true;
        return true;
      }
      var (cseq, n) := at.value;
      if chunk.value < cseq {
        skipped := skipped + 1;
        return false;
      }
      if chunk.value == cseq && seenInChunk < n {
        seenInChunk := seenInChunk + 1;
        skipped := skipped + 1;
        return false;
      }
      done := true;
      return true;
    }
  }

  // ------------------------------------------------------------ one session

  /** A run between two restarts: the cursor it leaves and the entries it handed over. */
  datatype Session = Session(skip: Skip, place: Place, delivered: seq<nat>)

  function Next(s: Session, tag: Option<nat>, entry: nat): Session {
    if Delivers(s.skip, tag) then Session(Passed(s.skip, tag), Advanced(s.place, tag), s.delivered + [entry])
    else Session(Passed(s.skip, tag), s.place, s.delivered)
  }

  /** `tags[i]` is what the stream says entry `first + i` came from; `None` is the live edge. */
  function Read(p: Place, tags: seq<Option<nat>>, first: nat): Session {
    if tags == [] then Session(SkipTo(p), p, [])
    else Next(Read(p, Front(tags), first), Last(tags), first + |tags| - 1)
  }

  lemma ReadLast(p: Place, tags: seq<Option<nat>>, first: nat, k: nat)
    requires tags != [] && k == first + |tags| - 1
    ensures Read(p, tags, first) == Next(Read(p, Front(tags), first), Last(tags), k)
  {
    hide Next;
  }

  /** The session as the consumer's loop runs it, with the two objects. */
  method ReadLoop(cursor: Cursor, tags: seq<Option<nat>>, first: nat) returns (delivered: seq<nat>)
    modifies cursor
    ensures delivered == Read(old(cursor.Where()), tags, first).delivered
    ensures cursor.Where() == Read(old(cursor.Where()), tags, first).place
  {
    var resume := new Resume(cursor.Where());
    delivered := [];
    for i := 0 to |tags|
      invariant var s := Read(old(cursor.Where()), tags[..i], first);
                resume.State() == s.skip && cursor.Where() == s.place && delivered == s.delivered
    {
      assert Front(tags[..i + 1]) == tags[..i];
      var deliver := resume.Deliver(tags[i]);
      if deliver {
        cursor.Advance(tags[i], 0);
        delivered := delivered + [first + i];
      }
    }
    assert tags[..|tags|] == tags;
  }

  predicate Sorted(c: seq<nat>) {
    forall i, j :: 0 <= i <= j < |c| ==> c[i] <= c[j]
  }

  /** How many entries lie in chunks numbered below `s`. */
  function Below(c: seq<nat>, s: nat): (n: nat)
    ensures n <= |c|
    ensures Sorted(c) ==> forall i :: 0 <= i < |c| ==> (c[i] < s <==> i < n)
  {
    if c == [] then 0 else Below(Front(c), s) + if Last(c) < s then 1 else 0
  }

  /** A re-read may begin anywhere at or before the first entry of the cursor's chunk. */
  predicate Reread(c: seq<nat>, p: Place, j: nat) {
    j <= |c| && if p.chunk.None? then j == 0 else j <= Below(c, p.chunk.value)
  }

  function Tagged(c: seq<nat>): (tags: seq<Option<nat>>)
    ensures |tags| == |c|
    ensures forall i :: 0 <= i < |c| ==> tags[i] == Some(c[i])
  {
    Map(s => Some(s), c)
  }

  function Count(from: nat, to: nat): (r: seq<nat>)
    ensures |r| == if from <= to then to - from else 0
    ensures forall i :: 0 <= i < |r| ==> r[i] == from + i
  {
    if to <= from then [] else Count(from, to - 1) + [to - 1]
  }

  /** Having been given exactly the first `d` entries. */
  predicate Stands(c: seq<nat>, p: Place, d: nat) {
    d <= |c| &&
    if d == 0 then p == Nowhere
    else p.chunk == Some(c[d - 1]) && Below(c, c[d - 1]) + p.n == d
  }

  /** A session from `p`, which stands at `d`, after it has read up to entry `m`. */
  predicate HasGivenRest(c: seq<nat>, p: Place, d: nat, m: nat, s: Session) {
    && s.delivered == Count(d, m)
    && Stands(c, s.place, Max(d, m))
    && s.skip.at == SkipTo(p).at
    && (s.skip.done <==> m > d)
    && (m <= d && d > 0 ==> s.skip.seen == var b := Below(c, c[d - 1]); if m <= b then 0 else m - b)
  }

  lemma RestStep(c: seq<nat>, p: Place, d: nat, k: nat, s: Session)
    requires Sorted(c) && Stands(c, p, d) && k < |c| && HasGivenRest(c, p, d, k, s)
    ensures HasGivenRest(c, p, d, k + 1, Next(s, Some(c[k]), k))
  {
    if k < d {
      var b := Below(c, c[d - 1]);
      assert c[k] < c[d - 1] <==> k < b;
    } else if k > 0 {
      assert c[k - 1] <= c[k];
      assert c[k - 1] < c[k] ==> Below(c, c[k]) == k;
    }
  }

  lemma RestStart(c: seq<nat>, p: Place, d: nat, j: nat)
    requires Sorted(c) && Stands(c, p, d) && Reread(c, p, j)
    ensures HasGivenRest(c, p, d, j, Read(p, Tagged(c[j..j]), j))
  {
    assert Tagged(c[j..j]) == [];
    assert d > 0 ==> j <= Below(c, c[d - 1]) <= d;
  }

  lemma TaggedFront(c: seq<nat>, j: nat, m: nat)
    requires j < m <= |c|
    ensures Tagged(c[j..m]) != []
    ensures Front(Tagged(c[j..m])) == Tagged(c[j..m - 1]) && Last(Tagged(c[j..m])) == Some(c[m - 1])
  {
  }

  /** A session over sealed chunks hands over the undelivered entries it reads, and only those. */
  lemma {:induction false} SessionDeliversTheRest(c: seq<nat>, p: Place, d: nat, j: nat, m: nat)
    requires Sorted(c) && Stands(c, p, d) && Reread(c, p, j) && j <= m <= |c|
    ensures HasGivenRest(c, p, d, m, Read(p, Tagged(c[j..m]), j))
  {
    hide HasGivenRest, Stands, Below, Read, Sorted, Next;
    if m == j {
      RestStart(c, p, d, j);
    } else {
      var tags, k := Tagged(c[j..m]), m - 1;
      SessionDeliversTheRest(c, p, d, j, k);
      TaggedFront(c, j, m);
      ReadLast(p, tags, j, k);
      RestStep(c, p, d, k, Read(p, Front(tags), j));
    }
  }

  // ------------------------------------------------------ any run of restarts

  /** One session of a run: where its re-read begins and where it is stopped. */
  datatype Visit = Visit(from: nat, stop: nat)

  /** The cursor and everything handed over, after the visits. */
  function Visits(c: seq<nat>, vs: seq<Visit>): (Place, seq<nat>) {
    if vs == [] then (Nowhere, [])
    else
      var (p, out) := Visits(c, Front(vs));
      var v := Last(vs);
      if v.from <= v.stop <= |c| then
        var s := Read(p, Tagged(c[v.from..v.stop]), v.from);
        (s.place, out + s.delivered)
      else (p, out)
  }

  predicate Rereads(c: seq<nat>, vs: seq<Visit>) {
    vs == [] || (Rereads(c, Front(vs)) && Last(vs).from <= Last(vs).stop <= |c|
                 && Reread(c, Visits(c, Front(vs)).0, Last(vs).from))
  }

  function Furthest(vs: seq<Visit>): nat {
    if vs == [] then 0 else Max(Furthest(Front(vs)), Last(vs).stop)
  }

  /** Over any run of stops and restarts, every entry reached is handed over exactly once, in order. */
  lemma {:induction false} RestartsDeliverOnce(c: seq<nat>, vs: seq<Visit>)
    requires Sorted(c) && Rereads(c, vs)
    ensures Visits(c, vs).1 == Count(0, Furthest(vs))
    ensures Stands(c, Visits(c, vs).0, Furthest(vs))
  {
    if vs != [] {
      var d, v := Furthest(Front(vs)), Last(vs);
      RestartsDeliverOnce(c, Front(vs));
      SessionDeliversTheRest(c, Visits(c, Front(vs)).0, d, v.from, v.stop);
      hide Stands, Read, Tagged, Sorted;
      CountConcat(d, v.stop);
    }
  }

  lemma CountConcat(d: nat, m: nat)
    ensures Count(0, d) + Count(d, m) == Count(0, Max(d, m))
  {
  }

  // ----------------------------------------------------------- the live edge

  /**
   * What a stream may say of the entries from `j` on: the chunk each is in, or
   * nothing for one whose chunk is not sealed yet. A chunk the cursor has
   * reached is sealed.
   */
  predicate Says(c: seq<nat>, p: Place, j: nat, tags: seq<Option<nat>>) {
    && j + |tags| <= |c|
    && forall i :: 0 <= i < |tags| ==>
         (tags[i].Some? ==> tags[i].value == c[j + i])
         && (tags[i].None? && p.chunk.Some? ==> c[j + i] > p.chunk.value)
  }

  /** The entries the cursor stands for are among the first `d`. */
  predicate Holds(c: seq<nat>, p: Place, d: nat) {
    p.chunk.Some? ==> Below(c, p.chunk.value) + p.n <= Min(d, Below(c, p.chunk.value + 1))
  }

  /** A session from `p`, begun at entry `j`, after it has read up to entry `m`. */
  predicate HasSkippedOnly(c: seq<nat>, p: Place, d: nat, j: nat, m: nat, s: Session) {
    && (forall i :: j <= i < m ==> i < d || i in s.delivered)
    && s.skip.at == SkipTo(p).at
    && (if s.skip.done then Holds(c, s.place, m)
        else s.place == p
             && (p.chunk.None? ==> m == j)
             && (p.chunk.Some? ==> s.skip.seen == var b := Below(c, p.chunk.value); if m <= b then 0 else m - b)
             && (p.chunk.Some? ==> m <= Below(c, p.chunk.value) + p.n))
  }

  lemma SkippedStep(c: seq<nat>, p: Place, d: nat, j: nat, k: nat, s: Session, tag: Option<nat>)
    requires Sorted(c) && Holds(c, p, d) && j <= k < |c| && HasSkippedOnly(c, p, d, j, k, s)
    requires tag.Some? ==> tag.value == c[k]
    requires tag.None? && p.chunk.Some? ==> c[k] > p.chunk.value
    ensures HasSkippedOnly(c, p, d, j, k + 1, Next(s, tag, k))
  {
    var t := Next(s, tag, k);
    assert t.delivered == s.delivered || t.delivered == s.delivered + [k];
    if tag.Some? {
      assert Below(c, c[k]) <= k < Below(c, c[k] + 1);
    }
    if !s.skip.done && p.chunk.Some? {
      assert c[k] <= p.chunk.value <==> k < Below(c, p.chunk.value + 1);
    }
    if s.place.chunk.Some? && s.skip.done {
      assert Below(c, s.place.chunk.value) + s.place.n <= k;
    }
  }

  /** A session leaves out only entries among the first `d`, and its cursor covers no more than it passed. */
  lemma SaysFront(c: seq<nat>, p: Place, j: nat, tags: seq<Option<nat>>, k: nat)
    requires tags != [] && Says(c, p, j, tags) && k == j + |tags| - 1
    ensures var tag := Last(tags);
            && Says(c, p, j, Front(tags)) && k < |c|
            && (tag.Some? ==> tag.value == c[k])
            && (tag.None? && p.chunk.Some? ==> c[k] > p.chunk.value)
  {
    assert Last(tags) == tags[|tags| - 1];
  }

  lemma NothingSkippedYet(c: seq<nat>, p: Place, d: nat, j: nat)
    requires Sorted(c) && Holds(c, p, d) && Reread(c, p, j)
    ensures HasSkippedOnly(c, p, d, j, j, Read(p, [], j))
  {
  }

  lemma {:induction false} SessionSkipsOnlyDelivered(c: seq<nat>, p: Place, d: nat, j: nat, tags: seq<Option<nat>>, m: nat)
    requires Sorted(c) && Holds(c, p, d) && Reread(c, p, j) && Says(c, p, j, tags) && m == j + |tags|
    ensures HasSkippedOnly(c, p, d, j, m, Read(p, tags, j))
  {
    hide Next, HasSkippedOnly, Holds, Sorted, Read, Below, Says, Reread;
    if tags == [] {
      NothingSkippedYet(c, p, d, j);
    } else {
      SaysFront(c, p, j, tags, m - 1);
      SessionSkipsOnlyDelivered(c, p, d, j, Front(tags), m - 1);
      ReadLast(p, tags, j, m - 1);
      SkippedStep(c, p, d, j, m - 1, Read(p, Front(tags), j), Last(tags));
    }
  }

  /** A visit that also sees the live edge. */
  datatype LiveVisit = LiveVisit(from: nat, tags: seq<Option<nat>>)

  function LiveVisits(vs: seq<LiveVisit>): (Place, seq<nat>) {
    if vs == [] then (Nowhere, [])
    else
      var (p, out) := LiveVisits(Front(vs));
      var s := Read(p, Last(vs).tags, Last(vs).from);
      (s.place, out + s.delivered)
  }

  predicate LiveRereads(c: seq<nat>, vs: seq<LiveVisit>) {
    vs == [] ||
    var p := LiveVisits(Front(vs)).0;
    LiveRereads(c, Front(vs)) && Reread(c, p, Last(vs).from) && Says(c, p, Last(vs).from, Last(vs).tags)
  }

  function Reached(vs: seq<LiveVisit>): nat {
    if vs == [] then 0 else Max(Reached(Front(vs)), Last(vs).from + |Last(vs).tags|)
  }

  /** With live-edge entries mixed in, every entry reached is still handed over at least once. */
  lemma {:induction false} RestartsDeliverAtLeastOnce(c: seq<nat>, vs: seq<LiveVisit>)
    requires Sorted(c) && LiveRereads(c, vs)
    ensures forall i :: 0 <= i < Reached(vs) ==> i in LiveVisits(vs).1
    ensures Holds(c, LiveVisits(vs).0, Reached(vs))
  {
    if vs != [] {
      LiveLast(c, vs);
      hide Read, Sorted, Below, Holds, Says, Reread, LiveVisits, Reached, LiveRereads, HasSkippedOnly;
      var p, out := LiveVisits(Front(vs)).0, LiveVisits(Front(vs)).1;
      var d, v := Reached(Front(vs)), Last(vs);
      RestartsDeliverAtLeastOnce(c, Front(vs));
      SessionSkipsOnlyDelivered(c, p, d, v.from, v.tags, v.from + |v.tags|);
      RereadIsReached(c, p, d, v.from);
      SessionReaches(c, p, d, v.from, v.from + |v.tags|, Read(p, v.tags, v.from));
    }
  }

  lemma LiveLast(c: seq<nat>, vs: seq<LiveVisit>)
    requires vs != [] && LiveRereads(c, vs)
    ensures var p, out, v := LiveVisits(Front(vs)).0, LiveVisits(Front(vs)).1, Last(vs);
            && LiveVisits(vs) == (Read(p, v.tags, v.from).place, out + Read(p, v.tags, v.from).delivered)
            && Reached(vs) == Max(Reached(Front(vs)), v.from + |v.tags|)
            && LiveRereads(c, Front(vs)) && Reread(c, p, v.from) && Says(c, p, v.from, v.tags)
  {
    hide Read, Reread, Says;
  }

  lemma RereadIsReached(c: seq<nat>, p: Place, d: nat, j: nat)
    requires Sorted(c) && Holds(c, p, d) && Reread(c, p, j)
    ensures j <= d || j == 0
  {
  }

  /** What a session leaves: everything up to where it or an earlier one got. */
  lemma SessionReaches(c: seq<nat>, p: Place, d: nat, j: nat, m: nat, s: Session)
    requires Sorted(c) && Holds(c, p, d) && HasSkippedOnly(c, p, d, j, m, s) && (j <= d || j == 0) && j <= m
    ensures Holds(c, s.place, Max(d, m))
    ensures forall i :: 0 <= i < Max(d, m) ==> i < d || i in s.delivered
  {
  }

  // ----------------------------------------------- what may be dropped

  /**
   * How many head chunks a cursor has fully consumed, given the numbers of the
   * chunks the store holds: a partition point, exact because they only increase.
   */
  function ConsumedPrefix(held: seq<nat>, at: Option<nat>): (k: nat)
    ensures k <= |held|
    ensures Sorted(held) ==> forall i :: 0 <= i < |held| ==> (i < k <==> at.Some? && held[i] < at.value)
  {
    if at.None? then 0 else Below(held, at.value)
  }

  predicate SameBut(a: Session, b: Session) {
    && a.place == b.place && a.delivered == b.delivered
    && a.skip.at == b.skip.at && a.skip.seen == b.skip.seen && a.skip.done == b.skip.done
  }

  /**
   * Once the store has dropped the chunks `ConsumedPrefix` counts, which hold
   * the entries before `k`, a re-read hands over what it would have before.
   */
  lemma DroppingConsumedChangesNothing(held: seq<nat>, c: seq<nat>, p: Place, j: nat, k: nat, tags: seq<Option<nat>>)
    requires Sorted(held) && Sorted(c) && Reread(c, p, j) && Says(c, p, j, tags)
    requires j <= k <= j + |tags|
    requires forall i :: j <= i < |c| ==> c[i] in held
    requires forall i :: j <= i < |c| ==> (c[i] in held[..ConsumedPrefix(held, p.chunk)] <==> i < k)
    ensures SameBut(Read(p, tags, j), Read(p, tags[k - j..], k))
  {
    var b := ConsumedPrefix(c[j..], p.chunk);
    if j + b < k {
      DroppedAreBelow(held, c, p, j, k, j + b);
    } else if k < j + b {
      DroppedAreBelow(held, c, p, j, k, k);
    }
    ReadFromOwnChunk(c, p, j, k, tags);
  }

  lemma DroppedAreBelow(held: seq<nat>, c: seq<nat>, p: Place, j: nat, k: nat, i: nat)
    requires Sorted(held) && Sorted(c) && j <= i < |c| && c[i] in held
    requires c[i] in held[..ConsumedPrefix(held, p.chunk)] <==> i < k
    ensures i < k <==> i - j < ConsumedPrefix(c[j..], p.chunk)
  {
    var n := ConsumedPrefix(held, p.chunk);
    var h :| 0 <= h < |held| && held[h] == c[i];
    assert h < n ==> held[..n][h] == c[i];
    assert c[j..][i - j] == c[i];
  }

  /** A re-read that starts at the cursor's own chunk hands over what one from before it does. */
  lemma {:induction false} ReadFromOwnChunk(c: seq<nat>, p: Place, j: nat, k: nat, tags: seq<Option<nat>>)
    requires Sorted(c) && Reread(c, p, j) && Says(c, p, j, tags)
    requires k == j + ConsumedPrefix(c[j..], p.chunk) && k <= j + |tags|
    ensures SameBut(Read(p, tags, j), Read(p, tags[k - j..], k))
  {
    if p.chunk.Some? {
      var b := ConsumedPrefix(c[j..], p.chunk);
      if |tags| == b {
        SkipsConsumed(c, p, j, tags);
      } else {
        var front, m := Front(tags), j + |tags| - 1;
        assert Says(c, p, j, front);
        ReadFromOwnChunk(c, p, j, k, front);
        SuffixSnoc(tags, b);
        hide Read, Says, Reread, Sorted, Next, SameBut, ConsumedPrefix;
        ReadLast(p, tags, j, m);
        ReadLast(p, tags[b..], k, m);
        SameAfter(Read(p, front, j), Read(p, front[b..], k), Last(tags), m);
      }
    } else {
      assert tags[0..] == tags;
    }
  }

  lemma SuffixSnoc<T>(s: seq<T>, b: nat)
    requires b < |s|
    ensures s[b..] != [] && Front(s[b..]) == Front(s)[b..] && Last(s[b..]) == Last(s)
  {
  }

  /** How many were skipped matters to no later step. */
  lemma SameAfter(a: Session, b: Session, tag: Option<nat>, k: nat)
    requires SameBut(a, b)
    ensures SameBut(Next(a, tag, k), Next(b, tag, k))
  {
  }

  lemma {:induction false} SkipsConsumed(c: seq<nat>, p: Place, j: nat, tags: seq<Option<nat>>)
    requires p.chunk.Some? && Sorted(c) && Says(c, p, j, tags) && |tags| <= ConsumedPrefix(c[j..], p.chunk)
    ensures SameBut(Read(p, tags, j), Read(p, [], j))
  {
    if tags != [] {
      var m := j + |tags| - 1;
      assert Says(c, p, j, Front(tags));
      SkipsConsumed(c, p, j, Front(tags));
      assert c[j..][|tags| - 1] == c[m];
      ReadLast(p, tags, j, m);
    }
  }

  // ------------------------------------------- a position in every store

  type Id = string

  /** Where one store stands: where to resume, and the chunk retention may not reach. */
  datatype At = At(offset: nat, chunk: Option<nat>, wl: nat, delivered: nat)

  function AdvancedAt(was: Option<At>, offset: nat, chunk: Option<nat>, wl: nat, delivered: nat): At {
    var e := if was.Some? then was.value else At(offset, None, wl, 0);
    At(offset, MaxOption(e.chunk, chunk), Max(e.wl, wl), e.delivered + delivered)
  }

  /** The offset is the one told; the chunk and the write time are the greater; the count adds up. */
  lemma AdvancedIs(was: At, offset: nat, chunk: Option<nat>, wl: nat, delivered: nat)
    ensures AdvancedAt(None, offset, chunk, wl, delivered) == At(offset, chunk, wl, delivered)
    ensures var a := AdvancedAt(Some(was), offset, chunk, wl, delivered);
            && a.offset == offset && a.delivered == was.delivered + delivered
            && a.wl >= was.wl && a.wl >= wl && (a.wl == was.wl || a.wl == wl)
            && (a.chunk == was.chunk || a.chunk == chunk)
            && (was.chunk.Some? ==> a.chunk.Some? && a.chunk.value >= was.chunk.value)
            && (chunk.Some? ==> a.chunk.Some? && a.chunk.value >= chunk.value)
  {
  }

  function Find<V>(m: map<Id, V>, id: Id): Option<V> {
    if id in m then Some(m[id]) else None
  }

  /** One consumer's position in every store of a selection. */
  class Positions {
    var at: map<Id, At>

    constructor (saved: map<Id, At>)
      ensures at == saved
    {
      at := saved;
    }

    method Advance(id: Id, offset: nat, chunk: Option<nat>, wl: nat, delivered: nat)
      modifies this
      ensures at == old(at)[id := AdvancedAt(Find(old(at), id), offset, chunk, wl, delivered)]
    {
      var e := if id in at then at[id] else At(offset, None, wl, 0);
      e := e.(offset := offset);
      e := e.(chunk := MaxOption(e.chunk, chunk));
      e := e.(wl := Max(e.wl, wl));
      e := e.(delivered := e.delivered + delivered);
      at := at[id := e];
    }
  }
}
