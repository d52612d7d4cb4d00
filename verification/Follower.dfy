/**
 * Interest-based retention (src/follower.rs): which chunks of a store every
 * retaining follower has consumed, and the account given when a size budget
 * drops one that somebody had not.
 */
module Follower {
  import opened Common
  import Cursors

  /** A store's fields, which selectors match on; its identity is the field `id`. */
  type Fields = map<string, string>

  /** One retaining follower: what it covers and the chunk it has consumed up to in each store. */
  datatype Retaining = Retaining(name: string, selects: Fields -> bool, at: map<string, Option<nat>>)

  /** What a store may drop by interest. No floor means nothing. */
  datatype Interest = Interest(
    floor: Option<nat>,
    holder: Option<string>,
    holderAt: Option<nat>,
    retaining: nat,
    blind: bool)

  const Unheld := Interest(None, None, None, 0, false)
  const Blind := Interest(None, None, None, 0, true)

  /** A retaining follower that covers the store, with its position in it. */
  datatype Held = Held(name: string, at: Option<nat>)

  function PositionIn(r: Retaining, fields: Fields): Option<nat> {
    if "id" in fields && fields["id"] in r.at then r.at[fields["id"]] else None
  }

  /** A follower's position in a store is what it recorded under the store's identity, if it has one. */
  lemma PositionIs(r: Retaining, fields: Fields)
    ensures forall id :: "id" in fields && fields["id"] == id && id in r.at ==> PositionIn(r, fields) == r.at[id]
    ensures forall id :: "id" in fields && fields["id"] == id && id !in r.at ==> PositionIn(r, fields) == None
    ensures "id" !in fields ==> PositionIn(r, fields) == None
  {
  }

  function Matching(all: seq<Retaining>, fields: Fields): (ms: seq<Held>)
    ensures forall m :: m in ms <==>
              exists r :: r in all && r.selects(fields) && m == Held(r.name, PositionIn(r, fields))
  {
    if all == [] then []
    else
      var r := Last(all);
      assert all == Front(all) + [r];
      Matching(Front(all), fields) + if r.selects(fields) then [Held(r.name, PositionIn(r, fields))] else []
  }

  lemma MatchedPositions(all: seq<Retaining>, fields: Fields, id: string, k: nat, nextSeq: nat)
    requires "id" in fields && fields["id"] == id
    ensures Matching(all, fields) != [] <==> exists r :: r in all && r.selects(fields)
    ensures (forall m :: m in Matching(all, fields) ==> m.at.Some? && k < m.at.value < nextSeq)
            <==> forall r :: r in all && r.selects(fields) ==>
                   id in r.at && r.at[id].Some? && k < r.at[id].value < nextSeq
  {
    var ms := Matching(all, fields);
    forall r
      ensures PositionIn(r, fields) == if id in r.at then r.at[id] else None
    {
      PositionIs(r, fields);
    }
    hide Matching, PositionIn;
    assert ms != [] ==> ms[0] in ms;
    forall r | r in all && r.selects(fields)
      ensures Held(r.name, PositionIn(r, fields)) in ms
    {
    }
    if forall m :: m in ms ==> m.at.Some? && k < m.at.value < nextSeq {
      forall r | r in all && r.selects(fields)
        ensures id in r.at && r.at[id].Some? && k < r.at[id].value < nextSeq
      {
        assert Held(r.name, PositionIn(r, fields)) in ms;
      }
    }
  }

  /** Its position says nothing may go: it has none, or claims a chunk never written. */
  predicate Blocks(m: Held, nextSeq: nat) {
    m.at.None? || m.at.value >= nextSeq
  }

  function Least(ms: seq<Held>): (f: nat)
    requires ms != [] && forall m :: m in ms ==> m.at.Some?
    ensures exists m :: m in ms && m.at == Some(f)
    ensures forall m :: m in ms ==> f <= m.at.value
  {
    var last := Last(ms).at.value;
    assert ms == Front(ms) + [Last(ms)];
    if |ms| == 1 then last else Min(Least(Front(ms)), last)
  }

  lemma LeastSnoc(ms: seq<Held>, i: nat)
    requires i < |ms| && forall k :: 0 <= k <= i ==> ms[k].at.Some?
    ensures Least(ms[..i + 1]) == if i == 0 then ms[0].at.value else Min(Least(ms[..i]), ms[i].at.value)
  {
    assert Front(ms[..i + 1]) == ms[..i];
  }

  function FirstBlocking(ms: seq<Held>, nextSeq: nat): (m: Held)
    requires exists m :: m in ms && Blocks(m, nextSeq)
    ensures m in ms && Blocks(m, nextSeq)
  {
    if Blocks(ms[0], nextSeq) then ms[0] else FirstBlocking(ms[1..], nextSeq)
  }

  function FirstAt(ms: seq<Held>, at: Option<nat>): (m: Held)
    requires exists m :: m in ms && m.at == at
    ensures m in ms && m.at == at
  {
    if ms[0].at == at then ms[0] else FirstAt(ms[1..], at)
  }

  /** What `ms`, the retaining followers of one store, let it drop. */
  function InterestOf(ms: seq<Held>, nextSeq: nat): Interest {
    if ms == [] then Unheld
    else if exists m :: m in ms && Blocks(m, nextSeq) then
      var m := FirstBlocking(ms, nextSeq);
      Interest(None, Some(m.name), m.at, |ms|, false)
    else
      var f := Least(ms);
      Interest(Some(f), Some(FirstAt(ms, Some(f)).name), Some(f), |ms|, false)
  }

  lemma FirstBlockingIs(ms: seq<Held>, nextSeq: nat, k: nat)
    requires k < |ms| && Blocks(ms[k], nextSeq) && forall i :: 0 <= i < k ==> !Blocks(ms[i], nextSeq)
    ensures FirstBlocking(ms, nextSeq) == ms[k]
    decreases k
  {
    if k > 0 {
      assert ms[1..][k - 1] == ms[k];
      FirstBlockingIs(ms[1..], nextSeq, k - 1);
    }
  }

  lemma FirstAtIs(ms: seq<Held>, at: Option<nat>, k: nat)
    requires k < |ms| && ms[k].at == at && forall i :: 0 <= i < k ==> ms[i].at != at
    ensures FirstAt(ms, at) == ms[k]
    decreases k
  {
    if k > 0 {
      assert ms[1..][k - 1] == ms[k];
      FirstAtIs(ms[1..], at, k - 1);
    }
  }

  class InterestIndex {
    /** Every retaining follower; none when the registry could not be read. */
    const retaining: Option<seq<Retaining>>

    constructor (retaining: Option<seq<Retaining>>)
      ensures this.retaining == retaining
    {
      this.retaining := retaining;
    }

    method ForStore(fields: Fields, nextSeq: nat) returns (r: Interest)
      ensures r == if retaining.None? then Blind else InterestOf(Matching(retaining.value, fields), nextSeq)
      ensures r.blind <==> retaining.None?
      ensures r.floor.Some? <==> retaining.Some? && var ms := Matching(retaining.value, fields);
                                   ms != [] && forall m :: m in ms ==> m.at.Some? && m.at.value < nextSeq
    {
      if retaining.Some? && Matching(retaining.value, fields) != [] {
        FloorIsLeast(Matching(retaining.value, fields), nextSeq);
      }
      if retaining.None? {
        return Blind;
      }
      var ms := Matching(retaining.value, fields);
      if ms == [] {
        return Unheld;
      }
      var blocked, floor := Scan(ms, nextSeq);
      if blocked.Some? {
        return Interest(None, Some(blocked.value.name), blocked.value.at, |ms|, false);
      }
      var h := FindAt(ms, floor);
      return Interest(floor, Some(h.name), floor, |ms|, false);
    }

    method Scan(ms: seq<Held>, nextSeq: nat) returns (blocked: Option<Held>, floor: Option<nat>)
      requires ms != []
      ensures blocked.Some? <==> exists m :: m in ms && Blocks(m, nextSeq)
      ensures blocked.Some? ==> blocked.value == FirstBlocking(ms, nextSeq)
      ensures blocked.None? ==> floor == Some(Least(ms))
    {
      hide Least, FirstBlocking;
      floor := None;
      for i := 0 to |ms|
        invariant forall k :: 0 <= k < i ==> !Blocks(ms[k], nextSeq)
        invariant floor == if i == 0 then None else Some(Least(ms[..i]))
      {
        if Blocks(ms[i], nextSeq) {
          FirstBlockingIs(ms, nextSeq, i);
          return Some(ms[i]), floor;
        }
        LeastSnoc(ms, i);
        if floor.None? || ms[i].at.value < floor.value {
          floor := ms[i].at;
        }
      }
      assert ms[..|ms|] == ms;
      return None, floor;
    }

    method FindAt(ms: seq<Held>, at: Option<nat>) returns (m: Held)
      requires exists m :: m in ms && m.at == at
      ensures m == FirstAt(ms, at)
    {
      var h := 0;
      while ms[h].at != at
        invariant h < |ms| && forall i :: 0 <= i < h ==> ms[i].at != at
        decreases |ms| - h
      {
        h := h + 1;
      }
      FirstAtIs(ms, at, h);
      return ms[h];
    }
  }

  /** How many head chunks may go by interest alone, given the numbers of those held. */
  function Droppable(i: Interest, held: seq<nat>): (k: nat)
    ensures k <= |held|
    ensures Cursors.Sorted(held) ==>
              forall j :: 0 <= j < |held| ==> (j < k <==> i.floor.Some? && held[j] < i.floor.value)
  {
    if i.floor.None? then 0 else Cursors.Below(held, i.floor.value)
  }

  /** A run of chunks a budget dropped although `holder` had not read them. */
  datatype Loss = Loss(holder: string, holderAt: Option<nat>, first: nat, last: nat)

  function OverrideRecord(i: Interest, first: nat, last: nat): Option<Loss> {
    match (i.holder, i.floor)
    case (None, _) => None
    case (Some(h), None) => Some(Loss(h, i.holderAt, first, last))
    case (Some(h), Some(f)) => if last >= f then Some(Loss(h, i.holderAt, Max(f, first), last)) else None
  }

  // --------------------------------------------------------- the theorems

  /**
   * There is a floor if and only if every retaining follower of the store has
   * a position in a chunk that was written. It is then the least of them, and
   * the holder is at it; otherwise the holder is one that has no position, or
   * has one in a chunk never written.
   */
  lemma FloorIsLeast(ms: seq<Held>, nextSeq: nat)
    requires ms != []
    ensures var i := InterestOf(ms, nextSeq);
            && (i.floor.Some? <==> forall m :: m in ms ==> m.at.Some? && m.at.value < nextSeq)
            && (i.floor.Some? ==> (forall m :: m in ms ==> i.floor.value <= m.at.value)
                                  && i.holderAt == i.floor)
            && (i.floor.None? ==> i.holderAt.None? || i.holderAt.value >= nextSeq)
            && i.holder.Some? && Held(i.holder.value, i.holderAt) in ms
            && i.retaining == |ms| && !i.blind
  {
    if forall m :: m in ms ==> !Blocks(m, nextSeq) {
      var f := Least(ms);
      var h := FirstAt(ms, Some(f));
      assert h == Held(h.name, Some(f));
    } else {
      var h := FirstBlocking(ms, nextSeq);
      assert h == Held(h.name, h.at);
    }
  }

  /** Some retaining follower has no position in a chunk that was written, or has not got past chunk `c`. */
  predicate Unread(ms: seq<Held>, nextSeq: nat, c: nat) {
    exists m :: m in ms && (m.at.None? || m.at.value >= nextSeq || m.at.value <= c)
  }

  lemma UnreadFrom(ms: seq<Held>, nextSeq: nat, c: nat)
    ensures var i := InterestOf(ms, nextSeq);
            Unread(ms, nextSeq, c) <==> ms != [] && (i.floor.None? || i.floor.value <= c)
  {
    if ms != [] {
      FloorIsLeast(ms, nextSeq);
      var i := InterestOf(ms, nextSeq);
      hide InterestOf;
      assert Held(i.holder.value, i.holderAt) in ms;
    }
  }

  /** A head chunk is let go if and only if a retaining follower covers the store and all that do have read it. */
  lemma LetsGoTheRead(ms: seq<Held>, nextSeq: nat, held: seq<nat>, j: nat)
    requires Cursors.Sorted(held) && j < |held|
    ensures j < Droppable(InterestOf(ms, nextSeq), held) <==> ms != [] && !Unread(ms, nextSeq, held[j])
  {
    UnreadFrom(ms, nextSeq, held[j]);
    hide Unread;
  }

  /** A record exists if and only if an unread chunk was dropped; it names those chunks, and whom it failed. */
  lemma LossRecordIsExact(ms: seq<Held>, nextSeq: nat, first: nat, last: nat)
    requires first <= last
    ensures var r := OverrideRecord(InterestOf(ms, nextSeq), first, last);
            && (r.Some? <==> exists c :: first <= c <= last && Unread(ms, nextSeq, c))
            && (r.Some? ==> (forall c :: r.value.first <= c <= r.value.last
                                         <==> first <= c <= last && Unread(ms, nextSeq, c))
                            && var at := r.value.holderAt;
                               && Held(r.value.holder, at) in ms
                               && (at.Some? && at.value < nextSeq ==>
                                     forall m :: m in ms ==> m.at.Some? && at.value <= m.at.value < nextSeq))
  {
    if ms != [] {
      FloorIsLeast(ms, nextSeq);
    }
    forall c: nat
      ensures Unread(ms, nextSeq, c) <==> ms != [] && var f := InterestOf(ms, nextSeq).floor; f.None? || f.value <= c
    {
      UnreadFrom(ms, nextSeq, c);
    }
    assert ms == [] ==> InterestOf(ms, nextSeq) == Unheld;
    hide InterestOf, Unread;
    assert Unread(ms, nextSeq, last) ==> exists c :: first <= c <= last && Unread(ms, nextSeq, c);
  }

  /** An unreadable registry drops nothing by interest and accuses nobody. */
  lemma BlindHolds(held: seq<nat>, first: nat, last: nat)
    ensures Droppable(Blind, held) == 0 && OverrideRecord(Blind, first, last) == None
  {
  }
}
