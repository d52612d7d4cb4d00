/**
 * The loop as the source writes it: an object that mutates its table of stores
 * and its positions, each method proved to do what `FeedModel` says.
 */
module FeedLoop {
  import opened Common
  import opened Cursors
  import opened FeedModel

  class Feeder {
    var tracked: map<Id, Tracked>
    const positions: Positions
    var disk: map<Id, At>
    const follow: bool

    ghost function State(): FeedModel.State
      reads this, positions
    {
      FeedModel.State(tracked, positions.at, disk)
    }

    constructor (saved: map<Id, At>, follow: bool)
      ensures State() == FeedModel.State(map[], saved, saved) && this.follow == follow
      ensures fresh(positions)
    {
      positions := new Positions(saved);
      tracked, disk := map[], saved;
      this.follow := follow;
    }

    /** A claim is taken only for a store with no position. */
    method Seed(claims: seq<(Id, nat)>)
      modifies positions
      ensures positions.at == Seeded(old(positions.at), claims)
    {
      for i := 0 to |claims|
        invariant positions.at == Seeded(old(positions.at), claims[..i])
      {
        assert Front(claims[..i + 1]) == claims[..i];
        if claims[i].0 !in positions.at {
          positions.Advance(claims[i].0, claims[i].1, None, 0, 0);
        }
      }
      assert claims[..|claims|] == claims;
    }

    /** What comes before the first turn. */
    method Connect(holds: seq<(Id, nat)>)
      requires tracked == map[] && positions.at == disk
      modifies this`disk, positions
      ensures State() == FeedModel.Connect(old(disk), holds)
    {
      Seed(holds);
      Persist();
    }

    method Announce(stores: seq<Id>)
      modifies this`tracked
      ensures tracked == FeedModel.Announce(old(tracked), stores)
    {
      for i := 0 to |stores|
        invariant tracked == FeedModel.Announce(old(tracked), stores[..i])
      {
        assert Front(stores[..i + 1]) == stores[..i];
        if stores[i] !in tracked {
          tracked := tracked[stores[i] := Untouched];
        }
      }
      assert stores[..|stores|] == stores;
    }

    method Splice(frames: seq<Frame>) returns (sent: nat, more: bool, last: Option<Id>, failed: bool)
      modifies this`tracked
      ensures Spliced(tracked, sent, more, last, failed) == FeedModel.Splice(old(tracked), frames)
    {
      sent, more, last, failed := 0, false, None, false;
      for i := 0 to |frames|
        invariant !failed
        invariant Spliced(tracked, sent, more, last, failed) == FeedModel.Splice(old(tracked), frames[..i])
      {
        assert Front(frames[..i + 1]) == frames[..i];
        match frames[i] {
          case Entry(id, offset, len, chunk, wl) =>
            if id.None? || offset.None? || len.None? {
              failed := true;
              SpliceStops(old(tracked), frames, i + 1);
              return;
            }
            if id.value in tracked {
              var t := tracked[id.value];
              var p := Pending(offset.value + len.value, chunk, if wl.Some? then wl.value else 0);
              tracked := tracked[id.value := t.(pending := t.pending + [p])];
            }
            last := id;
            sent := sent + 1;
          case StreamEnd(limited) =>
            more := limited;
          case Other =>
        }
      }
      assert frames[..|frames|] == frames;
    }

    /** Forget what the watermark covers, then move the position. */
    method TakeProgress(id: Id, offset: nat, taken: Option<nat>)
      requires id in tracked
      modifies this`tracked, positions
      ensures State() == Watermark(old(State()), id, offset, taken)
    {
      var t := tracked[id];
      if taken.Some? {
        t := t.(taken := Some(Max(if t.taken.Some? then t.taken.value else 0, taken.value)));
      }
      var kept, chunk, wl, delivered := Retain(t.pending, offset);
      tracked := tracked[id := t.(pending := kept)];
      positions.Advance(id, offset, chunk, wl, delivered);
    }

    static method Retain(ps: seq<Pending>, offset: nat)
      returns (kept: seq<Pending>, chunk: Option<nat>, wl: nat, delivered: nat)
      ensures kept == Past(ps, offset)
      ensures var acked := UpTo(ps, offset);
              chunk == NewestChunk(acked) && wl == NewestWl(acked) && delivered == |acked|
    {
      kept, chunk, wl, delivered := [], None, 0, 0;
      hide Retained;
      RetainNone(offset);
      for i := 0 to |ps|
        invariant Retained(ps[..i], offset, kept, chunk, wl, delivered)
      {
        var p := ps[i];
        RetainStep(ps, i, offset, kept, chunk, wl, delivered);
        if p.end <= offset {
          chunk := MaxOption(p.chunk, chunk);
          wl := Max(wl, p.wl);
          delivered := delivered + 1;
        } else {
          kept := kept + [p];
        }
      }
      assert ps[..|ps|] == ps;
      RetainedIs(ps, offset, kept, chunk, wl, delivered);
    }

    method Drain(reports: seq<Report>) returns (moved: bool, failed: bool)
      modifies this`tracked, positions
      ensures Taken(State(), moved, failed) == FeedModel.Drain(old(State()), reports)
    {
      moved, failed := false, false;
      for i := 0 to |reports|
        invariant !failed
        invariant Taken(State(), moved, failed) == FeedModel.Drain(old(State()), reports[..i])
      {
        assert Front(reports[..i + 1]) == reports[..i];
        match reports[i] {
          case Hello =>
            failed := true;
            DrainStops(old(State()), reports, i + 1);
            return;
          case Progress(id, offset, taken) =>
            if id in tracked {
              TakeProgress(id, offset, taken);
              moved := true;
            }
          case Note(changed) =>
            moved := moved || changed;
        }
      }
      assert reports[..|reports|] == reports;
    }

    method Persist()
      modifies this`disk
      ensures State() == FeedModel.Persist(old(State()))
    {
      disk := positions.at;
    }

    /** Reports that have arrived, or, after the last turn, all that still come; what they moved is written. */
    method Settle(reports: seq<Report>) returns (moved: bool, failed: bool)
      modifies this`tracked, this`disk, positions
      ensures Taken(State(), moved, failed) == FeedModel.Settle(old(State()), reports)
    {
      moved, failed := Drain(reports);
      if moved && !failed {
        Persist();
      }
    }

    /** One turn of the loop. */
    method RunTurn(turn: Turn) returns (outcome: Outcome)
      modifies this`tracked, this`disk, positions
      ensures (State(), outcome) == FeedModel.RunTurn(old(State()), turn, follow)
    {
      var skipped := AnyInFlight(tracked);
      tracked := MarkHeld(tracked);
      Seed(turn.picked);
      Announce(turn.stores);
      var sent, more, last, failed := Splice(turn.frames);
      if failed {
        return Failed;
      }
      var moved;
      moved, failed := Settle(turn.reports);
      if failed {
        return Failed;
      }
      if sent > 0 || more {
        return Again;
      }
      if !AnyInFlight(tracked) {
        return if skipped || follow then Again else Drained;
      }
      match turn.wait {
        case Spoke(r, rest) =>
          moved, failed := Drain([r] + rest);
          if failed {
            return Failed;
          }
          Persist();
          return Again;
        case Silent(tooLong) =>
          return if tooLong && !follow then GaveUp else Again;
        case Gone =>
          return Failed;
      }
    }
  }

  /** What has come of the entries looked at so far. */
  predicate Retained(ps: seq<Pending>, offset: nat, kept: seq<Pending>, chunk: Option<nat>, wl: nat, n: nat) {
    kept == Past(ps, offset)
    && var acked := UpTo(ps, offset);
       chunk == NewestChunk(acked) && wl == NewestWl(acked) && n == |acked|
  }

  lemma RetainNone(offset: nat)
    ensures Retained([], offset, [], None, 0, 0)
  {
  }

  lemma RetainedIs(ps: seq<Pending>, offset: nat, kept: seq<Pending>, chunk: Option<nat>, wl: nat, n: nat)
    requires Retained(ps, offset, kept, chunk, wl, n)
    ensures kept == Past(ps, offset)
    ensures var acked := UpTo(ps, offset); chunk == NewestChunk(acked) && wl == NewestWl(acked) && n == |acked|
  {
  }

  lemma RetainStep(ps: seq<Pending>, i: nat, offset: nat, kept: seq<Pending>, chunk: Option<nat>, wl: nat, n: nat)
    requires i < |ps| && Retained(ps[..i], offset, kept, chunk, wl, n)
    ensures var p, next := ps[i], ps[..i + 1];
            if p.end <= offset then Retained(next, offset, kept, MaxOption(p.chunk, chunk), Max(wl, p.wl), n + 1)
            else Retained(next, offset, kept + [p], chunk, wl, n)
  {
    assert Front(ps[..i + 1]) == ps[..i];
    assert Front(UpTo(ps[..i], offset) + [ps[i]]) == UpTo(ps[..i], offset);
  }

  lemma {:induction false} SpliceStops(tracked: map<Id, Tracked>, frames: seq<Frame>, i: nat)
    requires i <= |frames| && FeedModel.Splice(tracked, frames[..i]).failed
    ensures FeedModel.Splice(tracked, frames) == FeedModel.Splice(tracked, frames[..i])
  {
    if i < |frames| {
      assert Front(frames)[..i] == frames[..i];
      SpliceStops(tracked, Front(frames), i);
    } else {
      assert frames[..i] == frames;
    }
  }

  lemma {:induction false} DrainStops(s: FeedModel.State, rs: seq<Report>, i: nat)
    requires i <= |rs| && FeedModel.Drain(s, rs[..i]).failed
    ensures FeedModel.Drain(s, rs) == FeedModel.Drain(s, rs[..i])
  {
    if i < |rs| {
      assert Front(rs)[..i] == rs[..i];
      DrainStops(s, Front(rs), i);
    } else {
      assert rs[..i] == rs;
    }
  }
}
