/**
 * The receiving end of a replication connection (src/frames.rs,
 * `serve_connection`): one session per stream, kept in a table. What the world
 * answers (a destination that cannot be opened, a store that cannot be
 * written) comes with the frame it answers.
 */
module FramesReceiver {
  import opened Common
  import opened LittleEndian
  import opened FrameModel

  /** The frames a session has taken, its opening one first. */
  type Session = seq<Frame>

  /** A frame and, where taking it goes wrong, why. */
  datatype Arrival = Arrival(framed: Framed, refusal: Option<seq<byte>>)

  datatype Reply = Acceptance(session: Session) | Refusal(reason: seq<byte>) | Ack(session: Session)

  datatype Tagged<+T> = Tagged(stream: u32, value: T)

  /** The table, the sessions finished, what was sent back, and whether the connection has failed. */
  datatype Table = Table(
    open: map<u32, Session>, done: seq<Tagged<Session>>, sent: seq<Tagged<Reply>>, failed: bool)

  const Fresh := Table(map[], [], [], false)

  function Step(t: Table, a: Arrival): Table {
    var id, f := a.framed.stream, a.framed.frame;
    if t.failed then t
    else if f.StreamOpen? then
      if id in t.open then t.(failed := true)
      else if a.refusal.Some? then t.(sent := t.sent + [Tagged(id, Refusal(a.refusal.value))])
      else t.(open := t.open[id := [f]], sent := t.sent + [Tagged(id, Acceptance([f]))])
    else if f.StreamClose? then
      if id !in t.open then t
      else if a.refusal.Some? then t.(failed := true)
      else t.(open := t.open - {id}, done := t.done + [Tagged(id, t.open[id])])
    else if id !in t.open then t
    else if a.refusal.Some? then t.(open := t.open - {id}, sent := t.sent + [Tagged(id, Refusal(a.refusal.value))])
    else
      var session := t.open[id] + [f];
      t.(open := t.open[id := session],
         sent := if f.Chunk? then t.sent + [Tagged(id, Ack(session))] else t.sent)
  }

  function Received(arrivals: seq<Arrival>): Table {
    if arrivals == [] then Fresh else Step(Received(Front(arrivals)), Last(arrivals))
  }

  // ---------------------------------------------------------- the connection

  class Connection {
    var open: map<u32, Session>
    var done: seq<Tagged<Session>>
    var sent: seq<Tagged<Reply>>

    constructor ()
      ensures Table(open, done, sent, false) == Fresh
    {
      open, done, sent := map[], [], [];
    }

    method Send(id: u32, r: Reply)
      modifies this`sent
      ensures sent == old(sent) + [Tagged(id, r)]
    {
      sent := sent + [Tagged(id, r)];
    }

    method Take(a: Arrival) returns (failed: bool)
      modifies this
      ensures Table(open, done, sent, failed) == Step(Table(old(open), old(done), old(sent), false), a)
    {
      var id, f := a.framed.stream, a.framed.frame;
      if f.StreamOpen? {
        if id in open {
          return true;
        }
        match a.refusal {
          case None =>
            Send(id, Acceptance([f]));
            open := open[id := [f]];
          case Some(reason) =>
            Send(id, Refusal(reason));
        }
      } else if f.StreamClose? {
        if id in open {
          if a.refusal.Some? {
            return true;
          }
          done := done + [Tagged(id, open[id])];
          open := open - {id};
        }
      } else if id in open {
        if a.refusal.Some? {
          open := open - {id};
          Send(id, Refusal(a.refusal.value));
          return false;
        }
        open := open[id := open[id] + [f]];
        if f.Chunk? {
          Send(id, Ack(open[id]));
        }
      }
      return false;
    }

    /** Every frame of the connection, then a last answer to each stream left open. */
    method Serve(arrivals: seq<Arrival>) returns (failed: bool)
      requires Table(open, done, sent, false) == Fresh
      modifies this
      ensures failed == Received(arrivals).failed
      ensures !failed ==> open == map[] && forall id ::
                && Of(done, id) == ViewOf(Received(arrivals), id).Ended().done
                && Of(sent, id) == ViewOf(Received(arrivals), id).Ended().replies
    {
      for i := 0 to |arrivals|
        invariant Table(open, done, sent, false) == Received(arrivals[..i])
      {
        assert Front(arrivals[..i + 1]) == arrivals[..i];
        failed := Take(arrivals[i]);
        if failed {
          FailsForGood(arrivals, i + 1);
          return;
        }
      }
      assert arrivals[..|arrivals|] == arrivals;
      hide Received;
      EndAll(Received(arrivals));
      return false;
    }

    /** The connection is over: each stream still open is answered once more and finished. */
    method EndAll(ghost t: Table)
      requires t == Table(open, done, sent, false)
      modifies this
      ensures open == map[]
      ensures forall id :: Of(done, id) == ViewOf(t, id).Ended().done && Of(sent, id) == ViewOf(t, id).Ended().replies
    {
      while open != map[]
        invariant forall id :: Ending(t, Table(open, done, sent, false), id)
        decreases |open|
      {
        assert open.Keys != {};
        var id :| id in open;
        ghost var was := Table(open, done, sent, false);
        Send(id, Ack(open[id]));
        done := done + [Tagged(id, open[id])];
        open := open - {id};
        forall i
          ensures Ending(t, Table(open, done, sent, false), i)
        {
          EndOne(t, was, Table(open, done, sent, false), id, i);
        }
      }
      forall id
        ensures Of(done, id) == ViewOf(t, id).Ended().done && Of(sent, id) == ViewOf(t, id).Ended().replies
      {
        assert Ending(t, Table(open, done, sent, false), id);
      }
    }
  }

  /** Part of the way through ending `t`: a stream is as it was, or ended. */
  predicate Ending(t: Table, u: Table, id: u32) {
    if id in u.open then id in t.open && ViewOf(u, id) == ViewOf(t, id)
    else ViewOf(u, id) == ViewOf(t, id).Ended()
  }

  lemma EndOne(t: Table, u: Table, after: Table, id: u32, i: u32)
    requires id in u.open && Ending(t, u, i)
    requires after == Table(u.open - {id}, u.done + [Tagged(id, u.open[id])],
                            u.sent + [Tagged(id, Ack(u.open[id]))], false)
    ensures Ending(t, after, i)
  {
    OfOne(u.sent, Tagged(id, Ack(u.open[id])), i);
    OfOne(u.done, Tagged(id, u.open[id]), i);
    hide Of;
  }

  lemma {:induction false} FailsForGood(arrivals: seq<Arrival>, n: nat)
    requires n <= |arrivals| && Received(arrivals[..n]).failed
    ensures Received(arrivals).failed
  {
    if n < |arrivals| {
      assert Front(arrivals)[..n] == arrivals[..n];
      FailsForGood(Front(arrivals), n);
    } else {
      assert arrivals[..n] == arrivals;
    }
  }

  // ------------------------------------------------------- one stream's share

  function Of<T>(xs: seq<Tagged<T>>, id: u32): seq<T> {
    if xs == [] then []
    else if Last(xs).stream == id then Of(Front(xs), id) + [Last(xs).value]
    else Of(Front(xs), id)
  }

  lemma OfOne<T>(xs: seq<Tagged<T>>, x: Tagged<T>, id: u32)
    ensures Of(xs + [x], id) == if x.stream == id then Of(xs, id) + [x.value] else Of(xs, id)
  {
    assert Front(xs + [x]) == xs;
  }

  /** Everything the connection holds of one stream and has told its sender. */
  datatype View = View(session: Option<Session>, done: seq<Session>, replies: seq<Reply>)
  {
    /** After the connection's orderly end. */
    function Ended(): View {
      if session.None? then this
      else View(None, done + [session.value], replies + [Ack(session.value)])
    }
  }

  function ViewOf(t: Table, id: u32): View {
    View(if id in t.open then Some(t.open[id]) else None, Of(t.done, id), Of(t.sent, id))
  }

  function Only(arrivals: seq<Arrival>, id: u32): seq<Arrival> {
    if arrivals == [] then []
    else if Last(arrivals).framed.stream == id then Only(Front(arrivals), id) + [Last(arrivals)]
    else Only(Front(arrivals), id)
  }

  lemma OneMore(t: Table, id: u32)
    ensures forall x :: Of(t.sent + [x], id) == if x.stream == id then Of(t.sent, id) + [x.value] else Of(t.sent, id)
    ensures forall x :: Of(t.done + [x], id) == if x.stream == id then Of(t.done, id) + [x.value] else Of(t.done, id)
  {
    forall x
      ensures Of(t.sent + [x], id) == if x.stream == id then Of(t.sent, id) + [x.value] else Of(t.sent, id)
    {
      OfOne(t.sent, x, id);
    }
    forall x
      ensures Of(t.done + [x], id) == if x.stream == id then Of(t.done, id) + [x.value] else Of(t.done, id)
    {
      OfOne(t.done, x, id);
    }
  }

  /** One frame changes nothing of any other stream, refused or failed as it may be. */
  lemma OthersAreUntouched(t: Table, a: Arrival, id: u32)
    requires a.framed.stream != id
    ensures ViewOf(Step(t, a), id) == ViewOf(t, id)
  {
    hide Of;
    OneMore(t, id);
  }

  /** What a frame does to its own stream depends on that stream alone. */
  lemma OwnShareOnly(t: Table, u: Table, a: Arrival)
    requires ViewOf(t, a.framed.stream) == ViewOf(u, a.framed.stream) && !t.failed && !u.failed
    ensures Step(t, a).failed == Step(u, a).failed
    ensures ViewOf(Step(t, a), a.framed.stream) == ViewOf(Step(u, a), a.framed.stream)
  {
    hide Of;
    OneMore(t, a.framed.stream);
    OneMore(u, a.framed.stream);
  }

  lemma FailedStays(t: Table, a: Arrival)
    requires t.failed
    ensures Step(t, a) == t
  {
  }

  /** While the connection stands, each stream is where its own frames alone would have brought it. */
  lemma {:induction false} StreamsDoNotInterfere(arrivals: seq<Arrival>, id: u32)
    requires !Received(arrivals).failed
    ensures !Received(Only(arrivals, id)).failed
    ensures ViewOf(Received(arrivals), id) == ViewOf(Received(Only(arrivals, id)), id)
  {
    if arrivals != [] {
      var f, a := Front(arrivals), Last(arrivals);
      StreamsDoNotInterfere(f, id);
      hide ViewOf;
      if a.framed.stream == id {
        assert Front(Only(f, id) + [a]) == Only(f, id);
        OwnShareOnly(Received(f), Received(Only(f, id)), a);
      } else {
        OthersAreUntouched(Received(f), a, id);
      }
      hide Step;
    }
  }

  /** The connection fails if and only if one of its streams would have failed alone. */
  lemma {:induction false} FailsAloneOrNotAtAll(arrivals: seq<Arrival>)
    ensures Received(arrivals).failed <==> exists id :: Received(Only(arrivals, id)).failed
  {
    hide Step, ViewOf;
    if !Received(arrivals).failed {
      forall id
        ensures !Received(Only(arrivals, id)).failed
      {
        StreamsDoNotInterfere(arrivals, id);
      }
    } else {
      var f, a := Front(arrivals), Last(arrivals);
      var id := a.framed.stream;
      if Received(f).failed {
        FailsAloneOrNotAtAll(f);
        assert exists i :: Received(Only(f, i)).failed;
        var i :| Received(Only(f, i)).failed;
        assert Only(arrivals, i) == Only(f, i) || Front(Only(arrivals, i)) == Only(f, i);
        FailedStays(Received(f), a);
        FailedStays(Received(Only(f, i)), a);
      } else {
        StreamsDoNotInterfere(f, id);
        assert Front(Only(f, id) + [a]) == Only(f, id);
        OwnShareOnly(Received(f), Received(Only(f, id)), a);
        assert Only(arrivals, id) == Only(f, id) + [a] && Last(Only(arrivals, id)) == a;
        assert Received(Only(arrivals, id)).failed;
      }
    }
  }

  // ------------------------------------------------- what a stream is told

  /** What a stream's session has taken by now: its opening, if it was let in, and what it took since. */
  function SessionAfter(was: Option<Session>, a: Arrival): Option<Session> {
    var f := a.framed.frame;
    if f.StreamOpen? then if a.refusal.None? then Some([f]) else was
    else if was.None? || f.StreamClose? || a.refusal.Some? then None
    else Some(was.value + [f])
  }

  /**
   * An opening is answered with what it comes to; a chunk a session took, with
   * an acknowledgement; a frame a session could not take, with why. Nothing
   * else is answered: no close, no unknown frame, nothing without a session.
   */
  function Answer(was: Option<Session>, a: Arrival): seq<Reply> {
    var f := a.framed.frame;
    if f.StreamOpen? then [if a.refusal.Some? then Refusal(a.refusal.value) else Acceptance([f])]
    else if was.None? || f.StreamClose? then []
    else if a.refusal.Some? then [Refusal(a.refusal.value)]
    else if f.Chunk? then [Ack(was.value + [f])]
    else []
  }

  function Finished(was: Option<Session>, a: Arrival): seq<Session> {
    if a.framed.frame.StreamClose? && was.Some? then [was.value] else []
  }

  /** One stream by itself. */
  function Alone(arrivals: seq<Arrival>): View {
    if arrivals == [] then View(None, [], [])
    else
      var v, a := Alone(Front(arrivals)), Last(arrivals);
      View(SessionAfter(v.session, a), v.done + Finished(v.session, a), v.replies + Answer(v.session, a))
  }

  /** What fails a connection: a second opening of an open stream, or a session that cannot be finished. */
  lemma FailsWhen(t: Table, a: Arrival)
    ensures Step(t, a).failed <==>
              || t.failed
              || (a.framed.stream in t.open && (a.framed.frame.StreamOpen?
                                                || (a.framed.frame.StreamClose? && a.refusal.Some?)))
  {
  }

  lemma OneStep(t: Table, a: Arrival)
    requires !Step(t, a).failed
    ensures var id := a.framed.stream;
            var v := ViewOf(t, id);
            ViewOf(Step(t, a), id)
            == View(SessionAfter(v.session, a), v.done + Finished(v.session, a), v.replies + Answer(v.session, a))
  {
    hide Of;
    OneMore(t, a.framed.stream);
    var v := ViewOf(t, a.framed.stream);
    assert v.done + [] == v.done && v.replies + [] == v.replies;
  }

  /** While the connection stands, each stream has been told exactly what its own frames call for, in their order. */
  lemma {:induction false} EachIsAnswered(arrivals: seq<Arrival>, id: u32)
    requires !Received(arrivals).failed
    ensures ViewOf(Received(arrivals), id) == Alone(Only(arrivals, id))
  {
    if arrivals != [] {
      var f, a := Front(arrivals), Last(arrivals);
      FailsWhen(Received(f), a);
      EachIsAnswered(f, id);
      if a.framed.stream == id {
        OneStep(Received(f), a);
        assert Front(Only(f, id) + [a]) == Only(f, id);
      } else {
        OthersAreUntouched(Received(f), a, id);
      }
      hide Step, ViewOf;
    }
  }

  /** The sessions acknowledged to a stream. */
  function Acks(replies: seq<Reply>): seq<Session> {
    if replies == [] then []
    else Acks(Front(replies)) + if Last(replies).Ack? then [Last(replies).session] else []
  }

  lemma AcksOf(replies: seq<Reply>, more: seq<Reply>)
    requires |more| <= 1
    ensures Acks(replies + more) == Acks(replies) + if more != [] && more[0].Ack? then [more[0].session] else []
  {
    if more == [] {
      assert replies + more == replies;
    } else {
      assert Front(replies + more) == replies;
    }
  }

  /** The arrival is a chunk an open stream took. */
  predicate TakesChunk(t: Table, a: Arrival) {
    a.framed.stream in t.open && a.framed.frame.Chunk? && a.refusal.None?
  }

  /**
   * On a connection that stands, a stream is acknowledged exactly as often as
   * it took a chunk, each time with what its session was then.
   */
  lemma EveryChunkIsAcknowledged(arrivals: seq<Arrival>, id: u32)
    requires arrivals != [] && !Received(arrivals).failed
    ensures var t, a := Received(Front(arrivals)), Last(arrivals);
            Acks(Of(Received(arrivals).sent, id)) == Acks(Of(t.sent, id))
            + if a.framed.stream == id && TakesChunk(t, a) then [t.open[id] + [a.framed.frame]] else []
  {
    var t, a := Received(Front(arrivals)), Last(arrivals);
    FailsWhen(t, a);
    if a.framed.stream == id {
      OneStep(t, a);
      AcksOf(Of(t.sent, id), Answer(ViewOf(t, id).session, a));
    } else {
      OthersAreUntouched(t, a, id);
      assert ViewOf(Received(arrivals), id).replies == ViewOf(t, id).replies;
    }
    hide Step, Of, Acks;
    assert Acks(Of(t.sent, id)) + [] == Acks(Of(t.sent, id));
  }

  // --------------------------------------------- two streams, one store

  /*
   * Above, a refusal comes with the frame. One kind is the table's own doing:
   * the file a stream writes is locked for as long as the stream is open.
   * `file` says which file an opening gets as far as locking, none if it is
   * refused before that; `busy` is the reason given when it is locked.
   */

  type Path = string

  type Destination = Frame -> Option<Path>

  ghost predicate Writing(t: Table, file: Destination, path: Path) {
    exists id :: id in t.open && t.open[id] != [] && file(t.open[id][0]) == Some(path)
  }

  /** The opening comes to a file that is being written. */
  ghost predicate Locked(t: Table, a: Arrival, file: Destination) {
    var f := a.framed.frame;
    f.StreamOpen? && file(f).Some? && Writing(t, file, file(f).value)
  }

  ghost function Met(t: Table, a: Arrival, file: Destination, busy: seq<byte>): Arrival {
    if Locked(t, a, file) then a.(refusal := Some(busy)) else a
  }

  ghost function Contended(arrivals: seq<Arrival>, file: Destination, busy: seq<byte>): Table {
    if arrivals == [] then Fresh
    else
      var t := Contended(Front(arrivals), file, busy);
      Step(t, Met(t, Last(arrivals), file, busy))
  }

  /** Another stream's lock decides: the opening is refused for it, and would not have been for that reason. */
  ghost predicate Clashes(t: Table, a: Arrival, file: Destination, busy: seq<byte>) {
    Locked(t, a, file) && a.framed.stream !in t.open && a.refusal != Some(busy)
  }

  /** A stream is where its own frames alone would have brought it, on a connection that stands. */
  ghost predicate Alike(arrivals: seq<Arrival>, id: u32, file: Destination, busy: seq<byte>) {
    && ViewOf(Contended(arrivals, file, busy), id) == ViewOf(Contended(Only(arrivals, id), file, busy), id)
    && !Contended(Only(arrivals, id), file, busy).failed
  }

  /** A second opening of a stream ends the connection, locked or not. */
  lemma LockedOrNot(t: Table, a: Arrival, file: Destination, busy: seq<byte>)
    requires a.framed.stream in t.open
    ensures Step(t, Met(t, a, file, busy)) == Step(t, a)
  {
  }

  lemma {:induction false} AloneHasOwnOnly(arrivals: seq<Arrival>, id: u32, file: Destination, busy: seq<byte>)
    ensures Contended(Only(arrivals, id), file, busy).open.Keys <= {id}
  {
    if arrivals != [] {
      AloneHasOwnOnly(Front(arrivals), id, file, busy);
      if Last(arrivals).framed.stream == id {
        var o := Only(Front(arrivals), id);
        assert Front(o + [Last(arrivals)]) == o;
        hide Met;
      }
    }
  }

  /** Alone, a stream never meets a lock. */
  lemma AloneStep(arrivals: seq<Arrival>, a: Arrival, file: Destination, busy: seq<byte>)
    ensures var o := Only(arrivals, a.framed.stream);
            Contended(o + [a], file, busy) == Step(Contended(o, file, busy), a)
  {
    var id := a.framed.stream;
    var o := Only(arrivals, id);
    var u := Contended(o, file, busy);
    assert Front(o + [a]) == o;
    AloneHasOwnOnly(arrivals, id, file, busy);
    if id in u.open {
      LockedOrNot(u, a, file, busy);
    } else {
      assert u.open.Keys == {};
      assert !Locked(u, a, file);
    }
    hide Step;
  }

  /** Refused for the lock there and not alone, a stream tells by its replies. */
  lemma RefusalsTell(t: Table, u: Table, a: Arrival, busy: seq<byte>)
    requires ViewOf(t, a.framed.stream) == ViewOf(u, a.framed.stream) && !t.failed && !u.failed
    requires a.framed.frame.StreamOpen? && a.framed.stream !in t.open
    ensures var id := a.framed.stream;
            ViewOf(Step(t, a.(refusal := Some(busy))), id) == ViewOf(Step(u, a), id) <==> a.refusal == Some(busy)
    ensures !Step(u, a).failed
  {
    hide Of;
    OneMore(t, a.framed.stream);
    OneMore(u, a.framed.stream);
    var said, told := Of(t.sent, a.framed.stream), ViewOf(Step(u, a), a.framed.stream).replies;
    assert Last(said + [Refusal(busy)]) == Refusal(busy);
    assert told == said + [if a.refusal.Some? then Refusal(a.refusal.value) else Acceptance([a.framed.frame])];
  }

  lemma AlikeStep(arrivals: seq<Arrival>, id: u32, file: Destination, busy: seq<byte>)
    requires arrivals != [] && Alike(Front(arrivals), id, file, busy) && !Contended(arrivals, file, busy).failed
    ensures var t, a := Contended(Front(arrivals), file, busy), Last(arrivals);
            Alike(arrivals, id, file, busy) <==> !(a.framed.stream == id && Clashes(t, a, file, busy))
  {
    var f, a := Front(arrivals), Last(arrivals);
    var t, u := Contended(f, file, busy), Contended(Only(f, id), file, busy);
    if t.failed {
      FailedStays(t, Met(t, a, file, busy));
    }
    if a.framed.stream != id {
      OthersAreUntouched(t, Met(t, a, file, busy), id);
    } else {
      AloneStep(f, a, file, busy);
      OwnStep(t, u, a, file, busy);
    }
    hide Step, ViewOf, Met;
  }

  /** What an arrival does to its own stream, among others and alone. */
  lemma OwnStep(t: Table, u: Table, a: Arrival, file: Destination, busy: seq<byte>)
    requires ViewOf(t, a.framed.stream) == ViewOf(u, a.framed.stream) && !t.failed && !u.failed
    requires !Step(t, Met(t, a, file, busy)).failed
    ensures var id := a.framed.stream;
            ViewOf(Step(t, Met(t, a, file, busy)), id) == ViewOf(Step(u, a), id) && !Step(u, a).failed
            <==> !Clashes(t, a, file, busy)
  {
    if Locked(t, a, file) && a.framed.stream !in t.open {
      RefusalsTell(t, u, a, busy);
    } else {
      if a.framed.stream in t.open {
        LockedOrNot(t, a, file, busy);
      }
      OwnShareOnly(t, u, a);
    }
    hide ViewOf, Locked;
  }

  ghost predicate AlikeThroughout(arrivals: seq<Arrival>, file: Destination, busy: seq<byte>) {
    (forall id :: Alike(arrivals, id, file, busy))
    && (arrivals == [] || AlikeThroughout(Front(arrivals), file, busy))
  }

  /** At no point was an opening refused for another stream's lock. */
  ghost predicate NeverClashes(arrivals: seq<Arrival>, file: Destination, busy: seq<byte>) {
    arrivals == []
    || (NeverClashes(Front(arrivals), file, busy)
        && !Clashes(Contended(Front(arrivals), file, busy), Last(arrivals), file, busy))
  }

  lemma StoodBefore(arrivals: seq<Arrival>, file: Destination, busy: seq<byte>)
    requires arrivals != [] && !Contended(arrivals, file, busy).failed
    ensures !Contended(Front(arrivals), file, busy).failed
  {
    var t := Contended(Front(arrivals), file, busy);
    if t.failed {
      FailedStays(t, Met(t, Last(arrivals), file, busy));
    }
    hide Step, Met;
  }

  /**
   * With the locks: while the connection stands, every stream is at every
   * point where its own frames alone would have brought it, if and only if
   * none was ever opened into a file another of them was writing.
   */
  lemma {:induction false} OnlyLocksInterfere(arrivals: seq<Arrival>, file: Destination, busy: seq<byte>)
    requires !Contended(arrivals, file, busy).failed
    ensures AlikeThroughout(arrivals, file, busy) <==> NeverClashes(arrivals, file, busy)
  {
    if arrivals != [] {
      var f, a := Front(arrivals), Last(arrivals);
      StoodBefore(arrivals, file, busy);
      OnlyLocksInterfere(f, file, busy);
      hide Alike, Clashes, Contended;
      if AlikeThroughout(f, file, busy) {
        var t := Contended(f, file, busy);
        forall id
          ensures Alike(arrivals, id, file, busy) <==> !(a.framed.stream == id && Clashes(t, a, file, busy))
        {
          assert Alike(f, id, file, busy);
          AlikeStep(arrivals, id, file, busy);
        }
        assert Alike(arrivals, a.framed.stream, file, busy) <==> !Clashes(t, a, file, busy);
      }
    }
  }

  /** No two streams are opened into one file. */
  ghost predicate OwnFiles(arrivals: seq<Arrival>, file: Destination) {
    forall a, b ::
      (&& a in arrivals && b in arrivals && a.framed.frame.StreamOpen? && b.framed.frame.StreamOpen?
       && file(a.framed.frame).Some? && file(a.framed.frame) == file(b.framed.frame))
      ==> a.framed.stream == b.framed.stream
  }

  /** Every session began with an opening that arrived for its stream. */
  ghost predicate Begun(t: Table, arrivals: seq<Arrival>) {
    forall id :: id in t.open ==>
      t.open[id] != [] && t.open[id][0].StreamOpen?
      && exists a :: a in arrivals && a.framed == Framed(id, t.open[id][0])
  }

  lemma StepBegun(t: Table, arrivals: seq<Arrival>, a: Arrival, met: Arrival)
    requires Begun(t, arrivals) && met.framed == a.framed
    ensures Begun(Step(t, met), arrivals + [a])
  {
    var u := Step(t, met);
    forall id | id in u.open
      ensures u.open[id] != [] && u.open[id][0].StreamOpen?
      ensures exists b :: b in arrivals + [a] && b.framed == Framed(id, u.open[id][0])
    {
      if id in t.open && u.open[id][0] == t.open[id][0] {
        var b :| b in arrivals && b.framed == Framed(id, t.open[id][0]);
        assert b in arrivals + [a];
      } else {
        assert a in arrivals + [a];
      }
    }
  }

  lemma {:induction false} ContendedBegun(arrivals: seq<Arrival>, file: Destination, busy: seq<byte>)
    ensures Begun(Contended(arrivals, file, busy), arrivals)
  {
    if arrivals != [] {
      var t, a := Contended(Front(arrivals), file, busy), Last(arrivals);
      ContendedBegun(Front(arrivals), file, busy);
      StepBegun(t, Front(arrivals), a, Met(t, a, file, busy));
      assert Front(arrivals) + [a] == arrivals;
      hide Step, Locked;
    }
  }

  lemma {:induction false} OwnFilesNeverClash(arrivals: seq<Arrival>, file: Destination, busy: seq<byte>)
    requires OwnFiles(arrivals, file)
    ensures NeverClashes(arrivals, file, busy)
  {
    if arrivals != [] {
      var f, a := Front(arrivals), Last(arrivals);
      assert forall b :: b in f ==> b in arrivals;
      OwnFilesNeverClash(f, file, busy);
      ContendedBegun(f, file, busy);
    }
  }

  /** So streams that write different files do not interfere. */
  lemma StoresDoNotInterfere(arrivals: seq<Arrival>, file: Destination, busy: seq<byte>)
    requires OwnFiles(arrivals, file) && !Contended(arrivals, file, busy).failed
    ensures AlikeThroughout(arrivals, file, busy)
  {
    OwnFilesNeverClash(arrivals, file, busy);
    OnlyLocksInterfere(arrivals, file, busy);
  }

  lemma FirstOpens(a: Arrival, file: Destination, busy: seq<byte>)
    requires a.framed.frame.StreamOpen? && a.refusal.None?
    ensures var id, f := a.framed.stream, a.framed.frame;
            Contended([a], file, busy) == Table(map[id := [f]], [], [Tagged(id, Acceptance([f]))], false)
  {
    assert Front([a]) == [] && Contended([], file, busy) == Fresh;
    assert !Locked(Fresh, a, file);
    assert Contended([a], file, busy) == Step(Fresh, a);
  }

  lemma SecondIsRefused(first: Arrival, second: Arrival, file: Destination, busy: seq<byte>)
    requires first.framed.frame.StreamOpen? && first.refusal.None? && second.framed.stream != first.framed.stream
    requires second.framed.frame == first.framed.frame && file(first.framed.frame).Some?
    ensures Contended([first, second], file, busy)
         == Step(Contended([first], file, busy), second.(refusal := Some(busy)))
  {
    FirstOpens(first, file, busy);
    assert Front([first, second]) == [first];
    var t := Contended([first], file, busy);
    assert t.open[first.framed.stream][0] == first.framed.frame;
    assert Writing(t, file, file(first.framed.frame).value);
    assert Met(t, second, file, busy) == second.(refusal := Some(busy));
  }

  /** Two streams into one file do: the second is refused, and alone it would not be. */
  lemma SharedStoreInterferes(f: Frame, file: Destination, busy: seq<byte>)
    requires f.StreamOpen? && file(f).Some?
    ensures var first, second := Arrival(Framed(0, f), None), Arrival(Framed(1, f), None);
            && Only([first, second], 1) == [second]
            && ViewOf(Contended([first, second], file, busy), 1) == View(None, [], [Refusal(busy)])
            && ViewOf(Contended([second], file, busy), 1) == View(Some([f]), [], [Acceptance([f])])
  {
    var first, second := Arrival(Framed(0, f), None), Arrival(Framed(1, f), None);
    assert Front([first, second]) == [first] && Front([first]) == [] && Only([first], 1) == [];
    FirstOpens(first, file, busy);
    FirstOpens(second, file, busy);
    SecondIsRefused(first, second, file, busy);
    OneTagged(Tagged(0, Acceptance([f])), 1);
    OneTagged(Tagged(1, Acceptance([f])), 1);
    OfOne([Tagged(0, Acceptance([f]))], Tagged(1, Refusal(busy)), 1);
    hide Of, Contended;
  }

  lemma OneTagged(x: Tagged<Reply>, id: u32)
    ensures Of([x], id) == if x.stream == id then [x.value] else []
    ensures Of<Session>([], id) == []
  {
    assert [] + [x] == [x];
    OfOne([], x, id);
  }
}
