/**
 * Following a file (src/follow.rs): an open file is read as it grows, its
 * complete lines go to the store under their own times, and when the file is
 * replaced it is finished before the new one is looked at. However the reads
 * fall, what the store holds is what `FollowTimes` says the bytes are worth.
 */
module FollowTail {
  import opened Common
  import opened EntryModel
  import opened FollowTimes

  /** How much one read takes. */
  const BUFFER: nat := 256 * 1024

  /** How many lines may wait for a first stamp outside a file that still has them. */
  const DETECT_WINDOW: nat := 1000

  lemma TagConcat(a: seq<byte>, b: seq<byte>, ts: nat)
    ensures Tag(a + b, ts) == Tag(a, ts) + Tag(b, ts)
  {
  }

  /** What `x`, taken so far from a file begun at `from`, has left behind. */
  ghost predicate Reading(stamp: Stamp, x: seq<byte>, carry: Option<nat>, from: nat, before: seq<Mark>,
                          awaiting: Option<nat>, last: Option<nat>, store: seq<Mark>)
  {
    var c := if carry.Some? then carry else FirstStamp(stamp, x);
    if c.None? then awaiting == Some(from) && last == None && store == before
    else awaiting == None && last == Some(Carry(stamp, x, c.value)) && store == before + Timed(stamp, x, c.value)
  }

  /** The next line, or the next part of a line, with the stamp it is given. */
  lemma ReadingStep(stamp: Stamp, x: seq<byte>, m: seq<byte>, carry: Option<nat>, from: nat, before: seq<Mark>,
                    awaiting: Option<nat>, last: Option<nat>, store: seq<Mark>, ts: Option<nat>)
    requires Reading(stamp, x, carry, from, before, awaiting, last, store) && Follows(x, m)
    requires ts == if Whole(x) then stamp(Head(m)) else None
    ensures if awaiting.None? then last.Some? else awaiting == Some(from)
    ensures if awaiting.Some? && ts.None? then
              Reading(stamp, x + m, carry, from, before, awaiting, last, store)
            else
              var t := if ts.Some? then ts.value else last.value;
              var imported := if awaiting.Some? then Tag(x, t) else [];
              Reading(stamp, x + m, carry, from, before, None, Some(t), (store + imported) + Tag(m, t))
  {
    hide Timed, Carry, FirstStamp, Head, Whole;
    LineFollows(stamp, x, m, if carry.Some? then carry.value else 0);
    if awaiting.Some? {
      if ts.Some? {
        LineFollows(stamp, x, m, ts.value);
        UnstampedIs(stamp, x, ts.value);
        Assoc(before, Tag(x, ts.value), Tag(m, ts.value));
      }
    } else {
      var c := if carry.Some? then carry.value else FirstStamp(stamp, x).value;
      LineFollows(stamp, x, m, c);
      Assoc(before, Timed(stamp, x, c), Tag(m, OrElse(ts, last.value)));
      assert store + [] == store;
    }
  }

  class Tail {
    const stamp: Stamp

    // the open file
    var file: seq<byte>
    var offset: nat
    var pending: seq<byte>
    var midLine: bool
    var awaiting: Option<nat>

    // the stamper
    var last: Option<nat>
    var leading: seq<seq<byte>>

    var store: seq<Mark>

    // where this file was taken up, and what was there already
    ghost var from: nat
    ghost var carry: Option<nat>
    ghost var before: seq<Mark>

    /** The file from where it was taken up to `to`. */
    ghost function Part(to: nat): seq<byte>
      reads this
      requires from <= to <= |file|
    {
      file[from..to]
    }

    /** Everything up to `to` has been dealt with. */
    ghost predicate UpTo(to: nat)
      reads this
    {
      && from <= to <= |file| && leading == []
      && Reading(stamp, Part(to), carry, from, before, awaiting, last, store)
    }

    function TakenTo(): int
      reads this
    {
      offset - |pending|
    }

    ghost predicate Valid()
      reads this
    {
      && |pending| < LINE_CAP && InPlace()
    }

    ghost predicate InPlace()
      reads this
    {
      Aligned() && NEWLINE !in pending
    }

    /** What is pending is what was read and not taken yet. */
    ghost predicate Aligned()
      reads this
    {
      && offset <= |file| && from <= TakenTo() && UpTo(TakenTo())
      && pending == file[TakenTo()..offset]
      && midLine == !Whole(Part(TakenTo()))
      && (midLine ==> |OpenLine(Part(TakenTo()))| >= LINE_CAP)
    }

    constructor (stamp: Stamp, file: seq<byte>, from: nat, last: Option<nat>, store: seq<Mark>)
      requires from <= |file|
      ensures Valid() && TakenTo() == from && this.file == file && this.stamp == stamp
      ensures this.from == from && this.carry == last && this.before == store
    {
      this.stamp, this.file, this.offset, this.pending, this.midLine := stamp, file, from, [], false;
      this.last, this.leading, this.store := last, [], store;
      this.awaiting := if last.None? then Some(from) else None;
      this.from, this.carry, this.before := from, last, store;
      new;
      assert Part(from) == [];
      assert store + [] == store;
    }

    /** Lines before the first stamp are held for it, up to a limit. */
    method Feed(line: seq<byte>, ts: Option<nat>) returns (failed: bool)
      modifies this`last, this`leading, this`store
      ensures ts.None? && old(last).None? ==>
                && leading == old(leading) + [line] && last == None && store == old(store)
                && failed == (|leading| > 1000)
      ensures ts.Some? || old(last).Some? ==>
                var t := if ts.Some? then ts.value else old(last).value;
                var held := if ts.Some? then Flatten(old(leading)) else [];
                && !failed && last == Some(t) && store == (old(store) + Tag(held, t)) + Tag(line, t)
                && leading == if ts.Some? then [] else old(leading)
      ensures old(leading) == [] && (ts.Some? || old(last).Some?) ==>
                leading == [] && store == old(store) + Tag(line, if ts.Some? then ts.value else old(last).value)
    {
      failed := false;
      assert forall t :: store + Tag([], t) == store;
      if ts.Some? {
        var i := 0;
        while i < |leading|
          invariant i <= |leading| && leading == old(leading)
          invariant store == old(store) + Tag(Flatten(leading[..i]), ts.value)
        {
          assert Front(leading[..i + 1]) == leading[..i];
          TagConcat(Flatten(leading[..i]), leading[i], ts.value);
          Assoc(old(store), Tag(Flatten(leading[..i]), ts.value), Tag(leading[i], ts.value));
          store := store + Tag(leading[i], ts.value);
          i := i + 1;
        }
        assert leading[..|leading|] == leading;
        leading := [];
        store := store + Tag(line, ts.value);
        last := ts;
      } else if last.Some? {
        assert store + Tag([], last.value) == store;
        store := store + Tag(line, last.value);
      } else {
        leading := leading + [line];
        failed := |leading| > DETECT_WINDOW;
      }
    }

    /** Append `[begin, to)` of the file under one time, a block at a time. */
    method ImportRange(begin: nat, to: nat, ts: nat)
      requires begin <= to <= |file|
      modifies this`store
      ensures store == old(store) + Tag(file[begin..to], ts)
    {
      var at := begin;
      while at < to
        invariant begin <= at <= to
        invariant store == old(store) + Tag(file[begin..at], ts)
      {
        var n := Min(to - at, BUFFER);
        Assoc(old(store), Tag(file[begin..at], ts), Tag(file[at..at + n], ts));
        TagConcat(file[begin..at], file[at..at + n], ts);
        assert file[begin..at] + file[at..at + n] == file[begin..at + n];
        store := store + Tag(file[at..at + n], ts);
        at := at + n;
      }
    }

    method FirstStampArrived(at: nat, ts: nat)
      requires awaiting == Some(from) && from <= at <= |file|
      modifies this`awaiting, this`store
      ensures awaiting == None && store == old(store) + Tag(Part(at), ts)
    {
      var begin := awaiting.value;
      awaiting := None;
      ImportRange(begin, at, ts);
    }

    /** A line at `at`, or a part of one. */
    method TakeLine(line: seq<byte>, ts: Option<nat>, at: nat, ghost to: nat)
      requires UpTo(at) && to == at + |line| && to <= |file| && line == file[at..to]
      requires Follows(Part(at), line) && ts == if Whole(Part(at)) then stamp(Head(line)) else None
      modifies this`awaiting, this`last, this`leading, this`store
      ensures UpTo(to) && (old(awaiting).None? ==> awaiting.None?)
    {
      hide Reading, Head, Whole, Follows, Flatten, Tag, OneLine;
      ReadingStep(stamp, Part(at), line, carry, from, before, awaiting, last, store, ts);
      SlicePlus(file, from, at, to);
      if awaiting.Some? {
        if ts.None? {
          return;
        }
        FirstStampArrived(at, ts.value);
      } else {
        assert store + [] == store;
      }
      var failed := Feed(line, ts);
    }

    /** The lines of a batch, the first of them perhaps the rest of a line already cut. */
    method TakeLines(complete: seq<byte>, at: nat, ghost end: nat)
      requires UpTo(at) && end == at + |complete| && end <= |file| && complete == file[at..end] && Whole(complete)
      requires midLine == !Whole(Part(at)) && (midLine ==> |OpenLine(Part(at))| >= LINE_CAP)
      modifies this`awaiting, this`last, this`leading, this`store
      ensures UpTo(end) && (complete != [] ==> Whole(Part(end)))
    {
      hide Reading, Head, OpenLine, BodyLen, Whole, Follows, OneLine, LineLen;
      var i := 0;
      while i < |complete|
        invariant i <= |complete| && UpTo(at + i)
        invariant i > 0 ==> Whole(Part(at + i))
      {
        var n := LineLen(complete[i..]);
        var pos, to := at + i, at + i + n;
        LineOf(file, at, end, complete, i, n, pos, to);
        var line := complete[i..i + n];
        SlicePlus(file, from, pos, to);
        var ts := if i == 0 && midLine then None else stamp(Head(line));
        LineEnds(Part(pos), line);
        TakeLine(line, ts, pos, to);
        i := i + n;
      }
    }

    /** A line too long to hold goes to the store in parts. */
    method CutFragment()
      requires InPlace() && |pending| >= LINE_CAP
      modifies this`pending, this`midLine, this`awaiting, this`last, this`leading, this`store
      ensures Valid() && pending == []
    {
      hide Reading, Head, BodyLen, OpenLine, Whole, Follows;
      var at, fragment := TakenTo(), pending;
      pending := [];
      var ts := if midLine then None else stamp(Head(fragment));
      SlicePlus(file, from, at, offset);
      CutLine(Part(at), fragment);
      TakeLine(fragment, ts, at, offset);
      midLine := true;
    }

    /** One read of `n` bytes: commit up to the last newline and keep the rest. */
    method Read(n: nat)
      requires Valid() && 0 < n <= |file| - offset
      modifies this`offset, this`pending, this`midLine, this`awaiting, this`last, this`leading, this`store
      ensures Valid() && offset == old(offset) + n
    {
      hide Reading, OpenLine, Whole;
      var at, got := TakenTo(), file[offset..offset + n];
      SlicePlus(file, at, offset, offset + n);
      offset := offset + n;
      pending := pending + got;
      assert TakenTo() == at;
      if NEWLINE in got {
        CommitLines();
      }
      if |pending| >= LINE_CAP {
        CutFragment();
      }
    }

    /** The complete lines of what is pending. */
    method CommitLines()
      requires Aligned() && NEWLINE in pending
      modifies this`pending, this`midLine, this`awaiting, this`last, this`leading, this`store
      ensures InPlace()
    {
      hide Reading, OpenLine, Whole, BodyLen;
      var at, end := TakenTo(), BodyLen(pending);
      ghost var to := at + end;
      BatchOf(file, at, offset, pending, end, to);
      var complete := pending[..end];
      pending := pending[end..];
      TakeLines(complete, at, to);
      midLine := false;
      assert TakenTo() == to;
    }

    /** Read to the end of the file, however much each read returns. */
    method Drain(sizes: seq<nat>)
      requires Valid()
      modifies this`offset, this`pending, this`midLine, this`awaiting, this`last, this`leading, this`store
      ensures Valid() && offset == |file|
    {
      var i := 0;
      while offset < |file|
        invariant Valid()
        decreases |file| - offset
      {
        var n := Min(BUFFER, |file| - offset);
        if i < |sizes| && 0 < sizes[i] < n {
          n := sizes[i];
        }
        Read(n);
        i := i + 1;
      }
    }

    /** The last line of a file that will never grow again. */
    method CommitFragment()
      requires Valid() && offset == |file|
      modifies this`pending, this`midLine, this`awaiting, this`last, this`leading, this`store
      ensures old(awaiting).Some? ==> unchanged(this)
      ensures old(awaiting).None? ==> UpTo(offset) && awaiting.None?
    {
      if pending == [] || awaiting.Some? {
        return;
      }
      hide Reading, Head, OpenLine, BodyLen;
      var at, line, wasMid := TakenTo(), pending, midLine;
      assert line == Front(line) + [Last(line)];
      pending, midLine := [], false;
      var ts := if wasMid then None else stamp(Head(line));
      TakeLine(line, ts, at, offset);
    }

    /** The file in hand, with nothing of it left to read. */
    ghost predicate AtEnd(modified: nat)
      reads this
      requires from <= |file|
    {
      var f := Final(stamp, file[from..], carry, modified);
      store == before + f.marks && last == Some(f.last) && leading == []
    }

    /** Read a file to its end for the last time. */
    method FinishRotated(sizes: seq<nat>, modified: nat)
      requires Valid()
      modifies this`offset, this`pending, this`midLine, this`awaiting, this`last, this`leading, this`store
      ensures AtEnd(modified)
    {
      Drain(sizes);
      if awaiting.Some? {
        ImportUnstamped(modified);
      } else {
        CommitStamped(modified);
      }
    }

    method ImportUnstamped(modified: nat)
      requires Valid() && offset == |file| && awaiting.Some?
      modifies this`awaiting, this`last, this`store
      ensures AtEnd(modified)
    {
      hide Reading, Head, OpenLine, BodyLen, Settled, Final, Whole, Tag;
      SlicePlus(file, from, TakenTo(), offset);
      assert file[from..] == file[from..offset];
      FinalIs(stamp, Part(TakenTo()), pending, carry, modified, from, before, awaiting, last, store);
      var begin := awaiting.value;
      awaiting := None;
      ImportRange(begin, |file|, modified);
      last := Some(modified);
    }

    method CommitStamped(ghost modified: nat)
      requires Valid() && offset == |file| && awaiting.None?
      modifies this`pending, this`midLine, this`awaiting, this`last, this`leading, this`store
      ensures AtEnd(modified)
    {
      hide Reading, Head, OpenLine, BodyLen, Settled, Final, Whole, Tag;
      ghost var x, rest := Part(TakenTo()), pending;
      SlicePlus(file, from, TakenTo(), offset);
      assert file[from..] == file[from..offset];
      FinalIs(stamp, x, rest, carry, modified, from, before, awaiting, last, store);
      CommitFragment();
      FinalTimes(stamp, x, rest, carry, modified, from, before, last, store);
    }

    /** A file is opened to be followed from `at`; with nothing stamped yet its first stamp is waited for. */
    method Open(next: seq<byte>, at: nat)
      requires at <= |next| && leading == []
      modifies this
      ensures Valid() && file == next && from == at && TakenTo() == at
      ensures carry == old(last) && before == old(store)
    {
      file, offset, pending, midLine := next, at, [], false;
      awaiting := if last.None? then Some(at) else None;
      from, carry, before := at, last, store;
      assert Part(at) == [];
      assert store + [] == store;
    }

    /** The path names another file: finish the one in hand, then open that from its start. */
    method Rotate(sizes: seq<nat>, modified: nat, next: seq<byte>)
      requires Valid()
      modifies this
      ensures Valid() && file == next && from == 0 && TakenTo() == 0
      ensures var f := Final(stamp, old(file)[old(from)..], old(carry), modified);
              before == old(before) + f.marks && carry == Some(f.last)
    {
      FinishRotated(sizes, modified);
      hide Final;
      Open(next, 0);
    }

    /** The program being followed writes. */
    method Written(bytes: seq<byte>)
      requires Valid()
      modifies this`file
      ensures Valid() && file == old(file) + bytes && TakenTo() == old(TakenTo())
    {
      ghost var x := Part(TakenTo());
      file := file + bytes;
      assert Part(TakenTo()) == x;
    }

    /** The file in hand, and what was there when it was taken up. */
    ghost function Here(): Position
      reads this
      requires from <= |file|
    {
      Position(before, carry, file[from..])
    }

    method Do(step: Step)
      requires Valid()
      modifies this
      ensures Valid() && from <= |file| && Here() == Moved(stamp, old(Here()), step)
    {
      hide Reading, BodyLen, OpenLine, Final;
      ghost var x := file[from..];
      match step {
        case Produced(bytes) =>
          Written(bytes);
          assert file[from..] == x + bytes;
        case Polled(sizes) =>
          Drain(sizes);
        case Rotated(sizes, modified, next) =>
          Rotate(sizes, modified, next);
          assert file[from..] == next;
      }
    }

    /**
     * Any run: writes, polls and rotations in any order, every read as short
     * as it likes. What is kept of the files that are gone, and what `Valid`
     * says of the one in hand, depend on the bytes and on nothing else.
     */
    method Follow(steps: seq<Step>)
      requires Valid()
      modifies this
      ensures Valid() && from <= |file|
      ensures var h := Lived(old(file[from..]), steps);
              var k := Kept(stamp, old(carry), h.gone);
              file[from..] == h.current && carry == k.carry && before == old(before) + k.marks
      ensures Unmarked(store) == Unmarked(old(before)) + Contents(Lived(old(file[from..]), steps).gone)
                                 + if awaiting.Some? then [] else Part(TakenTo())
    {
      ghost var p := Here();
      for i := 0 to |steps|
        invariant Valid() && from <= |file| && Here() == AllMoved(stamp, p, steps[..i])
      {
        assert Front(steps[..i + 1]) == steps[..i];
        Do(steps[i]);
      }
      assert steps[..|steps|] == steps;
      MovedIsKept(stamp, p, steps);
      ghost var gone := Lived(p.bytes, steps).gone;
      hide AllMoved, Kept, Lived, Reading, OpenLine, BodyLen, Whole;
      KeptKeepsBytes(stamp, p.carry, gone);
      UnmarkedConcat(p.before, Kept(stamp, p.carry, gone).marks);
      ReadingKeepsBytes(stamp, Part(TakenTo()), carry, from, before, awaiting, last, store);
    }
  }

  // ------------------------------------------------------------- whole runs

  datatype Step =
    | Produced(bytes: seq<byte>)
    | Polled(sizes: seq<nat>)
    | Rotated(sizes: seq<nat>, modified: nat, next: seq<byte>)

  /** A file rotated away, with its modification time. */
  datatype Gone = Gone(bytes: seq<byte>, modified: nat)

  /** The files a run leaves: those rotated away, oldest first, and the one at the path. */
  datatype Files = Files(gone: seq<Gone>, current: seq<byte>)

  function Lived(first: seq<byte>, steps: seq<Step>): Files {
    if steps == [] then Files([], first)
    else
      var h := Lived(first, Front(steps));
      match Last(steps)
      case Produced(bytes) => h.(current := h.current + bytes)
      case Polled(_) => h
      case Rotated(_, modified, next) => Files(h.gone + [Gone(h.current, modified)], next)
  }

  datatype Left = Left(marks: seq<Mark>, carry: Option<nat>)

  /** Every file that is gone, in full, each under the time the one before it ended on. */
  function Kept(stamp: Stamp, carry: Option<nat>, gone: seq<Gone>): Left {
    if gone == [] then Left([], carry)
    else
      var k := Kept(stamp, carry, Front(gone));
      var f := Final(stamp, Last(gone).bytes, k.carry, Last(gone).modified);
      Left(k.marks + f.marks, Some(f.last))
  }

  /** A file in hand from where it was taken up, under the time carried to it, after what was there before. */
  datatype Position = Position(before: seq<Mark>, carry: Option<nat>, bytes: seq<byte>)

  function Moved(stamp: Stamp, p: Position, step: Step): Position {
    match step
    case Produced(bytes) => p.(bytes := p.bytes + bytes)
    case Polled(_) => p
    case Rotated(_, modified, next) =>
      var f := Final(stamp, p.bytes, p.carry, modified);
      Position(p.before + f.marks, Some(f.last), next)
  }

  function AllMoved(stamp: Stamp, p: Position, steps: seq<Step>): Position {
    if steps == [] then p else Moved(stamp, AllMoved(stamp, p, Front(steps)), Last(steps))
  }

  lemma {:induction false} MovedIsKept(stamp: Stamp, p: Position, steps: seq<Step>)
    ensures var h := Lived(p.bytes, steps);
            var k := Kept(stamp, p.carry, h.gone);
            AllMoved(stamp, p, steps) == Position(p.before + k.marks, k.carry, h.current)
  {
    if steps == [] {
      assert p.before + [] == p.before;
    } else {
      MovedIsKept(stamp, p, Front(steps));
      if Last(steps).Rotated? {
        var h := Lived(p.bytes, Front(steps));
        var k, modified := Kept(stamp, p.carry, h.gone), Last(steps).modified;
        hide Final;
        KeptLast(stamp, p.carry, h.gone, h.current, modified);
        Assoc(p.before, k.marks, Final(stamp, h.current, k.carry, modified).marks);
      }
    }
  }

  lemma KeptLast(stamp: Stamp, carry: Option<nat>, gone: seq<Gone>, x: seq<byte>, modified: nat)
    ensures var k := Kept(stamp, carry, gone);
            var f := Final(stamp, x, k.carry, modified);
            Kept(stamp, carry, gone + [Gone(x, modified)]) == Left(k.marks + f.marks, Some(f.last))
  {
    assert Front(gone + [Gone(x, modified)]) == gone;
  }

  function Contents(gone: seq<Gone>): seq<byte> {
    if gone == [] then [] else Contents(Front(gone)) + Last(gone).bytes
  }

  lemma UnmarkedConcat(a: seq<Mark>, b: seq<Mark>)
    ensures Unmarked(a + b) == Unmarked(a) + Unmarked(b)
  {
  }

  lemma FinalKeepsBytes(stamp: Stamp, x: seq<byte>, carry: Option<nat>, modified: nat)
    ensures Unmarked(Final(stamp, x, carry, modified).marks) == x
  {
    var c := Opening(stamp, x, carry);
    if c.Some? {
      TimedKeepsBytes(stamp, x, c.value);
    }
  }

  /** Rotation strands nothing: every byte of every file that is gone, once and in order. */
  lemma {:induction false} KeptKeepsBytes(stamp: Stamp, carry: Option<nat>, gone: seq<Gone>)
    ensures Unmarked(Kept(stamp, carry, gone).marks) == Contents(gone)
  {
    if gone != [] {
      var k := Kept(stamp, carry, Front(gone));
      KeptKeepsBytes(stamp, carry, Front(gone));
      hide Final, Unmarked;
      FinalKeepsBytes(stamp, Last(gone).bytes, k.carry, Last(gone).modified);
      UnmarkedConcat(k.marks, Final(stamp, Last(gone).bytes, k.carry, Last(gone).modified).marks);
    }
  }

  /** And of the file in hand, what lies before its unfinished line, once a stamp has arrived. */
  lemma ReadingKeepsBytes(stamp: Stamp, x: seq<byte>, carry: Option<nat>, from: nat, before: seq<Mark>,
                          awaiting: Option<nat>, last: Option<nat>, store: seq<Mark>)
    requires Reading(stamp, x, carry, from, before, awaiting, last, store)
    ensures Unmarked(store) == if awaiting.Some? then Unmarked(before) else Unmarked(before) + x
    ensures awaiting.Some? <==> carry.None? && FirstStamp(stamp, x) == None
  {
    if awaiting.None? {
      var c := if carry.Some? then carry.value else FirstStamp(stamp, x).value;
      TimedKeepsBytes(stamp, x, c);
      UnmarkedConcat(before, Timed(stamp, x, c));
    }
  }

  /** What finishing comes to, for a file read to its end with `rest` unfinished. */
  lemma FinalIs(stamp: Stamp, x: seq<byte>, rest: seq<byte>, carry: Option<nat>, modified: nat, from: nat,
                before: seq<Mark>, awaiting: Option<nat>, last: Option<nat>, store: seq<Mark>)
    requires NEWLINE !in rest && Reading(stamp, x, carry, from, before, awaiting, last, store)
    requires if Whole(x) then |rest| < LINE_CAP else |OpenLine(x)| >= LINE_CAP
    ensures awaiting.Some? ==>
              && Final(stamp, x + rest, carry, modified) == Finished(Tag(x + rest, modified), modified)
              && awaiting == Some(from) && store == before
    ensures awaiting.None? ==> carry.Some? || FirstStamp(stamp, x).Some?
  {
    hide OpenLine, Whole;
    SettledWith(stamp, x, rest);
  }

  lemma FinalTimes(stamp: Stamp, x: seq<byte>, rest: seq<byte>, carry: Option<nat>, modified: nat, from: nat,
                   before: seq<Mark>, last: Option<nat>, store: seq<Mark>)
    requires NEWLINE !in rest && (carry.Some? || FirstStamp(stamp, x).Some?)
    requires Reading(stamp, x + rest, carry, from, before, None, last, store)
    requires if Whole(x) then |rest| < LINE_CAP else |OpenLine(x)| >= LINE_CAP
    ensures var f := Final(stamp, x + rest, carry, modified); store == before + f.marks && last == Some(f.last)
  {
    hide Carry, Timed, FirstStamp;
    SettledWith(stamp, x, rest);
    if rest != [] {
      assert rest == Front(rest) + [Last(rest)];
      LineFollows(stamp, x, rest, 0);
    } else {
      assert x + rest == x;
    }
  }

  /** Up to the last newline, and the rest. */
  lemma BatchOf(file: seq<byte>, at: nat, offset: nat, pending: seq<byte>, end: nat, to: nat)
    requires at <= offset <= |file| && pending == file[at..offset] && NEWLINE in pending
    requires end == BodyLen(pending) && to == at + end
    ensures 0 < end <= |pending| && to <= offset
    ensures pending[..end] == file[at..to] && Whole(pending[..end])
    ensures pending[end..] == file[to..offset] && NEWLINE !in pending[end..]
  {
    assert pending == pending[0..];
  }

  lemma LineEnds(x: seq<byte>, line: seq<byte>)
    requires OneLine(line) && Last(line) == NEWLINE && (!Whole(x) ==> |OpenLine(x)| >= LINE_CAP)
    ensures Follows(x, line) && Whole(x + line)
  {
  }

  lemma CutLine(x: seq<byte>, fragment: seq<byte>)
    requires NEWLINE !in fragment && |fragment| >= LINE_CAP
    ensures OneLine(fragment) && !Whole(x + fragment) && |OpenLine(x + fragment)| >= LINE_CAP
    ensures !Whole(x) && |OpenLine(x)| >= LINE_CAP ==> Follows(x, fragment)
    ensures Whole(x) ==> Follows(x, fragment)
  {
    assert fragment == Front(fragment) + [Last(fragment)];
    OpenLineWith(x, fragment);
  }

  /** The line of a batch that begins at `i`, as a stretch of the file. */
  lemma LineOf(file: seq<byte>, at: nat, end: nat, complete: seq<byte>, i: nat, n: nat, pos: nat, to: nat)
    requires at <= end <= |file| && complete == file[at..end] && i < |complete| && Whole(complete)
    requires n == LineLen(complete[i..]) && pos == at + i && to == pos + n
    ensures i + n <= |complete| && to <= end
    ensures var l := complete[i..i + n]; l == file[pos..to] && OneLine(l) && Last(l) == NEWLINE
  {
    assert complete[i..i + n] == complete[i..][..n];
    assert Front(complete[i..i + n]) == complete[i..][..n - 1];
    SliceSlice(file, at, end, i, i + n, pos, to);
  }
}
