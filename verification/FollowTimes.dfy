/**
 * What a followed file's bytes are worth in the store (src/follow.rs,
 * src/import.rs): every byte is kept with a time, its line's own stamp or the
 * one before it. Nothing here knows how a file is read.
 */
module FollowTimes {
  import opened Common
  import opened EntryModel

  type Stamp = seq<byte> -> Option<nat>

  /** A byte as stored. */
  datatype Mark = Mark(b: byte, ts: nat)

  function Tag(bytes: seq<byte>, ts: nat): (ms: seq<Mark>)
    ensures |ms| == |bytes|
    ensures forall i :: 0 <= i < |bytes| ==> ms[i] == Mark(bytes[i], ts)
  {
    seq(|bytes|, i requires 0 <= i < |bytes| => Mark(bytes[i], ts))
  }

  function Unmarked(ms: seq<Mark>): (bytes: seq<byte>)
    ensures |bytes| == |ms|
    ensures forall i :: 0 <= i < |ms| ==> bytes[i] == ms[i].b
  {
    seq(|ms|, i requires 0 <= i < |ms| => ms[i].b)
  }

  /** The length of the first line, its newline included. */
  function LineLen(s: seq<byte>): (n: nat)
    requires s != []
    ensures 0 < n <= |s| && NEWLINE !in s[..n - 1]
    ensures n < |s| ==> s[n - 1] == NEWLINE
  {
    if s[0] == NEWLINE || |s| == 1 then 1
    else
      var n := 1 + LineLen(s[1..]);
      assert s[..n - 1] == [s[0]] + s[1..][..n - 2];
      n
  }

  predicate OneLine(l: seq<byte>) {
    l != [] && NEWLINE !in Front(l)
  }

  /** Nothing of `x` is an unfinished line. */
  predicate Whole(x: seq<byte>) {
    x == [] || Last(x) == NEWLINE
  }

  lemma FirstLineIs(l: seq<byte>, z: seq<byte>)
    requires OneLine(l) && (z == [] || Last(l) == NEWLINE)
    ensures LineLen(l + z) == |l|
  {
    var n := LineLen(l + z);
    assert forall i :: 0 <= i < |l| - 1 ==> (l + z)[i] == Front(l)[i];
    assert forall i :: 0 <= i < n - 1 ==> (l + z)[i] in (l + z)[..n - 1];
    assert z != [] ==> (l + z)[|l| - 1] == NEWLINE;
  }

  function OrElse(a: Option<nat>, b: nat): nat {
    if a.Some? then a.value else b
  }

  /** The time in force after `x`, having been `carry` before it. */
  function Carry(stamp: Stamp, x: seq<byte>, carry: nat): nat {
    if x == [] then carry
    else
      var n := LineLen(x);
      Carry(stamp, x[n..], OrElse(stamp(Head(x[..n])), carry))
  }

  /** Each line under its own stamp, or the one in force before it. */
  function Timed(stamp: Stamp, x: seq<byte>, carry: nat): seq<Mark> {
    if x == [] then []
    else
      var n := LineLen(x);
      var t := OrElse(stamp(Head(x[..n])), carry);
      Tag(x[..n], t) + Timed(stamp, x[n..], t)
  }

  lemma UnmarkedTag(bytes: seq<byte>, ts: nat, more: seq<Mark>)
    ensures Unmarked(Tag(bytes, ts) + more) == bytes + Unmarked(more)
  {
  }

  lemma TimedFirst(stamp: Stamp, x: seq<byte>, carry: nat, n: nat)
    requires x != [] && n == LineLen(x)
    ensures x == x[..n] + x[n..]
    ensures var t := OrElse(stamp(Head(x[..n])), carry);
            Timed(stamp, x, carry) == Tag(x[..n], t) + Timed(stamp, x[n..], t)
  {
    hide Tag, Head, OrElse;
  }

  /** Every byte once, in order. */
  lemma {:induction false} TimedKeepsBytes(stamp: Stamp, x: seq<byte>, carry: nat)
    ensures Unmarked(Timed(stamp, x, carry)) == x
  {
    if x != [] {
      TimedFirst(stamp, x, carry, LineLen(x));
      hide Timed, Tag, Unmarked, LineLen, Head, OrElse;
      var n := LineLen(x);
      var t := OrElse(stamp(Head(x[..n])), carry);
      TimedKeepsBytes(stamp, x[n..], t);
      UnmarkedTag(x[..n], t, Timed(stamp, x[n..], t));
    }
  }

  function FirstStamp(stamp: Stamp, x: seq<byte>): Option<nat> {
    if x == [] then None
    else
      var n := LineLen(x);
      var t := stamp(Head(x[..n]));
      if t.Some? then t else FirstStamp(stamp, x[n..])
  }

  /** A line, then whatever follows it. */
  lemma {:induction false} LineThen(stamp: Stamp, l: seq<byte>, z: seq<byte>, carry: nat)
    requires OneLine(l) && (z == [] || Last(l) == NEWLINE)
    ensures var t := OrElse(stamp(Head(l)), carry);
            && Timed(stamp, l + z, carry) == Tag(l, t) + Timed(stamp, z, t)
            && Carry(stamp, l + z, carry) == Carry(stamp, z, t)
    ensures FirstStamp(stamp, l + z) == if stamp(Head(l)).Some? then stamp(Head(l)) else FirstStamp(stamp, z)
  {
    FirstLineIs(l, z);
    assert (l + z)[..|l|] == l && (l + z)[|l|..] == z;
  }

  lemma FirstLine(y: seq<byte>, n: nat)
    requires y != [] && n == LineLen(y)
    ensures y == y[..n] + y[n..] && OneLine(y[..n]) && (y[n..] == [] || Last(y[..n]) == NEWLINE)
    ensures Whole(y) ==> Last(y[..n]) == NEWLINE && Whole(y[n..])
  {
    assert Front(y[..n]) == y[..n - 1];
  }

  /** Finished lines, then whatever follows. */
  lemma {:induction false} WholeThen(stamp: Stamp, y: seq<byte>, z: seq<byte>, carry: nat)
    requires Whole(y)
    ensures Timed(stamp, y + z, carry) == Timed(stamp, y, carry) + Timed(stamp, z, Carry(stamp, y, carry))
    ensures Carry(stamp, y + z, carry) == Carry(stamp, z, Carry(stamp, y, carry))
    ensures FirstStamp(stamp, y + z)
         == if FirstStamp(stamp, y).Some? then FirstStamp(stamp, y) else FirstStamp(stamp, z)
    decreases |y|
  {
    if y == [] {
      assert y + z == z;
    } else {
      hide Timed, Carry, FirstStamp, Whole, OneLine, Head, OrElse, LineLen;
      var n := LineLen(y);
      FirstLine(y, n);
      WholeThen(stamp, y[n..], z, OrElse(stamp(Head(y[..n])), carry));
      WholeThenStep(stamp, y, y[..n], y[n..], z, carry);
    }
  }

  lemma {:induction false} WholeThenStep(stamp: Stamp, y: seq<byte>, l: seq<byte>, r: seq<byte>, z: seq<byte>, carry: nat)
    requires y == l + r && OneLine(l) && Last(l) == NEWLINE
    requires var t := OrElse(stamp(Head(l)), carry);
             && Timed(stamp, r + z, t) == Timed(stamp, r, t) + Timed(stamp, z, Carry(stamp, r, t))
             && Carry(stamp, r + z, t) == Carry(stamp, z, Carry(stamp, r, t))
    requires FirstStamp(stamp, r + z)
          == if FirstStamp(stamp, r).Some? then FirstStamp(stamp, r) else FirstStamp(stamp, z)
    ensures Timed(stamp, y + z, carry) == Timed(stamp, y, carry) + Timed(stamp, z, Carry(stamp, y, carry))
    ensures Carry(stamp, y + z, carry) == Carry(stamp, z, Carry(stamp, y, carry))
    ensures FirstStamp(stamp, y + z)
         == if FirstStamp(stamp, y).Some? then FirstStamp(stamp, y) else FirstStamp(stamp, z)
  {
    hide Timed, Carry, FirstStamp, OneLine, Head, OrElse;
    var t := OrElse(stamp(Head(l)), carry);
    Assoc(l, r, z);
    LineThen(stamp, l, r, carry);
    LineThen(stamp, l, r + z, carry);
    Assoc(Tag(l, t), Timed(stamp, r, t), Timed(stamp, z, Carry(stamp, r, t)));
  }

  lemma OneLineIs(stamp: Stamp, l: seq<byte>, carry: nat)
    requires OneLine(l)
    ensures Timed(stamp, l, carry) == Tag(l, OrElse(stamp(Head(l)), carry))
    ensures Carry(stamp, l, carry) == OrElse(stamp(Head(l)), carry)
    ensures FirstStamp(stamp, l) == stamp(Head(l))
  {
    assert l + [] == l;
    LineThen(stamp, l, [], carry);
  }

  lemma UnstampedFirst(stamp: Stamp, l: seq<byte>, r: seq<byte>, carry: nat)
    requires OneLine(l) && (r == [] || Last(l) == NEWLINE) && FirstStamp(stamp, l + r) == None
    ensures stamp(Head(l)) == None && FirstStamp(stamp, r) == None
    ensures Timed(stamp, l + r, carry) == Tag(l, carry) + Timed(stamp, r, carry)
    ensures Carry(stamp, l + r, carry) == Carry(stamp, r, carry)
  {
    hide Timed, Carry, FirstStamp;
    LineThen(stamp, l, r, carry);
  }

  lemma UnstampedStep(stamp: Stamp, x: seq<byte>, l: seq<byte>, r: seq<byte>, carry: nat)
    requires x == l + r && Timed(stamp, x, carry) == Tag(l, carry) + Timed(stamp, r, carry)
    requires Timed(stamp, r, carry) == Tag(r, carry)
    ensures Timed(stamp, x, carry) == Tag(x, carry)
  {
    hide Timed;
  }

  /** With no stamp anywhere, everything takes the time carried in. */
  lemma {:induction false} UnstampedIs(stamp: Stamp, x: seq<byte>, carry: nat)
    requires FirstStamp(stamp, x) == None
    ensures Timed(stamp, x, carry) == Tag(x, carry) && Carry(stamp, x, carry) == carry
  {
    if x != [] {
      var n := LineLen(x);
      hide Timed, Carry, FirstStamp, LineLen, Whole, OneLine, Head, OrElse;
      FirstLine(x, n);
      UnstampedFirst(stamp, x[..n], x[n..], carry);
      UnstampedIs(stamp, x[n..], carry);
      UnstampedStep(stamp, x, x[..n], x[n..], carry);
    }
  }

  lemma {:induction false} CarryIsLast(stamp: Stamp, x: seq<byte>, carry: nat)
    requires x != []
    ensures |Timed(stamp, x, carry)| == |x| && Last(Timed(stamp, x, carry)).ts == Carry(stamp, x, carry)
  {
    var n := LineLen(x);
    TimedFirst(stamp, x, carry, n);
    var t := OrElse(stamp(Head(x[..n])), carry);
    TimedKeepsBytes(stamp, x, carry);
    if x[n..] != [] {
      CarryIsLast(stamp, x[n..], t);
    } else {
      assert Timed(stamp, x[n..], t) == [];
    }
  }

  /**
   * Every byte of a line has the line's own stamp, if it is stamped, by its
   * first 256 bytes; else the time of the byte before the line, or what was
   * carried in where there is none.
   */
  lemma EachLineIsTimed(stamp: Stamp, y: seq<byte>, l: seq<byte>, z: seq<byte>, carry: nat, i: nat)
    requires Whole(y) && OneLine(l) && (z == [] || Last(l) == NEWLINE)
    requires |y| <= i < |y| + |l|
    ensures var ms, own := Timed(stamp, y + (l + z), carry), stamp(if |l| <= 256 then l else l[..256]);
            |ms| == |y| + |l| + |z|
            && ms[i].ts == if own.Some? then own.value else if y == [] then carry else ms[|y| - 1].ts
  {
    hide Timed, Carry, Head, Whole, OneLine, FirstStamp, LineLen, Tag;
    var c := Carry(stamp, y, carry);
    var t := OrElse(stamp(Head(l)), c);
    HeadIs(l);
    TimedLength(stamp, y, carry);
    TimedLength(stamp, z, t);
    WholeThen(stamp, y, l + z, carry);
    LineThen(stamp, l, z, c);
    InMiddle(Timed(stamp, y, carry), Tag(l, t), Timed(stamp, z, t), i);
    if y == [] {
      NothingCarried(stamp, carry);
    } else {
      CarryIsLast(stamp, y, carry);
    }
  }

  lemma NothingCarried(stamp: Stamp, carry: nat)
    ensures Carry(stamp, [], carry) == carry
  {
  }

  lemma TimedLength(stamp: Stamp, x: seq<byte>, carry: nat)
    ensures |Timed(stamp, x, carry)| == |x|
  {
    TimedKeepsBytes(stamp, x, carry);
    hide Timed;
  }

  lemma InMiddle(a: seq<Mark>, b: seq<Mark>, c: seq<Mark>, i: nat)
    requires |a| <= i < |a| + |b|
    ensures |a + (b + c)| == |a| + |b| + |c| && (a + (b + c))[i] == b[i - |a|]
    ensures a != [] ==> (a + (b + c))[|a| - 1] == Last(a)
  {
  }

  // ----------------------------------------------------- a line cut in parts

  /** Where the unfinished line of `x` begins. */
  function BodyLen(x: seq<byte>): (n: nat)
    ensures n <= |x| && Whole(x[..n]) && NEWLINE !in x[n..]
  {
    if Whole(x) then
      assert x[..|x|] == x;
      |x|
    else
      var n := BodyLen(Front(x));
      assert Front(x)[..n] == x[..n] && x[n..] == Front(x)[n..] + [Last(x)];
      n
  }

  function OpenLine(x: seq<byte>): (l: seq<byte>)
    ensures NEWLINE !in l
  {
    x[BodyLen(x)..]
  }

  /** Bytes that follow on: a fresh line, or more of a line whose head is already settled. */
  predicate Follows(x: seq<byte>, m: seq<byte>) {
    OneLine(m) && (Whole(x) || |OpenLine(x)| >= HEAD_LEN)
  }

  /** A fresh line is stamped by its head; more of a cut one keeps the time in force. */
  lemma LineFollows(stamp: Stamp, x: seq<byte>, m: seq<byte>, carry: nat)
    requires Follows(x, m)
    ensures var ts := if Whole(x) then stamp(Head(m)) else None;
            var t := OrElse(ts, Carry(stamp, x, carry));
            && Timed(stamp, x + m, carry) == Timed(stamp, x, carry) + Tag(m, t)
            && Carry(stamp, x + m, carry) == t
            && FirstStamp(stamp, x + m) == (if FirstStamp(stamp, x).Some? then FirstStamp(stamp, x) else ts)
  {
    hide Timed, Carry, FirstStamp;
    if Whole(x) {
      WholeThen(stamp, x, m, carry);
      OneLineIs(stamp, m, Carry(stamp, x, carry));
    } else {
      MoreFollows(stamp, x, x[..BodyLen(x)], OpenLine(x), m, carry);
    }
  }

  lemma MoreFollows(stamp: Stamp, x: seq<byte>, y: seq<byte>, o: seq<byte>, m: seq<byte>, carry: nat)
    requires x == y + o && Whole(y) && NEWLINE !in o && |o| >= HEAD_LEN && OneLine(m)
    ensures var t := Carry(stamp, x, carry);
            && Timed(stamp, x + m, carry) == Timed(stamp, x, carry) + Tag(m, t)
            && Carry(stamp, x + m, carry) == t && FirstStamp(stamp, x + m) == FirstStamp(stamp, x)
  {
    hide Timed, Carry, FirstStamp, Whole;
    var c := Carry(stamp, y, carry);
    var t := OrElse(stamp(Head(o)), c);
    MoreOfLine(o, m);
    WholeThen(stamp, y, o, carry);
    WholeThen(stamp, y, o + m, carry);
    OneLineIs(stamp, o, c);
    OneLineIs(stamp, o + m, c);
    assert x + m == y + (o + m);
    assert Tag(o + m, t) == Tag(o, t) + Tag(m, t);
    assert Timed(stamp, y, carry) + (Tag(o, t) + Tag(m, t)) == (Timed(stamp, y, carry) + Tag(o, t)) + Tag(m, t);
  }

  lemma MoreOfLine(o: seq<byte>, m: seq<byte>)
    requires NEWLINE !in o && |o| >= HEAD_LEN && OneLine(m)
    ensures OneLine(o) && OneLine(o + m) && Head(o + m) == Head(o)
  {
    assert Front(o + m) == o + Front(m);
    assert o == Front(o) + [Last(o)];
  }

  // ------------------------------------------------------------ a whole file

  /** The lines a file is searched for its first stamp: all but a short unfinished one. */
  function Settled(x: seq<byte>): seq<byte> {
    if |OpenLine(x)| >= LINE_CAP then x else x[..BodyLen(x)]
  }

  /** The time the lines before a file's first stamp take. */
  function Opening(stamp: Stamp, x: seq<byte>, carry: Option<nat>): Option<nat> {
    if carry.Some? then carry else FirstStamp(stamp, Settled(x))
  }

  /** A file that will not grow again: what it leaves in the store, and the time it ends on. */
  datatype Finished = Finished(marks: seq<Mark>, last: nat)

  function Final(stamp: Stamp, x: seq<byte>, carry: Option<nat>, modified: nat): Finished {
    var c := Opening(stamp, x, carry);
    if c.None? then Finished(Tag(x, modified), modified)
    else Finished(Timed(stamp, x, c.value), Carry(stamp, x, c.value))
  }

  /**
   * A finished file whose time is not carried in takes that of its first
   * stamped line for what comes before it; with no stamped line at all, it
   * takes its modification time throughout.
   */
  lemma FinishedIs(stamp: Stamp, x: seq<byte>, carry: Option<nat>, modified: nat)
    ensures var f, first := Final(stamp, x, carry, modified), FirstStamp(stamp, Settled(x));
            && Unmarked(f.marks) == x
            && (carry.Some? ==> f.marks == Timed(stamp, x, carry.value))
            && (carry.None? && first.Some? ==> f.marks == Timed(stamp, x, first.value))
            && (carry.None? && first.None? ==> f.last == modified && forall m :: m in f.marks ==> m.ts == modified)
            && (f.marks != [] ==> f.last == Last(f.marks).ts)
  {
    var c := Opening(stamp, x, carry);
    if c.Some? {
      TimedKeepsBytes(stamp, x, c.value);
      if x != [] {
        CarryIsLast(stamp, x, c.value);
      }
    }
    assert x == [] ==> forall t :: Timed(stamp, x, t) == [];
    hide Timed, Carry, FirstStamp, Settled;
  }

  /** Reading on from a line boundary, or from inside a line already cut, settles the same first stamp. */
  lemma {:induction false} SettledWith(stamp: Stamp, x: seq<byte>, pending: seq<byte>)
    requires NEWLINE !in pending
    requires if Whole(x) then |pending| < LINE_CAP else |OpenLine(x)| >= LINE_CAP
    ensures FirstStamp(stamp, Settled(x + pending)) == FirstStamp(stamp, x)
  {
    OpenLineWith(x, pending);
    if Whole(x) {
      assert OpenLine(x) == [];
      assert (x + pending)[..|x|] == x;
    } else if pending != [] {
      LineFollows(stamp, x, pending, 0);
    } else {
      assert x + pending == x;
    }
  }

  lemma {:induction false} OpenLineWith(x: seq<byte>, p: seq<byte>)
    requires NEWLINE !in p
    ensures BodyLen(x + p) == BodyLen(x) && OpenLine(x + p) == OpenLine(x) + p
  {
    if p == [] {
      assert x + p == x;
    } else {
      assert Front(x + p) == x + Front(p);
      OpenLineWith(x, Front(p));
    }
  }
}
