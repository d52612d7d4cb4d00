/**
 * The counted re-sync (src/follow.rs, `catch_up`): a file the store already
 * holds part of is read again from its start, and each line the store has is
 * skipped as often as the store has it. Lines are told apart by their content,
 * which is what a hash without collisions amounts to.
 *
 * The store is not empty, so the time of its last byte is there for unstamped
 * lines to inherit.
 */
module Resync {
  import opened Common
  import opened EntryModel
  import opened FollowTimes

  type Line = seq<byte>

  /** A line without its newline: what the store's lines were counted by. */
  function Key(line: Line): seq<byte> {
    if line != [] && Last(line) == NEWLINE then Front(line) else line
  }

  type Counts = map<seq<byte>, nat>

  function CountOf(counts: Counts, key: seq<byte>): nat {
    if key in counts then counts[key] else 0
  }

  /** The store's lines over the stretch the file covers, and the time that stretch ends on. */
  datatype Overlap = Overlap(counts: Counts, until: nat)

  /** `last` is the store's last time; lines before `head` are what retention dropped. */
  datatype Setup = Setup(stamp: Stamp, last: nat, head: Option<nat>, overlap: Option<Overlap>)

  /** A line as it goes to the store. */
  datatype Added = Added(line: Line, ts: nat)

  // ------------------------------------------- which lines are which, by position

  /** The time in force at the last of `lines`. */
  function InForce(s: Setup, lines: seq<Line>): nat {
    if lines == [] then s.last else OrElse(s.stamp(Head(Last(lines))), InForce(s, Front(lines)))
  }

  /** The last of `lines` is older than the store's head. */
  predicate BeforeHead(s: Setup, lines: seq<Line>)
    requires lines != []
  {
    s.head.Some? && InForce(s, lines) < s.head.value
  }

  /** A line newer than the overlap has been reached. */
  predicate Past(s: Setup, lines: seq<Line>) {
    || s.overlap.None?
    || (lines != [] && (Past(s, Front(lines))
                        || (!BeforeHead(s, lines) && InForce(s, lines) > s.overlap.value.until)))
  }

  /** How often the overlap holds a line. */
  function Occurs(s: Setup, lines: seq<Line>, key: seq<byte>): nat {
    if lines == [] then 0
    else
      Occurs(s, Front(lines), key)
        + if !Past(s, lines) && !BeforeHead(s, lines) && Key(Last(lines)) == key then 1 else 0
  }

  function Has(s: Setup, key: seq<byte>): nat {
    if s.overlap.Some? then CountOf(s.overlap.value.counts, key) else 0
  }

  /** The last of `lines` is one the store has: fewer like it came before than the store holds. */
  predicate Known(s: Setup, lines: seq<Line>)
    requires lines != []
  {
    !BeforeHead(s, lines) && !Past(s, lines) && Occurs(s, Front(lines), Key(Last(lines))) < Has(s, Key(Last(lines)))
  }

  /** What a re-sync ought to add: every line not before the head and not known, in order. */
  function Wanted(s: Setup, lines: seq<Line>): seq<Added> {
    if lines == [] then []
    else if BeforeHead(s, lines) || Known(s, lines) then Wanted(s, Front(lines))
    else Wanted(s, Front(lines)) + [Added(Last(lines), InForce(s, lines))]
  }

  // ----------------------------------------- what that is, place by place

  /** The stamp of a line, by the first 256 bytes of it. */
  function StampOf(s: Setup, line: Line): Option<nat> {
    s.stamp(if |line| <= 256 then line else line[..256])
  }

  /** The stamp of the last stamped line up to place `i`, or the store's last time where there is none. */
  predicate TimeAt(s: Setup, lines: seq<Line>, i: nat, t: nat)
    requires i < |lines|
  {
    || (t == s.last && forall j :: 0 <= j <= i ==> StampOf(s, lines[j]).None?)
    || exists j :: 0 <= j <= i && LastStamped(s, lines, j, i) && StampOf(s, lines[j]).value == t
  }

  predicate LastStamped(s: Setup, lines: seq<Line>, j: nat, i: nat)
    requires j <= i < |lines|
  {
    StampOf(s, lines[j]).Some? && forall k :: j < k <= i ==> StampOf(s, lines[k]).None?
  }

  lemma {:induction false} TimeInForce(s: Setup, lines: seq<Line>)
    requires lines != []
    ensures TimeAt(s, lines, |lines| - 1, InForce(s, lines))
  {
    var n: nat := |lines| - 1;
    HeadIs(Last(lines));
    assert StampOf(s, lines[n]) == s.stamp(Head(Last(lines)));
    if StampOf(s, lines[n]).Some? {
      assert LastStamped(s, lines, n, n);
    } else if n > 0 {
      var f := Front(lines);
      TimeInForce(s, f);
      if j :| 0 <= j <= n - 1 && LastStamped(s, f, j, n - 1) && StampOf(s, f[j]).value == InForce(s, f) {
        assert LastStamped(s, lines, j, n);
      }
    } else {
      assert Front(lines) == [] && InForce(s, []) == s.last;
      assert InForce(s, lines) == s.last;
    }
  }

  /** There is one time at each place. */
  lemma TimeIsOne(s: Setup, lines: seq<Line>, i: nat, t: nat, u: nat)
    requires i < |lines| && TimeAt(s, lines, i, t) && TimeAt(s, lines, i, u)
    ensures t == u
  {
  }

  lemma TimeSoFar(s: Setup, lines: seq<Line>, n: nat, i: nat, t: nat)
    requires i < n <= |lines|
    ensures TimeAt(s, lines[..n], i, t) <==> TimeAt(s, lines, i, t)
  {
    if j :| 0 <= j <= i && LastStamped(s, lines, j, i) && StampOf(s, lines[j]).value == t {
      assert LastStamped(s, lines[..n], j, i);
    }
    if j :| 0 <= j <= i && LastStamped(s, lines[..n], j, i) && StampOf(s, lines[..n][j]).value == t {
      assert LastStamped(s, lines, j, i);
    }
  }

  /** The line at place `i` is older than what the store still holds. */
  ghost predicate Older(s: Setup, lines: seq<Line>, i: nat)
    requires i < |lines|
  {
    s.head.Some? && exists t: nat :: TimeAt(s, lines, i, t) && t < s.head.value
  }

  /** The line at place `i` is one of the store's stretch no more: it is not older, and its time is past it. */
  ghost predicate IsNewer(s: Setup, lines: seq<Line>, i: nat)
    requires i < |lines|
  {
    s.overlap.Some? && !Older(s, lines, i) && exists t: nat :: TimeAt(s, lines, i, t) && t > s.overlap.value.until
  }

  lemma SameSoFar(s: Setup, lines: seq<Line>, n: nat, i: nat)
    requires i < n <= |lines|
    ensures Older(s, lines[..n], i) == Older(s, lines, i) && IsNewer(s, lines[..n], i) == IsNewer(s, lines, i)
  {
    forall t: nat
      ensures TimeAt(s, lines[..n], i, t) <==> TimeAt(s, lines, i, t)
    {
      TimeSoFar(s, lines, n, i, t);
    }
    hide TimeAt;
  }

  lemma BeforeHeadIs(s: Setup, lines: seq<Line>)
    requires lines != []
    ensures BeforeHead(s, lines) <==> Older(s, lines, |lines| - 1)
    ensures s.overlap.Some? ==>
              (!BeforeHead(s, lines) && InForce(s, lines) > s.overlap.value.until <==> IsNewer(s, lines, |lines| - 1))
  {
    var n: nat := |lines| - 1;
    TimeInForce(s, lines);
    forall t: nat | TimeAt(s, lines, n, t)
      ensures t == InForce(s, lines)
    {
      TimeIsOne(s, lines, n, t, InForce(s, lines));
    }
    hide TimeAt, InForce;
  }

  /** The overlap is over from the first line that is newer. */
  ghost predicate Over(s: Setup, lines: seq<Line>, n: nat)
    requires n <= |lines|
  {
    s.overlap.None? || exists i :: 0 <= i < n && IsNewer(s, lines, i)
  }

  lemma {:induction false} OverlapEnds(s: Setup, lines: seq<Line>)
    ensures Past(s, lines) <==> Over(s, lines, |lines|)
  {
    if lines != [] && s.overlap.Some? {
      var f := Front(lines);
      OverlapEnds(s, f);
      BeforeHeadIs(s, lines);
      forall i | 0 <= i < |f|
        ensures IsNewer(s, f, i) == IsNewer(s, lines, i)
      {
        SameSoFar(s, lines, |f|, i);
      }
      hide IsNewer, BeforeHead, InForce;
      assert IsNewer(s, lines, |lines| - 1) ==> Over(s, lines, |lines|);
    }
  }

  /** The line at place `i` is in the overlap. */
  ghost predicate Within(s: Setup, lines: seq<Line>, i: nat)
    requires i < |lines|
  {
    !Older(s, lines, i) && !Over(s, lines, i + 1)
  }

  /** A line is told by what it says without the newline that ends it, if one does. */
  lemma KeyIs(line: Line)
    ensures Key(line + [NEWLINE]) == line
    ensures line == [] || line[|line| - 1] != NEWLINE ==> Key(line) == line
  {
    assert Front(line + [NEWLINE]) == line;
  }

  /** The places before `n` of lines of the overlap that say the same. */
  ghost function Alike(s: Setup, lines: seq<Line>, n: nat, key: seq<byte>): set<nat>
    requires n <= |lines|
  {
    set i: nat | i < n && Within(s, lines, i) && Key(lines[i]) == key
  }

  lemma WithinSoFar(s: Setup, lines: seq<Line>, n: nat, i: nat)
    requires i < n <= |lines|
    ensures Within(s, lines[..n], i) == Within(s, lines, i)
    ensures Over(s, lines[..n], i + 1) == Over(s, lines, i + 1)
  {
    SameSoFar(s, lines, n, i);
    forall j | 0 <= j <= i
      ensures IsNewer(s, lines[..n], j) == IsNewer(s, lines, j)
    {
      SameSoFar(s, lines, n, j);
    }
    hide IsNewer, Older;
  }

  lemma WithinLast(s: Setup, lines: seq<Line>)
    requires lines != []
    ensures Within(s, lines, |lines| - 1) <==> !BeforeHead(s, lines) && !Past(s, lines)
  {
    BeforeHeadIs(s, lines);
    OverlapEnds(s, lines);
    hide Older, Over, BeforeHead, Past;
  }

  lemma AlikeSoFar(s: Setup, lines: seq<Line>, n: nat, p: nat)
    requires p <= n <= |lines|
    ensures forall key :: Alike(s, lines[..n], p, key) == Alike(s, lines, p, key)
  {
    forall i: nat | i < p
      ensures Within(s, lines[..n], i) == Within(s, lines, i)
    {
      WithinSoFar(s, lines, n, i);
    }
    hide Within, Key;
  }

  lemma AlikeLast(s: Setup, lines: seq<Line>, key: seq<byte>)
    requires lines != []
    ensures var n: nat := |lines| - 1;
            |Alike(s, lines, |lines|, key)|
            == |Alike(s, lines, n, key)| + if Within(s, lines, n) && Key(lines[n]) == key then 1 else 0
  {
    var n: nat := |lines| - 1;
    hide Within, Key;
    var was, now := Alike(s, lines, n, key), Alike(s, lines, |lines|, key);
    assert now == if Within(s, lines, n) && Key(lines[n]) == key then was + {n} else was;
  }

  lemma {:induction false} OccursIs(s: Setup, lines: seq<Line>, key: seq<byte>)
    ensures Occurs(s, lines, key) == |Alike(s, lines, |lines|, key)|
  {
    if lines == [] {
      assert Alike(s, lines, 0, key) == {};
    } else {
      OccursIs(s, Front(lines), key);
      AlikeSoFar(s, lines, |lines| - 1, |lines| - 1);
      AlikeLast(s, lines, key);
      WithinLast(s, lines);
      hide Within, Alike, BeforeHead, Past, Key;
    }
  }

  // --------------------------------------------------------------- the loop

  class Resyncer {
    const setup: Setup
    var last: nat
    var counts: Option<Counts>  // none once past the overlap
    var added: seq<Added>

    /** Where the loop stands after `lines`. */
    ghost predicate After(lines: seq<Line>)
      reads this
    {
      && last == InForce(setup, lines) && added == Wanted(setup, lines)
      && (counts.None? <==> Past(setup, lines))
      && (counts.Some? ==> forall key :: CountOf(counts.value, key) == Left(setup, lines, key))
    }

    constructor (setup: Setup)
      ensures After([]) && this.setup == setup
    {
      this.setup := setup;
      last, added := setup.last, [];
      counts := if setup.overlap.Some? then Some(setup.overlap.value.counts) else None;
    }

    method TakeLine(line: Line, ghost before: seq<Line>)
      requires After(before)
      modifies this
      ensures After(before + [line])
    {
      ghost var lines := before + [line];
      assert Front(lines) == before && Last(lines) == line;
      hide Head, Key, Left;
      LeftAfter(setup, before, line);
      assert counts.Some? ==> CountOf(counts.value, Key(line)) == Left(setup, before, Key(line));
      var ts := setup.stamp(Head(line));
      var now := OrElse(ts, last);
      last := now;
      if setup.head.Some? && now < setup.head.value {
        return;
      }
      if counts.Some? {
        var key := Key(line);
        if now > setup.overlap.value.until {
          counts := None;
        } else if key in counts.value && counts.value[key] > 0 {
          ghost var was := counts.value;
          counts := Some(counts.value[key := counts.value[key] - 1]);
          assert CountOf(was, key) == Left(setup, before, key);
          assert forall k :: CountOf(was, k) == Left(setup, before, k);
          return;
        }
      }
      added := added + [Added(line, now)];
    }

    /** The whole file. */
    method TakeAll(lines: seq<Line>)
      requires After([])
      modifies this
      ensures After(lines) && added == Wanted(setup, lines)
    {
      for i := 0 to |lines|
        invariant After(lines[..i])
      {
        assert lines[..i + 1] == lines[..i] + [lines[i]];
        TakeLine(lines[i], lines[..i]);
      }
      assert lines[..|lines|] == lines;
    }
  }

  /** How often the store is still owed a match for. */
  function Left(s: Setup, lines: seq<Line>, key: seq<byte>): nat {
    if Occurs(s, lines, key) <= Has(s, key) then Has(s, key) - Occurs(s, lines, key) else 0
  }

  /** A line of the overlap uses up one match, while there is one. */
  lemma LeftAfter(s: Setup, before: seq<Line>, line: Line)
    ensures var lines := before + [line];
            forall key :: Left(s, lines, key)
              == if Known(s, lines) && key == Key(line) then Left(s, before, key) - 1 else Left(s, before, key)
    ensures var lines := before + [line];
            Known(s, lines) <==> !BeforeHead(s, lines) && !Past(s, lines) && Left(s, before, Key(line)) > 0
  {
    assert Front(before + [line]) == before;
    hide Past, BeforeHead, Key, Has;
  }

  // ------------------------------------------------------------ the theorems

  function KnownOf(s: Setup, lines: seq<Line>, key: seq<byte>): nat {
    if lines == [] then 0
    else KnownOf(s, Front(lines), key) + if Known(s, lines) && Key(Last(lines)) == key then 1 else 0
  }

  /** How often the file holds a line, not counting what retention dropped. */
  function TotalOf(s: Setup, lines: seq<Line>, key: seq<byte>): nat {
    if lines == [] then 0
    else TotalOf(s, Front(lines), key) + if !BeforeHead(s, lines) && Key(Last(lines)) == key then 1 else 0
  }

  function AddedOf(added: seq<Added>, key: seq<byte>): nat {
    if added == [] then 0
    else AddedOf(Front(added), key) + if Key(Last(added).line) == key then 1 else 0
  }

  lemma AddedOfSnoc(added: seq<Added>, a: Added, key: seq<byte>)
    ensures AddedOf(added + [a], key) == AddedOf(added, key) + if Key(a.line) == key then 1 else 0
  {
    assert Front(added + [a]) == added;
  }

  /**
   * Of each line, as many are skipped as the store and the overlap both hold,
   * and every other is added: with what the store has, none is missing.
   */
  lemma {:induction false} NothingIsLost(s: Setup, lines: seq<Line>, key: seq<byte>)
    ensures KnownOf(s, lines, key) == Min(Has(s, key), Occurs(s, lines, key))
    ensures AddedOf(Wanted(s, lines), key) + KnownOf(s, lines, key) == TotalOf(s, lines, key)
    ensures TotalOf(s, lines, key) <= Has(s, key) + AddedOf(Wanted(s, lines), key)
  {
    if lines != [] {
      NothingIsLost(s, Front(lines), key);
      hide BeforeHead, Past, Key, Has, AddedOf;
      AddedOfSnoc(Wanted(s, Front(lines)), Added(Last(lines), InForce(s, lines)), key);
    }
  }

  /** The lines newer than the overlap. */
  function Newer(s: Setup, lines: seq<Line>): seq<Added> {
    if lines == [] then []
    else if Past(s, lines) && !BeforeHead(s, lines) then
      Newer(s, Front(lines)) + [Added(Last(lines), InForce(s, lines))]
    else Newer(s, Front(lines))
  }

  /** From the first newer line on, every line that is not older is added. */
  lemma PastIsAdded(s: Setup, lines: seq<Line>, n: nat, p: nat)
    requires n <= p < |lines| && Over(s, lines, n) && !Older(s, lines, p)
    ensures p in Places(s, lines)
  {
    AddedExactly(s, lines, p);
    hide Older, IsNewer, Key, Has, Alike, Places;
  }

  /** And nothing of those is left out of the newer ones. */
  lemma {:induction false} NewerFromThere(s: Setup, a: seq<Line>, b: seq<Line>)
    requires Past(s, a)
    ensures Past(s, a + b)
    ensures exists rest :: Wanted(s, a + b) == Wanted(s, a) + rest && Newer(s, a + b) == Newer(s, a) + rest
  {
    if b == [] {
      assert a + b == a;
      assert Wanted(s, a + b) == Wanted(s, a) + [] && Newer(s, a + b) == Newer(s, a) + [];
    } else {
      var lines := a + b;
      assert Front(lines) == a + Front(b);
      NewerFromThere(s, a, Front(b));
      var rest :| Wanted(s, a + Front(b)) == Wanted(s, a) + rest && Newer(s, a + Front(b)) == Newer(s, a) + rest;
      var last := [Added(Last(lines), InForce(s, lines))];
      Assoc(Wanted(s, a), rest, last);
      Assoc(Newer(s, a), rest, last);
      var more := if BeforeHead(s, lines) then rest else rest + last;
      assert Wanted(s, lines) == Wanted(s, a) + more && Newer(s, lines) == Newer(s, a) + more;
    }
  }

  /** The overlap and the store agree as far as the file goes. */
  ghost predicate Agree(s: Setup, lines: seq<Line>) {
    forall key :: Occurs(s, lines, key) <= Has(s, key)
  }

  lemma {:induction false} NewerIsWanted(s: Setup, lines: seq<Line>)
    ensures |Newer(s, lines)| <= |Wanted(s, lines)|
    ensures Agree(s, lines) <==> |Newer(s, lines)| == |Wanted(s, lines)|
    ensures Agree(s, lines) ==> Wanted(s, lines) == Newer(s, lines)
  {
    if lines != [] {
      NewerIsWanted(s, Front(lines));
      hide Past, BeforeHead, Key, Has, InForce;
      var key := Key(Last(lines));
      assert forall k :: k != key ==> Occurs(s, lines, k) == Occurs(s, Front(lines), k);
      assert Agree(s, lines) <==> Agree(s, Front(lines)) && Occurs(s, lines, key) <= Has(s, key);
    }
  }

  /** Exactly the newer lines are added if and only if the store has every line of the overlap as often as the file. */
  lemma OnlyTheNewer(s: Setup, lines: seq<Line>)
    ensures Wanted(s, lines) == Newer(s, lines) <==> Agree(s, lines)
  {
    NewerIsWanted(s, lines);
  }

  /** A line the file has once more often than the store is added, though no line of it is newer. */
  lemma OneMoreIsAdded(line: Line, ts: nat)
    ensures var s := Setup(head => None, ts, None, Some(Overlap(map[Key(line) := 1], ts)));
            && !Agree(s, [line, line]) && Newer(s, [line, line]) == []
            && Wanted(s, [line, line]) == [Added(line, ts)]
  {
    var s := Setup(head => None, ts, None, Some(Overlap(map[Key(line) := 1], ts)));
    var key := Key(line);
    assert Front([line, line]) == [line] && Front([line]) == [];
    assert InForce(s, []) == ts && InForce(s, [line]) == ts && InForce(s, [line, line]) == ts;
    assert !Past(s, []) && !Past(s, [line]) && !Past(s, [line, line]);
    hide Past, InForce, Key;
    assert Occurs(s, [], key) == 0 && Occurs(s, [line], key) == 1 && Occurs(s, [line, line], key) == 2;
    assert Newer(s, []) == [] && Newer(s, [line]) == [];
    assert Known(s, [line]) && !Known(s, [line, line]);
    assert Wanted(s, []) == [] && Wanted(s, [line]) == [];
  }

  /** Which lines of the file are added. */
  function Places(s: Setup, lines: seq<Line>): seq<nat> {
    if lines == [] then []
    else if BeforeHead(s, lines) || Known(s, lines) then Places(s, Front(lines))
    else Places(s, Front(lines)) + [|lines| - 1]
  }

  /** `a` is the line at `p`, under the stamp of the last stamped line up to there, or else the store's last time. */
  predicate IsLine(s: Setup, lines: seq<Line>, p: nat, a: Added) {
    p < |lines| && a.line == lines[p] && TimeAt(s, lines, p, a.ts)
  }

  lemma IsLineLonger(s: Setup, lines: seq<Line>, p: nat, a: Added)
    requires lines != [] && IsLine(s, Front(lines), p, a)
    ensures IsLine(s, lines, p, a) && p < |lines| - 1
  {
    TimeSoFar(s, lines, |lines| - 1, p, a.ts);
    hide TimeAt;
  }

  /** They go in the order the file has them, each under its time. */
  lemma {:induction false} OrderIsKept(s: Setup, lines: seq<Line>)
    ensures var ps, out := Places(s, lines), Wanted(s, lines);
            && |ps| == |out|
            && (forall i, j :: 0 <= i < j < |ps| ==> ps[i] < ps[j])
            && (forall i :: 0 <= i < |ps| ==> IsLine(s, lines, ps[i], out[i]))
  {
    if lines != [] {
      var f := Front(lines);
      OrderIsKept(s, f);
      forall i | 0 <= i < |Places(s, f)|
        ensures IsLine(s, lines, Places(s, f)[i], Wanted(s, f)[i]) && Places(s, f)[i] < |lines| - 1
      {
        IsLineLonger(s, lines, Places(s, f)[i], Wanted(s, f)[i]);
      }
      TimeInForce(s, lines);
      hide IsLine, Past, BeforeHead, Key, Has, Known, InForce, TimeAt;
      LastIsLine(s, lines);
    }
  }

  lemma LastIsLine(s: Setup, lines: seq<Line>)
    requires lines != [] && TimeAt(s, lines, |lines| - 1, InForce(s, lines))
    ensures IsLine(s, lines, |lines| - 1, Added(Last(lines), InForce(s, lines)))
  {
    hide TimeAt;
  }

  /**
   * Which lines those are: the line at `p` is added if and only if it is not
   * older than the store's head, and is not in the overlap or comes after as
   * many lines of the overlap that say the same as the store holds.
   */
  lemma {:induction false} AddedExactly(s: Setup, lines: seq<Line>, p: nat)
    ensures p in Places(s, lines) <==>
              && p < |lines| && !Older(s, lines, p)
              && (Within(s, lines, p) ==> |Alike(s, lines, p, Key(lines[p]))| >= Has(s, Key(lines[p])))
  {
    if lines != [] {
      var f, n: nat := Front(lines), |lines| - 1;
      AddedExactly(s, f, p);
      if p < n {
        SameSoFar(s, lines, n, p);
        AlikeSoFar(s, lines, n, p);
        WithinSoFar(s, lines, n, p);
      } else if p == n {
        OccursIs(s, f, Key(lines[n]));
        AlikeSoFar(s, lines, n, n);
        BeforeHeadIs(s, lines);
        OverlapEnds(s, lines);
      }
      hide Older, Within, Alike, Over, BeforeHead, Past, Key, Has, Occurs;
      assert p == n ==> (Within(s, lines, n) <==> !BeforeHead(s, lines) && !Past(s, lines)) by {
        WithinLast(s, lines);
      }
    }
  }
}
