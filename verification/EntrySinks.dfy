/**
 * The sink as the source writes it: an object whose methods update its fields
 * in place, each proved to move the value as `EntryModel` says.
 */
module EntrySinks {
  import opened Common
  import opened EntryModel

  /** The entry count shared by sibling sinks. */
  class Cell {
    var n: nat

    constructor ()
      ensures n == 0
    {
      n := 0;
    }
  }

  /** The stream several sinks may interleave through; it is passed per call. */
  class Output {
    var records: seq<Record>

    constructor ()
      ensures records == []
    {
      records := [];
    }
  }

  class EntrySink {
    const cfg: Config
    const cell: Cell
    var line: seq<byte>
    var entry: seq<byte>
    var entryTs: Option<nat>
    var entryWin: Window
    var curWin: Window
    var entryChunk: Option<nat>
    var curChunk: Option<nat>
    var entryBegin: nat
    var lineBegin: nat
    var midLine: bool
    var emittedEnd: Option<nat>
    var emitted: nat
    var filteredOut: nat
    var suppressed: nat
    var stamped: nat

    ghost function State(out: Output): Sink
      reads this, cell, out
    {
      Sink(line, lineBegin, midLine, entry, entryTs, Source(entryChunk, entryWin), entryBegin,
           Source(curChunk, curWin), emittedEnd,
           Tally(emitted, filteredOut, suppressed, stamped, cell.n), out.records)
    }

    constructor (cfg: Config, cell: Cell)
      ensures this.cfg == cfg && this.cell == cell
      ensures forall out: Output :: State(out) == New.(tally := Tally(0, 0, 0, 0, cell.n), out := out.records)
    {
      this.cfg := cfg;
      this.cell := cell;
      line, entry, entryTs := [], [], None;
      entryWin, curWin := (0, 0), (0, 0);
      entryChunk, curChunk := None, None;
      entryBegin, lineBegin, midLine := 0, 0, false;
      emittedEnd := None;
      emitted, filteredOut, suppressed, stamped := 0, 0, 0, 0;
    }

    method PushChunk(data: seq<byte>, chunk: Option<nat>, win: Window, base: nat, out: Output)
      modifies this, cell, out
      ensures State(out) == Run(cfg, old(State(out)), PushEvents(data, chunk, win, base))
    {
      ghost var s0 := State(out);
      curWin := win;
      curChunk := chunk;
      if line == [] {
        lineBegin := base;
      }
      assert State(out) == Step(cfg, s0, Begin(chunk, win, base));
      TakeBytes(data, base, out);
      CutLongLine(out);
      RunPush(cfg, s0, data, chunk, win, base);
    }

    method TakeBytes(data: seq<byte>, base: nat, out: Output)
      modifies this, cell, out
      ensures State(out) == RunBytes(cfg, old(State(out)), data, base)
    {
      ghost var s0 := State(out);
      var start := 0;
      for i := 0 to |data|
        invariant 0 <= start <= i
        invariant Holding(State(out), data[start..i]) == RunBytes(cfg, s0, data[..i], base)
      {
        ghost var before := State(out);
        if data[i] == NEWLINE {
          var at := base + i;
          EndLine(data[start..i], data[i], at, out);
          RunNewline(cfg, s0, data, base, start, i, at, before, State(out));
          start := i + 1;
        } else {
          RunNonNewline(cfg, s0, data, base, start, i, before);
        }
      }
      assert data[..|data|] == data;
      line := line + data[start..];
    }

    method CutLongLine(out: Output)
      modifies this, cell, out
      ensures State(out) == CutLong(cfg, old(State(out)))
    {
      while |line| >= LINE_CAP
        invariant CutLong(cfg, State(out)) == CutLong(cfg, old(State(out)))
        decreases |line|
      {
        CutFragment(out);
      }
    }

    /** A newline arrived at `at` (as `b`), after `tail`: the line is whole. */
    method EndLine(tail: seq<byte>, b: byte, at: nat, out: Output)
      requires b == NEWLINE
      modifies this, cell, out
      ensures State(out) == TakeByte(cfg, Holding(old(State(out)), tail), b, at)
      ensures line == []
    {
      line := line + tail + [b];
      var began := lineBegin;
      lineBegin := at + 1;
      var whole := line;
      line := [];
      var continues := midLine;
      midLine := false;
      TakeLineKeepsLine(cfg, State(out), whole, began, continues);
      TakeLine(whole, began, continues, out);
    }

    method CutFragment(out: Output)
      requires |line| >= LINE_CAP
      modifies this, cell, out
      ensures State(out) == CutOnce(cfg, old(State(out)))
      ensures |line| < old(|line|)
    {
      var fragment := line[..LINE_CAP];
      line := line[LINE_CAP..];
      var began := lineBegin;
      lineBegin := lineBegin + |fragment|;
      var continues := midLine;
      midLine := true;
      TakeLineKeepsLine(cfg, State(out), fragment, began, continues);
      TakeLine(fragment, began, continues, out);
    }

    method TakeLine(whole: seq<byte>, began: nat, continues: bool, out: Output)
      modifies this, cell, out
      ensures State(out) == EntryModel.TakeLine(cfg, old(State(out)), whole, began, continues)
    {
      hide EntryModel.CloseEntry, EntryModel.CloseAt, OpenEntry;
      var stamp := if continues then None else cfg.stamp(Head(whole));
      match stamp {
        case Some(t) =>
          TakeStamped(whole, began, t, out);
        case None =>
          TakeUnstamped(whole, began, out);
      }
    }

    /** A stamped line ends the open entry and begins another. */
    method TakeStamped(whole: seq<byte>, began: nat, t: nat, out: Output)
      modifies this, cell, out
      ensures State(out) == OpenEntry(EntryModel.CloseAt(cfg, old(State(out)), began), whole, began, Some(t))
    {
      hide EntryModel.CloseAt;
      CloseAt(began, out);
      entryTs := Some(t);
      entryWin := curWin;
      entryChunk := curChunk;
      entryBegin := began;
      entry := whole;
      stamped := stamped + 1;
    }

    /** An unstamped line joins the open entry, or opens one when there is none or no room. */
    method TakeUnstamped(whole: seq<byte>, began: nat, out: Output)
      modifies this, cell, out
      ensures State(out) == var s := old(State(out));
                            if s.entry != [] && |s.entry| + |whole| <= ENTRY_CAP then s.(entry := s.entry + whole)
                            else OpenEntry(EntryModel.CloseEntry(cfg, s), whole, began, None)
    {
      hide EntryModel.CloseEntry;
      if entry == [] {
        CloseNothing(cfg, State(out));
        entryWin := curWin;
        entryChunk := curChunk;
        entryBegin := began;
        CloseNothing(cfg, State(out));
        assert entry + whole == whole;
      }
      if |entry| + |whole| > ENTRY_CAP {
        CloseEntry(out);
        entryWin := curWin;
        entryChunk := curChunk;
        entryBegin := began;
      }
      entry := entry + whole;
    }

    method CloseAt(end: nat, out: Output)
      modifies this, cell, out
      ensures State(out) == EntryModel.CloseAt(cfg, old(State(out)), end)
    {
      var had := entry != [];
      var before := emitted;
      CloseEntry(out);
      if had && emitted > before {
        emittedEnd := Some(end);
      }
    }

    method CloseEntry(out: Output)
      modifies this, cell, out
      ensures State(out) == EntryModel.CloseEntry(cfg, old(State(out)))
    {
      if entry == [] {
        return;
      }
      var keep := Keep(cfg, entryTs, entry);
      var whole, ts := entry, entryTs;
      entry, entryTs := [], None;
      if !keep {
        filteredOut := filteredOut + 1;
        return;
      }
      if cfg.limit.Some? {
        if cell.n >= cfg.limit.value {
          suppressed := suppressed + 1;
          return;
        }
        cell.n := cell.n + 1;
      }
      emitted := emitted + 1;
      out.records := out.records + [Record(entryBegin, ts, entryChunk, entryWin, whole)];
    }

    method FlushPending(out: Output)
      modifies this, cell, out
      ensures State(out) == Step(cfg, old(State(out)), Flush)
    {
      CloseEntry(out);
    }

    method Discard(out: Output)
      modifies this
      ensures State(out) == EntryModel.DiscardPending(old(State(out)))
    {
      line := [];
      midLine := false;
      entry := [];
      entryTs := None;
    }

    method Finish(out: Output)
      modifies this, cell, out
      ensures State(out) == EntryModel.Finish(cfg, old(State(out)))
    {
      var end := lineBegin + |line|;
      if line != [] {
        var began, whole, continues := lineBegin, line, midLine;
        line := [];
        midLine := false;
        TakeLine(whole, began, continues, out);
      }
      CloseAt(end, out);
    }
  }
}
