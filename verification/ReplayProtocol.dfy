// Crashes, failed requests and restarts around the candle processor: what the
// one-minute table and the committed offset look like in every reachable state.
module ReplayProtocol {
  import opened Basics
  import opened CandleMaking
  import opened TickLog
  import opened CandleProcessing

  // A live process: the committed offset it started from, the next offset it
  // will be given, and what it holds.
  datatype Reader = Reader(base: nat, position: nat, memory: Memory)

  // An insert that has not taken effect when its process dies, and still may: the
  // candle completed at `position` by a process that started at `base`.
  datatype Stray = Stray(base: nat, position: nat, candle: Candle)

  // `highWater` is a history variable: the longest prefix any process has
  // processed. A record that ends a run counts once its write has taken effect.
  datatype World = World(
    log: Log,
    committed: nat,
    table: Table,
    published: seq<Candle>,
    reader: Option<Reader>,
    strays: seq<Stray>,
    highWater: nat)

  datatype Action =
    | Append(records: Log)
    | Start
    | Crash
    | Deliver(effects: Effects)
    | StrayLands(stray: nat)

  const INITIAL := World([], 0, map[], [], None, [], 0)

  predicate Admissible(symbols: set<string>, r: Option<Tick>) {
    r.Some? && r.value.symbol in symbols
  }

  ghost function Delivered(symbols: set<string>, w: World, p: Reader, e: Effects): World
    requires p.position < |w.log|
  {
    var r := w.log[p.position];
    var h := Handle(symbols, p.memory, w.table, w.committed, w.published, p.position, r, e);
    var closed := Closes(p.memory, r);
    var recorded := Admissible(symbols, r) && (closed.Some? ==> e.writeLands);
    w.(table := h.table, committed := h.committed, published := h.published,
       reader := if h.alive then Some(Reader(p.base, p.position + 1, h.memory)) else None,
       strays := if Admissible(symbols, r) && closed.Some? && !e.writeLands
                 then w.strays + [Stray(p.base, p.position, closed.value)] else w.strays,
       highWater := if recorded && w.highWater <= p.position then p.position + 1 else w.highWater)
  }

  /** One step; an action that is not enabled changes nothing. */
  ghost function Apply(symbols: set<string>, w: World, a: Action): World {
    match a
    case Append(records) => w.(log := w.log + records)
    case Start =>
      if w.reader.None? && w.committed <= |w.log|
      then w.(reader := Some(Reader(w.committed, w.committed, EMPTY_MEMORY))) else w
    case Crash => w.(reader := None)
    case Deliver(e) =>
      if w.reader.Some? && w.reader.value.position < |w.log| && e.Possible()
      then Delivered(symbols, w, w.reader.value, e) else w
    case StrayLands(i) => if i < |w.strays| then Landed(w, w.strays[i]) else w
  }

  ghost function Landed(w: World, s: Stray): World {
    w.(table := InsertNew(w.table, s.candle),
       highWater := if w.highWater == s.position then s.position + 1 else w.highWater)
  }

  ghost function Run(symbols: set<string>, actions: seq<Action>): World {
    if actions == [] then INITIAL
    else Apply(symbols, Run(symbols, actions[..|actions| - 1]), actions[|actions| - 1])
  }

  // --------------------------------------------------------------- invariant

  /** No replay start is before `offset`. */
  ghost predicate NoneBefore(m: Memory, offset: nat) {
    forall s :: s in m.starts ==> offset <= m.starts[s]
  }

  /** Replay from `offset` meets the first tick of every run that is open after `n` records. */
  ghost predicate Safe(log: Log, n: nat, offset: nat)
    requires n <= |log|
  {
    NoneBefore(Fold(log, 0, n), offset)
  }

  ghost predicate ReaderInv(w: World, p: Reader)
    requires w.highWater <= |w.log|
  {
    && p.base <= w.committed <= p.position <= w.highWater
    && p.memory == Fold(w.log, p.base, p.position)
    && NoneBefore(p.memory, w.committed)
  }

  ghost predicate StrayInv(symbols: set<string>, log: Log, highWater: nat, s: Stray)
    requires highWater <= |log|
  {
    && s.base <= s.position <= highWater && s.position < |log|
    && Admissible(symbols, log[s.position])
    && Safe(log, highWater, s.base)
    && Closes(Fold(log, s.base, s.position), log[s.position]) == Some(s.candle)
  }

  ghost predicate Inv(symbols: set<string>, w: World) {
    && w.committed <= w.highWater <= |w.log|
    && w.table == StoredBy(w.log, w.highWater)
    && Safe(w.log, w.highWater, w.committed)
    && (w.reader.Some? ==> ReaderInv(w, w.reader.value))
    && (forall i :: 0 <= i < |w.strays| ==> StrayInv(symbols, w.log, w.highWater, w.strays[i]))
    && (forall i :: 0 <= i < w.highWater ==> Admissible(symbols, w.log[i]))
    && (forall c :: c in w.published ==> KeyOf(c) in w.table)
  }

  // ------------------------------------------------- replays against full reads

  /** How the memory of a replay from `base` relates to that of a reader of the whole log. */
  ghost predicate Tracks(replay: Memory, full: Memory, base: nat) {
    && (forall s :: s in replay.candles ==>
          && s in full.candles && replay.candles[s].startTime == full.candles[s].startTime)
    && (forall s :: s in full.starts && base <= full.starts[s] ==>
          && s in full.candles && s in replay.candles && s in replay.starts
          && replay.starts[s] == full.starts[s] && replay.candles[s] == full.candles[s])
    && (forall s :: s in replay.starts && s in full.starts ==> full.starts[s] <= replay.starts[s])
  }

  lemma {:induction false} ReplayTracks(log: Log, base: nat, n: nat)
    requires base <= n <= |log|
    ensures Tracks(Fold(log, base, n), Fold(log, 0, n), base)
    decreases n
  {
    FoldWellFormed(log, 0, n);
    if base < n {
      ReplayTracks(log, base, n - 1);
      FoldWellFormed(log, base, n - 1);
      FoldWellFormed(log, 0, n - 1);
      TracksStep(Fold(log, base, n - 1), Fold(log, 0, n - 1), base, log[n - 1], n - 1);
    }
  }

  lemma TracksStep(replay: Memory, full: Memory, base: nat, r: Option<Tick>, offset: nat)
    requires WellFormed(replay) && WellFormed(full) && base <= offset
    requires Tracks(replay, full, base)
    requires forall s :: s in replay.starts ==> base <= replay.starts[s] < offset
    requires forall s :: s in full.starts ==> full.starts[s] < offset
    ensures Tracks(Absorb(replay, r, offset), Absorb(full, r, offset), base)
  {
    if r.Some? {
      var t := r.value;
      var replay', full' := Absorb(replay, r, offset), Absorb(full, r, offset);
      assert SameMinute(Lookup(replay, t.symbol), t.timestamp) ==> SameMinute(Lookup(full, t.symbol), t.timestamp);
      assert replay'.candles[t.symbol].startTime == full'.candles[t.symbol].startTime == MinuteStart(t.timestamp);
    }
  }

  /** A replay that started at or before every open run has caught up completely. */
  lemma CaughtUp(log: Log, base: nat, n: nat)
    requires base <= n <= |log| && Safe(log, n, base)
    ensures Fold(log, base, n) == Fold(log, 0, n)
  {
    ReplayTracks(log, base, n);
    FoldWellFormed(log, base, n);
    FoldWellFormed(log, 0, n);
    var replay, full := Fold(log, base, n), Fold(log, 0, n);
    assert replay.starts.Keys == full.starts.Keys;
    assert replay.candles == full.candles && replay.starts == full.starts;
  }

  /** Replay starts only move forward, and new symbols enter at the current offset. */
  lemma {:induction false} StartsAdvance(log: Log, base: nat, n: nat, n': nat)
    requires base <= n <= n' <= |log|
    ensures var m, m' := Fold(log, base, n), Fold(log, base, n');
      && (forall s :: s in m.starts ==> s in m'.starts && m.starts[s] <= m'.starts[s])
      && (forall s :: s in m'.starts && s !in m.starts ==> n <= m'.starts[s])
    decreases n'
  {
    if n < n' {
      StartsAdvance(log, base, n, n' - 1);
      FoldWellFormed(log, base, n' - 1);
    }
  }

  lemma SafeLater(log: Log, n: nat, n': nat, offset: nat)
    requires offset <= n <= n' <= |log| && Safe(log, n, offset)
    ensures Safe(log, n', offset)
  {
    StartsAdvance(log, 0, n, n');
  }

  /** Rows are never removed, so a run closed early in the log keeps its row. */
  lemma {:induction false} RowsStay(log: Log, n: nat, n': nat)
    requires n <= n' <= |log|
    ensures forall key :: key in StoredBy(log, n) ==>
              key in StoredBy(log, n') && StoredBy(log, n')[key] == StoredBy(log, n)[key]
    decreases n'
  {
    if n < n' {
      RowsStay(log, n, n' - 1);
    }
  }

  /** A candle completed inside the prefix already read has its row, even when only a suffix of its run was replayed. */
  lemma ReplayedRowExists(log: Log, base: nat, n: nat, highWater: nat)
    requires base <= n < highWater <= |log|
    requires Closes(Fold(log, base, n), log[n]).Some?
    ensures KeyOf(Closes(Fold(log, base, n), log[n]).value) in StoredBy(log, highWater)
  {
    ReplayTracks(log, base, n);
    FoldWellFormed(log, base, n);
    FoldWellFormed(log, 0, n);
    var c, full := Closes(Fold(log, base, n), log[n]).value, Closes(Fold(log, 0, n), log[n]);
    assert full.Some? && KeyOf(full.value) == KeyOf(c);
    assert KeyOf(c) in StoredBy(log, n + 1);
    RowsStay(log, n + 1, highWater);
  }

  /** The oldest replay start after a boundary is safe for the prefix read so far, even in mid-replay. */
  lemma CheckpointIsSafe(log: Log, base: nat, n: nat, highWater: nat)
    requires base <= n < highWater <= |log| && Safe(log, highWater, base)
    requires Closes(Fold(log, base, n), log[n]).Some?
    ensures Fold(log, base, n + 1).starts != map[]
    ensures Safe(log, highWater, Oldest(Fold(log, base, n + 1).starts))
    ensures Oldest(Fold(log, base, n + 1).starts) <= n
  {
    var m := Fold(log, base, n + 1);
    assert log[n].value.symbol in m.starts && m.starts[log[n].value.symbol] == n by {
      FoldWellFormed(log, base, n);
    }
    CaughtUp(log, base, highWater);
    StartsAdvance(log, base, n + 1, highWater);
    var s :| s in m.starts && m.starts[s] == Oldest(m.starts);
  }

  // ------------------------------------------------------------- preservation

  /** What a record does to the table, in every case: the table stays that of the prefix read so far. */
  lemma TableStep(log: Log, base: nat, n: nat, highWater: nat)
    requires base <= n <= highWater <= |log| && n < |log| && Safe(log, highWater, base)
    ensures var closed := Closes(Fold(log, base, n), log[n]);
      var highWater' := if n == highWater then n + 1 else highWater;
      StoredBy(log, highWater')
      == if closed.None? then StoredBy(log, highWater) else InsertNew(StoredBy(log, highWater), closed.value)
  {
    if n == highWater {
      CaughtUp(log, base, n);
    } else if Closes(Fold(log, base, n), log[n]).Some? {
      ReplayedRowExists(log, base, n, highWater);
    }
  }

  lemma DeliverKeepsTable(symbols: set<string>, w: World, e: Effects)
    requires Inv(symbols, w) && w.reader.Some? && w.reader.value.position < |w.log| && e.Possible()
    ensures var w' := Delivered(symbols, w, w.reader.value, e);
      w'.highWater <= |w.log| && w'.table == StoredBy(w.log, w'.highWater)
  {
    var p := w.reader.value;
    ReaderIsSafe(symbols, w);
    TableStep(w.log, p.base, p.position, w.highWater);
    HandledTable(symbols, w, e);
    HandledMark(symbols, w, e);
  }

  lemma ReaderIsSafe(symbols: set<string>, w: World)
    requires Inv(symbols, w) && w.reader.Some?
    ensures var p := w.reader.value;
      && p.base <= p.position <= w.highWater <= |w.log| && w.table == StoredBy(w.log, w.highWater)
      && p.memory == Fold(w.log, p.base, p.position) && Safe(w.log, w.highWater, p.base)
  {
    SafeEarlier(w.log, w.highWater, w.committed, w.reader.value.base);
  }

  lemma HandledMark(symbols: set<string>, w: World, e: Effects)
    requires w.reader.Some? && w.reader.value.position < |w.log| && e.Possible()
    ensures var p, w' := w.reader.value, Delivered(symbols, w, w.reader.value, e);
      var r := w.log[p.position];
      var recorded := Admissible(symbols, r) && (Closes(p.memory, r).Some? ==> e.writeLands);
      w'.highWater == if recorded && w.highWater <= p.position then p.position + 1 else w.highWater
  {
  }

  /** The only row a record can add is that of the candle it completes. */
  lemma HandledTable(symbols: set<string>, w: World, e: Effects)
    requires w.reader.Some? && w.reader.value.position < |w.log| && e.Possible()
    ensures var p, w' := w.reader.value, Delivered(symbols, w, w.reader.value, e);
      var r := w.log[p.position];
      var closed := Closes(p.memory, r);
      w'.table
      == if Admissible(symbols, r) && closed.Some? && e.writeLands then InsertNew(w.table, closed.value) else w.table
  {
  }

  lemma DeliverKeepsCheckpoint(symbols: set<string>, w: World, e: Effects)
    requires Inv(symbols, w) && w.reader.Some? && w.reader.value.position < |w.log| && e.Possible()
    ensures var w' := Delivered(symbols, w, w.reader.value, e);
      && w'.highWater <= |w.log|
      && w.committed <= w'.committed <= w'.highWater
      && (w'.committed != w.committed ==> w'.committed <= w.reader.value.position)
      && Safe(w.log, w'.highWater, w'.committed)
      && (w'.reader.Some? ==> ReaderInv(w', w'.reader.value))
  {
    var p := w.reader.value;
    FoldWellFormed(w.log, p.base, p.position);
    HandledCheckpoint(symbols, w, e);
    var w' := Delivered(symbols, w, p, e);
    CommitKept(w.log, p.base, p.position, w.committed, w'.committed, w.highWater, w'.highWater);
  }

  /** What a record does to the checkpoint and the memory. */
  lemma HandledCheckpoint(symbols: set<string>, w: World, e: Effects)
    requires w.reader.Some? && w.reader.value.position < |w.log| && e.Possible() && WellFormed(w.reader.value.memory)
    ensures var p, w' := w.reader.value, Delivered(symbols, w, w.reader.value, e);
      var m' := Absorb(p.memory, w.log[p.position], p.position);
      && w.highWater <= w'.highWater <= (if w.highWater <= p.position then p.position + 1 else w.highWater)
      && (w'.committed != w.committed ==>
            && Closes(p.memory, w.log[p.position]).Some? && p.position < w'.highWater
            && m'.starts != map[] && w'.committed == Oldest(m'.starts))
      && (w'.reader.Some? ==> w'.reader.value == Reader(p.base, p.position + 1, m') && p.position < w'.highWater)
      && w'.log == w.log
  {
    var p := w.reader.value;
    var r := w.log[p.position];
    if Admissible(symbols, r) {
      ProcessedAbsorbs(symbols, p.memory, w.table, w.committed, p.position, r.value, e);
      if Closes(p.memory, r).Some? && e.writeReturns {
        SameOldest(symbols, p.memory, w.table, w.committed, p.position, r.value, e);
      }
    }
  }

  lemma CommitKept(log: Log, base: nat, position: nat, committed: nat, committed': nat, highWater: nat, highWater': nat)
    requires base <= committed <= position <= highWater <= highWater' <= |log| && position < |log|
    requires Safe(log, highWater, committed)
    requires NoneBefore(Fold(log, base, position), committed)
    requires committed' != committed ==>
               && Closes(Fold(log, base, position), log[position]).Some? && position < highWater'
               && Fold(log, base, position + 1).starts != map[]
               && committed' == Oldest(Fold(log, base, position + 1).starts)
    ensures committed <= committed' <= highWater' && (committed' != committed ==> committed' <= position)
    ensures Safe(log, highWater', committed')
    ensures NoneBefore(Fold(log, base, position + 1), committed')
  {
    SafeLater(log, highWater, highWater', committed);
    StartsAdvance(log, base, position, position + 1);
    if committed' != committed {
      CheckpointIsSafe(log, base, position, highWater');
      var m' := Fold(log, base, position + 1);
      var s :| s in m'.starts && m'.starts[s] == Oldest(m'.starts);
    }
  }

  /** Once the write has returned, the commit requested is the oldest replay start after the record. */
  lemma SameOldest(symbols: set<string>, m: Memory, table: Table, committed: nat, offset: nat, t: Tick, e: Effects)
    requires WellFormed(m) && t.symbol in symbols && Closes(m, Some(t)).Some? && e.writeReturns && e.Possible()
    ensures Absorb(m, Some(t), offset).starts != map[]
    ensures Processing(symbols, m, table, committed, offset, t, e).committed
            == if e.commitLands then Oldest(Absorb(m, Some(t), offset).starts) else committed
  {
    assert t.symbol in Absorb(m, Some(t), offset).starts;
  }

  lemma DeliverKeepsInv(symbols: set<string>, w: World, e: Effects)
    requires Inv(symbols, w) && w.reader.Some? && w.reader.value.position < |w.log| && e.Possible()
    ensures Inv(symbols, Delivered(symbols, w, w.reader.value, e))
  {
    DeliverKeepsTable(symbols, w, e);
    DeliverKeepsCheckpoint(symbols, w, e);
    DeliverKeepsRest(symbols, w, e);
    DeliverKeepsStrays(symbols, w, e);
  }

  /** A later high-water mark keeps what is known of a stray. */
  lemma StrayLater(symbols: set<string>, log: Log, n: nat, n': nat, s: Stray)
    requires n <= n' <= |log| && StrayInv(symbols, log, n, s)
    ensures StrayInv(symbols, log, n', s)
  {
    SafeLater(log, n, n', s.base);
  }

  lemma DeliverKeepsStrays(symbols: set<string>, w: World, e: Effects)
    requires Inv(symbols, w) && w.reader.Some? && w.reader.value.position < |w.log| && e.Possible()
    ensures var w' := Delivered(symbols, w, w.reader.value, e);
      && w.highWater <= w'.highWater <= |w.log|
      && forall i :: 0 <= i < |w'.strays| ==> StrayInv(symbols, w'.log, w'.highWater, w'.strays[i])
  {
    var p := w.reader.value;
    var w' := Delivered(symbols, w, p, e);
    forall i | 0 <= i < |w'.strays| ensures StrayInv(symbols, w'.log, w'.highWater, w'.strays[i]) {
      if i < |w.strays| {
        StrayLater(symbols, w.log, w.highWater, w'.highWater, w.strays[i]);
      } else {
        SafeEarlier(w.log, w.highWater, w.committed, p.base);
      }
    }
  }

  lemma SafeEarlier(log: Log, n: nat, offset: nat, earlier: nat)
    requires n <= |log| && Safe(log, n, offset) && earlier <= offset
    ensures Safe(log, n, earlier)
  {
  }

  /** An insert that lands late adds nothing below the high-water mark, and the full bar at it. */
  lemma LandingKeepsInv(symbols: set<string>, w: World, i: nat)
    requires Inv(symbols, w) && i < |w.strays|
    ensures Inv(symbols, Landed(w, w.strays[i]))
  {
    var s, w' := w.strays[i], Landed(w, w.strays[i]);
    assert StrayInv(symbols, w.log, w.highWater, s);
    TableStep(w.log, s.base, s.position, w.highWater);
    SafeLater(w.log, w.highWater, w'.highWater, w.committed);
    forall k | 0 <= k < |w'.strays| ensures StrayInv(symbols, w'.log, w'.highWater, w'.strays[k]) {
      StrayLater(symbols, w.log, w.highWater, w'.highWater, w.strays[k]);
    }
  }

  /** Appending to the log changes nothing that is known of a stray. */
  lemma AppendKeepsStray(symbols: set<string>, log: Log, more: Log, highWater: nat, s: Stray)
    requires highWater <= |log| && StrayInv(symbols, log, highWater, s)
    ensures StrayInv(symbols, log + more, highWater, s)
  {
    PrefixDetermines(log, more, 0, highWater);
    PrefixDetermines(log, more, s.base, s.position);
  }

  /** Only a record that can be processed moves the high-water mark, and only a stored candle is published. */
  lemma DeliverKeepsRest(symbols: set<string>, w: World, e: Effects)
    requires Inv(symbols, w) && w.reader.Some? && w.reader.value.position < |w.log| && e.Possible()
    ensures var w' := Delivered(symbols, w, w.reader.value, e);
      && (forall i :: 0 <= i < w'.highWater ==> Admissible(symbols, w.log[i]))
      && (forall c :: c in w'.published ==> KeyOf(c) in w'.table)
  {
    HandledTable(symbols, w, e);
    HandledPublishes(symbols, w, e);
    HandledMark(symbols, w, e);
  }

  lemma HandledPublishes(symbols: set<string>, w: World, e: Effects)
    requires w.reader.Some? && w.reader.value.position < |w.log| && e.Possible()
    ensures var p, w' := w.reader.value, Delivered(symbols, w, w.reader.value, e);
      var closed := Closes(p.memory, w.log[p.position]);
      w'.published == w.published
      || (closed.Some? && w'.published == w.published + [closed.value] && KeyOf(closed.value) in w'.table)
  {
  }

  lemma ApplyKeepsInv(symbols: set<string>, w: World, a: Action)
    requires Inv(symbols, w)
    ensures Inv(symbols, Apply(symbols, w, a))
    ensures w.committed <= Apply(symbols, w, a).committed
  {
    match a
    case Append(records) =>
      PrefixDetermines(w.log, records, 0, w.highWater);
      if w.reader.Some? {
        PrefixDetermines(w.log, records, w.reader.value.base, w.reader.value.position);
      }
      forall i | 0 <= i < |w.strays| ensures StrayInv(symbols, w.log + records, w.highWater, w.strays[i]) {
        AppendKeepsStray(symbols, w.log, records, w.highWater, w.strays[i]);
      }
    case Start =>
    case Crash =>
    case Deliver(e) =>
      if w.reader.Some? && w.reader.value.position < |w.log| && e.Possible() {
        DeliverKeepsInv(symbols, w, e);
        DeliverKeepsCheckpoint(symbols, w, e);
      }
    case StrayLands(i) =>
      if i < |w.strays| {
        LandingKeepsInv(symbols, w, i);
      }
  }

  lemma {:induction false} ReachableInv(symbols: set<string>, actions: seq<Action>)
    ensures Inv(symbols, Run(symbols, actions))
    decreases |actions|
  {
    if actions != [] {
      ReachableInv(symbols, actions[..|actions| - 1]);
      ApplyKeepsInv(symbols, Run(symbols, actions[..|actions| - 1]), actions[|actions| - 1]);
    }
  }

  // ------------------------------------------------------------- main results

  /**
   * Whatever crashes, rejections and restarts have happened, the table is the
   * one an undisturbed reader of the high-water prefix would have stored: one
   * row per symbol and minute, holding the bar of the first closed run.
   */
  lemma ReplayRefinesCrashFreeRun(symbols: set<string>, actions: seq<Action>)
    ensures var w := Run(symbols, actions);
      && w.highWater <= |w.log|
      && w.table == StoredBy(w.log, w.highWater)
      && RowsAreFirstRuns(w.log, w.highWater, w.table)
      && RunsHaveRows(w.log, w.highWater, w.table)
  {
    ReachableInv(symbols, actions);
    var w := Run(symbols, actions);
    StoredIsFirstRuns(w.log, w.highWater);
  }

  /** The committed offset is at or before the first tick of every open run of the high-water prefix. */
  lemma CheckpointSafety(symbols: set<string>, actions: seq<Action>)
    ensures var w := Run(symbols, actions);
      && w.highWater <= |w.log|
      && forall s, i: nat :: i < w.highWater && OpensRun(w.log, s, i) && OneMinute(w.log, s, i, w.highWater) ==>
             w.committed <= i
  {
    ReachableInv(symbols, actions);
    var w := Run(symbols, actions);
    var n := w.highWater;
    forall s, i: nat | i < n && OpensRun(w.log, s, i) && OneMinute(w.log, s, i, n) ensures w.committed <= i {
      FoldHoldsOpenRuns(w.log, n, s);
      var start := Fold(w.log, 0, n).starts[s];
      if start < i {
        NoOpeningInsideRun(w.log, s, start, i, n);
      }
    }
  }

  /** A process that has reached the high-water mark holds exactly what a crash-free reader holds there. */
  lemma CatchUp(symbols: set<string>, actions: seq<Action>)
    ensures var w := Run(symbols, actions);
      w.reader.Some? && w.reader.value.position == w.highWater ==>
        && w.highWater <= |w.log|
        && w.reader.value.memory == Fold(w.log, 0, w.highWater)
  {
    ReachableInv(symbols, actions);
    var w := Run(symbols, actions);
    if w.reader.Some? && w.reader.value.position == w.highWater {
      CaughtUp(w.log, w.reader.value.base, w.highWater);
    }
  }

  /** Below the high-water mark every completed candle, truncated or not, already has its row. */
  lemma TruncatedReplayHarmless(symbols: set<string>, actions: seq<Action>)
    ensures var w := Run(symbols, actions);
      w.reader.Some? && w.reader.value.position < w.highWater ==>
        && w.highWater <= |w.log|
        && var closed := Closes(w.reader.value.memory, w.log[w.reader.value.position]);
           closed.Some? ==> InsertNew(w.table, closed.value) == w.table && KeyOf(closed.value) in w.table
  {
    ReachableInv(symbols, actions);
    var w := Run(symbols, actions);
    if w.reader.Some? && w.reader.value.position < w.highWater {
      var p := w.reader.value;
      if Closes(p.memory, w.log[p.position]).Some? {
        ReplayedRowExists(w.log, p.base, p.position, w.highWater);
      }
    }
  }

  /** Committed offsets never decrease over a run. */
  lemma {:induction false} CheckpointMonotone(symbols: set<string>, actions: seq<Action>, more: seq<Action>)
    ensures Run(symbols, actions).committed <= Run(symbols, actions + more).committed
    decreases |more|
  {
    if more == [] {
      assert actions + more == actions;
    } else {
      StepMonotone(symbols, actions, more[0]);
      CheckpointMonotone(symbols, actions + [more[0]], more[1..]);
      assert actions + more == actions + [more[0]] + more[1..];
    }
  }

  lemma StepMonotone(symbols: set<string>, actions: seq<Action>, a: Action)
    ensures Run(symbols, actions).committed <= Run(symbols, actions + [a]).committed
  {
    ReachableInv(symbols, actions);
    RunOneMore(symbols, actions, a);
    ApplyKeepsInv(symbols, Run(symbols, actions), a);
  }

  lemma RunOneMore(symbols: set<string>, actions: seq<Action>, a: Action)
    ensures Run(symbols, actions + [a]) == Apply(symbols, Run(symbols, actions), a)
  {
    assert (actions + [a])[..|actions|] == actions;
  }

  /** A delivery never commits beyond the record it handles. */
  lemma CheckpointNotAhead(symbols: set<string>, actions: seq<Action>, e: Effects)
    requires var w := Run(symbols, actions); w.reader.Some? && w.reader.value.position < |w.log| && e.Possible()
    ensures var w, w' := Run(symbols, actions), Run(symbols, actions + [Deliver(e)]);
      w'.committed != w.committed ==> w'.committed <= w.reader.value.position
  {
    ReachableInv(symbols, actions);
    RunOneMore(symbols, actions, Deliver(e));
    DeliverKeepsCheckpoint(symbols, Run(symbols, actions), e);
  }

  /** A candle is announced only after its row is in the table. */
  lemma {:induction false} AnnouncedIsDurable(symbols: set<string>, actions: seq<Action>, c: Candle)
    requires c in Run(symbols, actions).published
    ensures KeyOf(c) in Run(symbols, actions).table
  {
    ReachableInv(symbols, actions);
  }

  /** The record is handled without a failure: it is admissible, and a candle it completes is stored and committed. */
  predicate HandledWell(symbols: set<string>, r: Option<Tick>, closed: Option<Candle>, e: Effects) {
    Admissible(symbols, r) && (closed.Some? ==> e.writeReturns && e.commitReturns)
  }

  /**
   * What a delivery leaves behind: it publishes exactly the candle that the record
   * completes, once it is stored and committed, if Redis takes it; it commits
   * exactly when such a candle is stored, and then the oldest replay start; and the
   * process goes on exactly if nothing failed.
   */
  lemma DeliveryLeaves(symbols: set<string>, actions: seq<Action>, e: Effects)
    requires var w := Run(symbols, actions); w.reader.Some? && w.reader.value.position < |w.log| && e.Possible()
    ensures var w, w' := Run(symbols, actions), Run(symbols, actions + [Deliver(e)]);
      var p := w.reader.value;
      var r := w.log[p.position];
      var closed := Closes(p.memory, r);
      && w'.published
         == (if HandledWell(symbols, r, closed, e) && closed.Some? && e.publishLands
             then w.published + [closed.value] else w.published)
      && (if Admissible(symbols, r) && closed.Some? && e.writeReturns && e.commitLands
          then IsOldest(Absorb(p.memory, r, p.position).starts, w'.committed) else w'.committed == w.committed)
      && (w'.reader.Some? <==> HandledWell(symbols, r, closed, e))
      && (w'.reader.Some? ==> w'.reader.value == Reader(p.base, p.position + 1, Absorb(p.memory, r, p.position)))
  {
    ReachableInv(symbols, actions);
    RunOneMore(symbols, actions, Deliver(e));
    var w := Run(symbols, actions);
    FoldWellFormed(w.log, w.reader.value.base, w.reader.value.position);
    DeliveredLeaves(symbols, w, e);
  }

  lemma DeliveredLeaves(symbols: set<string>, w: World, e: Effects)
    requires w.reader.Some? && w.reader.value.position < |w.log| && e.Possible() && WellFormed(w.reader.value.memory)
    ensures var w', p := Delivered(symbols, w, w.reader.value, e), w.reader.value;
      var r := w.log[p.position];
      var closed := Closes(p.memory, r);
      && w'.published
         == (if HandledWell(symbols, r, closed, e) && closed.Some? && e.publishLands
             then w.published + [closed.value] else w.published)
      && (if Admissible(symbols, r) && closed.Some? && e.writeReturns && e.commitLands
          then IsOldest(Absorb(p.memory, r, p.position).starts, w'.committed) else w'.committed == w.committed)
      && (w'.reader.Some? <==> HandledWell(symbols, r, closed, e))
      && (w'.reader.Some? ==> w'.reader.value == Reader(p.base, p.position + 1, Absorb(p.memory, r, p.position)))
  {
    var p := w.reader.value;
    var r := w.log[p.position];
    HandledCheckpoint(symbols, w, e);
    if Admissible(symbols, r) && Closes(p.memory, r).Some? && e.writeReturns {
      SameOldest(symbols, p.memory, w.table, w.committed, p.position, r.value, e);
    }
  }

  /** No run gets past a record that the handler rejects: neither the table nor the checkpoint ever covers it. */
  lemma RejectedRecordBlocks(symbols: set<string>, actions: seq<Action>, i: nat)
    requires i < |Run(symbols, actions).log| && !Admissible(symbols, Run(symbols, actions).log[i])
    ensures Run(symbols, actions).highWater <= i && Run(symbols, actions).committed <= i
    ensures Run(symbols, actions).reader.Some? ==> Run(symbols, actions).reader.value.position <= i
  {
    ReachableInv(symbols, actions);
  }

  // A at 60 s, B at 60 s, A at 61 s, then A at 120 s, which ends A's minute.
  const SPLIT_MINUTE: Log := [
    Some(Tick("A", 1.0, 60.0)), Some(Tick("B", 7.0, 60.0)), Some(Tick("A", 5.0, 61.0)), Some(Tick("A", 2.0, 120.0))]

  /**
   * Truncated candles do occur, so the harmlessness above depends on inserts
   * that skip present keys: here the commit made at offset 3 is offset 1, inside
   * the run just stored, and the replay rebuilds a candle that differs from the row.
   */
  lemma TruncatedCandlesOccur()
    ensures Fold(SPLIT_MINUTE, 0, 4).starts == map["A" := 3, "B" := 1]
    ensures Fold(SPLIT_MINUTE, 0, 4).starts != map[] && Oldest(Fold(SPLIT_MINUTE, 0, 4).starts) == 1
    ensures Key(60, "A") in StoredBy(SPLIT_MINUTE, 4)
    ensures StoredBy(SPLIT_MINUTE, 4)[Key(60, "A")] == Candle("A", 60, 1.0, 5.0, 1.0, 5.0, 0.0)
    ensures Closes(Fold(SPLIT_MINUTE, 1, 3), SPLIT_MINUTE[3]) == Some(Candle("A", 60, 5.0, 5.0, 5.0, 5.0, 0.0))
  {
    var log := SPLIT_MINUTE;
    assert MinuteStart(60.0) == 60 && MinuteStart(61.0) == 60 && MinuteStart(120.0) == 120;
    var a1 := Candle("A", 60, 1.0, 1.0, 1.0, 1.0, 0.0);
    var a3 := Candle("A", 60, 1.0, 5.0, 1.0, 5.0, 0.0);
    var b := Candle("B", 60, 7.0, 7.0, 7.0, 7.0, 0.0);
    assert Fold(log, 0, 0) == EMPTY_MEMORY;
    assert Fold(log, 0, 1) == Memory(map["A" := a1], map["A" := 0]);
    assert Fold(log, 0, 2) == Memory(map["A" := a1, "B" := b], map["A" := 0, "B" := 1]);
    assert Fold(log, 0, 3) == Memory(map["A" := a3, "B" := b], map["A" := 0, "B" := 1]);
    var starts: map<string, nat> := map["A" := 3, "B" := 1];
    assert Fold(log, 0, 4).starts == starts;
    assert starts["B"] == 1 && IsOldest(starts, 1);
    assert Closes(Fold(log, 0, 3), log[3]) == Some(a3);
    assert StoredBy(log, 0) == map[] && StoredBy(log, 1) == map[];
    assert StoredBy(log, 2) == map[] && StoredBy(log, 3) == map[];
    assert Fold(log, 1, 1) == EMPTY_MEMORY;
    assert Fold(log, 1, 2) == Memory(map["B" := b], map["B" := 1]);
    assert Fold(log, 1, 3).candles["A"] == Candle("A", 60, 5.0, 5.0, 5.0, 5.0, 0.0);
  }

  // ---------------------------------------------------------------- recovery

  const UNDISTURBED := Effects(true, true, true, true, true)

  ghost predicate AllAdmissible(symbols: set<string>, log: Log) {
    forall i :: 0 <= i < |log| ==> Admissible(symbols, log[i])
  }

  function Deliveries(n: nat): seq<Action> {
    seq(n, _ => Deliver(UNDISTURBED))
  }

  lemma DeliveryAdvances(symbols: set<string>, actions: seq<Action>)
    requires var w := Run(symbols, actions);
      w.reader.Some? && w.reader.value.position < |w.log| && AllAdmissible(symbols, w.log)
    ensures var w, w' := Run(symbols, actions), Run(symbols, actions + [Deliver(UNDISTURBED)]);
      w'.log == w.log && w'.reader.Some? && w'.reader.value.position == w.reader.value.position + 1
  {
    RunOneMore(symbols, actions, Deliver(UNDISTURBED));
  }

  /** After `actions` a process is at `position` of `log`. */
  ghost predicate At(symbols: set<string>, actions: seq<Action>, log: Log, position: nat) {
    var w := Run(symbols, actions);
    w.log == log && w.reader.Some? && w.reader.value.position == position
  }

  lemma DeliverOnce(symbols: set<string>, actions: seq<Action>, log: Log, position: nat)
    requires At(symbols, actions, log, position) && position < |log| && AllAdmissible(symbols, log)
    ensures At(symbols, actions + [Deliver(UNDISTURBED)], log, position + 1)
  {
    DeliveryAdvances(symbols, actions);
  }

  lemma {:induction false} DeliveriesReachEnd(symbols: set<string>, actions: seq<Action>, log: Log,
                                              position: nat, n: nat)
    requires At(symbols, actions, log, position) && position + n <= |log| && AllAdmissible(symbols, log)
    ensures At(symbols, actions + Deliveries(n), log, position + n)
    decreases n
  {
    if n == 0 {
      assert actions + Deliveries(n) == actions;
    } else {
      DeliveriesReachEnd(symbols, actions, log, position, n - 1);
      assert actions + Deliveries(n) == actions + Deliveries(n - 1) + [Deliver(UNDISTURBED)];
      DeliverOnce(symbols, actions + Deliveries(n - 1), log, position + n - 1);
    }
  }

  lemma RunTwoMore(symbols: set<string>, actions: seq<Action>, a: Action, b: Action)
    ensures Run(symbols, actions + [a] + [b]) == Apply(symbols, Apply(symbols, Run(symbols, actions), a), b)
  {
    RunOneMore(symbols, actions, a);
    RunOneMore(symbols, actions + [a], b);
  }

  lemma RestartApplied(symbols: set<string>, w: World)
    requires w.committed <= |w.log|
    ensures Apply(symbols, Apply(symbols, w, Crash), Start)
            == w.(reader := Some(Reader(w.committed, w.committed, EMPTY_MEMORY)))
  {
  }

  lemma RestartedState(symbols: set<string>, actions: seq<Action>)
    ensures var w := Run(symbols, actions);
      && w.committed <= |w.log|
      && Run(symbols, actions + [Crash] + [Start]) == w.(reader := Some(Reader(w.committed, w.committed, EMPTY_MEMORY)))
  {
    ReachableInv(symbols, actions);
    RunTwoMore(symbols, actions, Crash, Start);
    RestartApplied(symbols, Run(symbols, actions));
  }

  /**
   * Recovery: after any run at all, one more process that is left alone until
   * the end of the log makes the table that of a crash-free run over the whole log.
   */
  lemma UndisturbedProcessRecovers(symbols: set<string>, actions: seq<Action>)
    requires AllAdmissible(symbols, Run(symbols, actions).log)
    ensures var w := Run(symbols, actions);
      && w.committed <= |w.log|
      && var w' := Run(symbols, actions + [Crash] + [Start] + Deliveries(|w.log| - w.committed));
         w'.log == w.log && w'.table == StoredBy(w.log, |w.log|)
  {
    RestartedState(symbols, actions);
    var w := Run(symbols, actions);
    RestartedReaches(symbols, w, actions + [Crash] + [Start], |w.log| - w.committed);
  }

  lemma RestartedReaches(symbols: set<string>, w: World, restarted: seq<Action>, n: nat)
    requires w.committed + n == |w.log| && AllAdmissible(symbols, w.log)
    requires Run(symbols, restarted) == w.(reader := Some(Reader(w.committed, w.committed, EMPTY_MEMORY)))
    ensures var w' := Run(symbols, restarted + Deliveries(n)); w'.log == w.log && w'.table == StoredBy(w.log, |w.log|)
  {
    DeliveriesReachEnd(symbols, restarted, w.log, w.committed, n);
    ReachableInv(symbols, restarted + Deliveries(n));
    EndOfLog(symbols, Run(symbols, restarted + Deliveries(n)));
  }

  lemma EndOfLog(symbols: set<string>, w: World)
    requires Inv(symbols, w) && w.reader.Some? && w.reader.value.position == |w.log|
    ensures w.table == StoredBy(w.log, |w.log|)
  {
  }
}
