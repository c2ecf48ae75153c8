// The candle processor and its record handler (candle-processor.ts,
// candle-processing.runtime.ts, and the insert of candle.repository.ts).
module CandleProcessing {
  import opened Basics
  import opened CandleMaking
  import opened TickLog

  // What the outside world does to one record. A request may take effect and
  // still fail at the caller; one that returns has taken effect.
  datatype Effects = Effects(
    writeLands: bool,
    writeReturns: bool,
    commitLands: bool,
    commitReturns: bool,
    publishLands: bool)
  {
    predicate Possible() {
      (writeReturns ==> writeLands) && (commitReturns ==> commitLands)
    }
  }

  datatype Failure = UnexpectedSymbol | WriteFailed | CommitFailed

  datatype Outcome = Processed(completed: Option<Candle>) | Rejected(failure: Failure)

  // ----------------------------------------------------------------- specification

  function InsertAll(table: Table, candles: seq<Candle>): Table {
    if candles == [] then table
    else InsertNew(InsertAll(table, candles[..|candles| - 1]), candles[|candles| - 1])
  }

  /** Candle i is the first of its key in the batch. */
  predicate FirstOfKey(candles: seq<Candle>, i: nat) {
    i < |candles| && forall j :: 0 <= j < i ==> KeyOf(candles[j]) != KeyOf(candles[i])
  }

  /** The row of `key` is that of the first candle in the batch with this key, the i-th. */
  predicate HoldsFirst(table: Table, candles: seq<Candle>, key: Key, i: nat) {
    FirstOfKey(candles, i) && KeyOf(candles[i]) == key && key in table && table[key] == candles[i]
  }

  lemma StillFirst(before: Table, table: Table, candles: seq<Candle>, key: Key, i: nat)
    requires candles != [] && HoldsFirst(before, candles[..|candles| - 1], key, i)
    requires key in table && table[key] == before[key]
    ensures HoldsFirst(table, candles, key, i)
  {
    assert forall j :: 0 <= j <= i ==> candles[..|candles| - 1][j] == candles[j];
  }

  lemma NewIsFirst(table: Table, candles: seq<Candle>)
    requires candles != []
    requires var n := |candles| - 1;
      && (forall j :: 0 <= j < n ==> KeyOf(candles[..n][j]) != KeyOf(candles[n]))
      && KeyOf(candles[n]) in table && table[KeyOf(candles[n])] == candles[n]
    ensures HoldsFirst(table, candles, KeyOf(candles[|candles| - 1]), |candles| - 1)
  {
    var n := |candles| - 1;
    assert forall j :: 0 <= j < n ==> candles[..n][j] == candles[j];
  }

  lemma {:induction false} BatchIsInserted(table: Table, candles: seq<Candle>)
    ensures forall key :: key in table ==>
              key in InsertAll(table, candles) && InsertAll(table, candles)[key] == table[key]
    ensures forall i :: 0 <= i < |candles| ==> KeyOf(candles[i]) in InsertAll(table, candles)
    decreases |candles|
  {
    if candles != [] {
      var n := |candles| - 1;
      BatchIsInserted(table, candles[..n]);
      assert forall i :: 0 <= i < n ==> candles[..n][i] == candles[i];
    }
  }

  lemma {:induction false} NewRowsAreFirst(table: Table, candles: seq<Candle>, key: Key) returns (i: nat)
    requires key in InsertAll(table, candles) && key !in table
    ensures HoldsFirst(InsertAll(table, candles), candles, key, i)
    decreases |candles|
  {
    var n := |candles| - 1;
    var before, after := InsertAll(table, candles[..n]), InsertAll(table, candles);
    if key in before {
      i := NewRowsAreFirst(table, candles[..n], key);
      StillFirst(before, after, candles, key, i);
    } else {
      i := n;
      BatchIsInserted(table, candles[..n]);
      NewIsFirst(after, candles);
    }
  }

  /** Rows that are there stay, and every other key of the batch gets a row: the first candle that has it. */
  lemma FirstOfBatchIsKept(table: Table, candles: seq<Candle>)
    ensures var after := InsertAll(table, candles);
      && (forall key :: key in table ==> key in after && after[key] == table[key])
      && (forall i :: 0 <= i < |candles| ==> KeyOf(candles[i]) in after)
      && (forall key :: key in after && key !in table ==> exists i: nat :: HoldsFirst(after, candles, key, i))
  {
    BatchIsInserted(table, candles);
    forall key | key in InsertAll(table, candles) && key !in table
      ensures exists i: nat :: HoldsFirst(InsertAll(table, candles), candles, key, i)
    {
      var i := NewRowsAreFirst(table, candles, key);
    }
  }

  lemma SingleInsert(table: Table, c: Candle)
    ensures InsertAll(table, [c]) == InsertNew(table, c)
  {
    assert [c][..0] == [];
  }

  ghost predicate IsOldest(starts: map<string, nat>, oldest: nat) {
    && (exists s :: s in starts && starts[s] == oldest)
    && (forall s :: s in starts ==> oldest <= starts[s])
  }

  lemma {:induction false} OldestExists(starts: map<string, nat>)
    requires starts != map[]
    ensures exists oldest :: IsOldest(starts, oldest)
    decreases |starts|
  {
    var s :| s in starts;
    var rest := starts - {s};
    assert forall s' :: s' in starts && s' != s ==> s' in rest;
    if rest == map[] {
      assert IsOldest(starts, starts[s]);
    } else {
      assert |rest| < |starts| by {
        assert rest.Keys == starts.Keys - {s};
      }
      OldestExists(rest);
      var oldest :| IsOldest(rest, oldest);
      assert IsOldest(starts, if starts[s] <= oldest then starts[s] else oldest);
    }
  }

  /** The oldest replay start. */
  ghost function Oldest(starts: map<string, nat>): (oldest: nat)
    requires starts != map[]
    ensures IsOldest(starts, oldest)
  {
    OldestExists(starts);
    var oldest :| IsOldest(starts, oldest);
    oldest
  }

  // Everything one record can change.
  datatype Stage = Stage(memory: Memory, table: Table, committed: nat, outcome: Outcome)

  ghost function Processing(symbols: set<string>, m: Memory, table: Table, committed: nat,
                            offset: nat, t: Tick, e: Effects): Stage {
    if t.symbol !in symbols then Stage(m, table, committed, Rejected(UnexpectedSymbol))
    else
      var starts := if t.symbol in m.starts then m.starts else m.starts[t.symbol := offset];
      var current := Lookup(m, t.symbol);
      var candles := m.candles[t.symbol := Updated(current, t.symbol, t.price, 0.0, t.timestamp)];
      match Completed(current, t.timestamp)
      case None => Stage(Memory(candles, starts), table, committed, Processed(None))
      case Some(c) =>
        var table' := if e.writeLands then InsertNew(table, c) else table;
        if !e.writeReturns then Stage(Memory(candles, starts), table', committed, Rejected(WriteFailed))
        else
          var starts' := starts[t.symbol := offset];
          assert t.symbol in starts';
          var committed' := if e.commitLands then Oldest(starts') else committed;
          Stage(Memory(candles, starts'), table', committed',
                if e.commitReturns then Processed(Some(c)) else Rejected(CommitFailed))
  }

  /** When a record is processed, the memory is that of a reader one record further on. */
  lemma ProcessedAbsorbs(symbols: set<string>, m: Memory, table: Table, committed: nat,
                         offset: nat, t: Tick, e: Effects)
    requires WellFormed(m)
    ensures var s := Processing(symbols, m, table, committed, offset, t, e);
      s.outcome.Processed? ==>
        && s.memory == Absorb(m, Some(t), offset)
        && s.outcome.completed == Closes(m, Some(t))
        && (s.outcome.completed.Some? ==> s.committed == if e.commitLands then Oldest(s.memory.starts) else committed)
  {
  }

  // ------------------------------------------------------------------- storage

  class CandleRepository {
    var rows: Table

    constructor ()
      ensures rows == map[]
    {
      rows := map[];
    }

    method BulkSave1mCandles(candles: seq<Candle>, lands: bool, returned: bool) returns (count: Option<nat>)
      requires returned ==> lands
      modifies this
      ensures rows == if lands then InsertAll(old(rows), candles) else old(rows)
      ensures returned ==> count == Some(|rows| - |old(rows)|)
      ensures !returned ==> count == None
    {
      var inserted := 0;
      if lands {
        var i := 0;
        while i < |candles|
          invariant 0 <= i <= |candles|
          invariant rows == InsertAll(old(rows), candles[..i])
          invariant |rows| == |old(rows)| + inserted
        {
          assert candles[..i + 1][..i] == candles[..i];
          if KeyOf(candles[i]) !in rows {
            rows := rows[KeyOf(candles[i]) := candles[i]];
            inserted := inserted + 1;
          }
          i := i + 1;
        }
        assert candles[..|candles|] == candles;
      }
      count := if returned then Some(inserted) else None;
    }
  }

  class OffsetCommitter {
    var committed: nat

    constructor ()
      ensures committed == 0
    {
      committed := 0;
    }

    method CommitOffset(offset: nat, lands: bool, returned: bool) returns (ok: bool)
      modifies this
      ensures committed == if lands then offset else old(committed)
      ensures ok == returned
    {
      if lands {
        committed := offset;
      }
      ok := returned;
    }
  }

  class MarketEventPublisher {
    var published: seq<Candle>

    constructor ()
      ensures published == []
    {
      published := [];
    }

    method Publish(candle: Candle, lands: bool)
      modifies this
      ensures published == if lands then old(published) + [candle] else old(published)
    {
      if lands {
        published := published + [candle];
      }
    }
  }

  // ----------------------------------------------------------------- processor

  class CandleProcessor {
    const symbols: set<string>
    const repository: CandleRepository
    const offsets: OffsetCommitter
    var candleMakers: map<string, CandleMaker>
    var replayStartOffsets: map<string, nat>

    ghost predicate MakersValid()
      reads this`candleMakers, candleMakers.Values
    {
      && (forall s :: s in candleMakers ==> candleMakers[s].currentCandle.Some?)
      && (forall s, s' :: s in candleMakers && s' in candleMakers && s != s' ==> candleMakers[s] != candleMakers[s'])
    }

    ghost predicate Valid()
      reads this, candleMakers.Values
    {
      candleMakers.Keys == replayStartOffsets.Keys && MakersValid()
    }

    ghost function Candles(): map<string, Candle>
      reads this`candleMakers, candleMakers.Values
      requires MakersValid()
    {
      map s | s in candleMakers :: candleMakers[s].currentCandle.value
    }

    ghost function Held(): Memory
      reads this, candleMakers.Values
      requires Valid()
    {
      Memory(Candles(), replayStartOffsets)
    }

    constructor (symbols: set<string>, repository: CandleRepository, offsets: OffsetCommitter)
      requires symbols != {}
      ensures Valid() && Held() == EMPTY_MEMORY
      ensures this.symbols == symbols && this.repository == repository && this.offsets == offsets
      ensures candleMakers == map[]
    {
      this.symbols := symbols;
      this.repository := repository;
      this.offsets := offsets;
      candleMakers := map[];
      replayStartOffsets := map[];
    }

    method GetCandleMaker(symbol: string) returns (maker: CandleMaker)
      modifies this`candleMakers
      ensures symbol in old(candleMakers) ==> maker == old(candleMakers)[symbol] && candleMakers == old(candleMakers)
      ensures symbol !in old(candleMakers) ==>
                && fresh(maker) && maker.currentCandle == None
                && candleMakers == old(candleMakers)[symbol := maker]
    {
      if symbol in candleMakers {
        return candleMakers[symbol];
      }
      maker := new CandleMaker();
      candleMakers := candleMakers[symbol := maker];
    }

    method GetSafeReplayOffset() returns (safe: nat)
      requires replayStartOffsets != map[]
      ensures safe == Oldest(replayStartOffsets)
    {
      var oldest: Option<nat> := None;
      var remaining := replayStartOffsets.Keys;
      while remaining != {}
        invariant remaining <= replayStartOffsets.Keys
        invariant oldest.None? ==> remaining == replayStartOffsets.Keys
        invariant oldest.Some? ==> exists s :: s in replayStartOffsets && replayStartOffsets[s] == oldest.value
        invariant forall s :: s in replayStartOffsets && s !in remaining ==>
                    oldest.Some? && oldest.value <= replayStartOffsets[s]
        decreases remaining
      {
        var s :| s in remaining;
        if oldest.None? || replayStartOffsets[s] < oldest.value {
          oldest := Some(replayStartOffsets[s]);
        }
        remaining := remaining - {s};
      }
      assert IsOldest(replayStartOffsets, oldest.value) && IsOldest(replayStartOffsets, Oldest(replayStartOffsets));
      safe := oldest.value;
    }

    method FeedMaker(t: Tick) returns (completed: Option<Candle>)
      requires MakersValid()
      modifies this`candleMakers, candleMakers.Values
      ensures MakersValid() && fresh(candleMakers.Values - old(candleMakers.Values))
      ensures candleMakers.Keys == old(candleMakers.Keys) + {t.symbol}
      ensures var current := if t.symbol in old(Candles()) then Some(old(Candles())[t.symbol]) else None;
        && completed == Completed(current, t.timestamp)
        && Candles() == old(Candles())[t.symbol := Updated(current, t.symbol, t.price, 0.0, t.timestamp)]
    {
      var maker := GetCandleMaker(t.symbol);
      completed := maker.Update(t.symbol, t.price, 0.0, t.timestamp);
    }

    /** The part of Process before the first request: everything it does to the candle in progress. */
    method UpdateCandle(offset: nat, t: Tick) returns (completed: Option<Candle>)
      requires Valid()
      modifies this, candleMakers.Values
      ensures Valid() && fresh(candleMakers.Values - old(candleMakers.Values))
      ensures completed == Completed(Lookup(old(Held()), t.symbol), t.timestamp)
      ensures var before := old(Held());
        && Held().candles
           == before.candles[t.symbol := Updated(Lookup(before, t.symbol), t.symbol, t.price, 0.0, t.timestamp)]
        && Held().starts == if t.symbol in before.starts then before.starts else before.starts[t.symbol := offset]
    {
      if t.symbol !in replayStartOffsets {
        replayStartOffsets := replayStartOffsets[t.symbol := offset];
      }
      completed := FeedMaker(t);
    }

    /** The part of Process from the insert to the commit. */
    method Checkpoint(symbol: string, offset: nat, c: Candle, e: Effects) returns (outcome: Outcome)
      requires Valid() && e.Possible() && symbol in replayStartOffsets
      modifies this`replayStartOffsets, repository, offsets
      ensures Valid() && Candles() == old(Candles())
      ensures repository.rows == if e.writeLands then InsertNew(old(repository.rows), c) else old(repository.rows)
      ensures !e.writeReturns ==>
                && outcome == Rejected(WriteFailed)
                && replayStartOffsets == old(replayStartOffsets) && offsets.committed == old(offsets.committed)
      ensures e.writeReturns ==>
                && replayStartOffsets == old(replayStartOffsets)[symbol := offset] && symbol in replayStartOffsets
                && offsets.committed == (if e.commitLands then Oldest(replayStartOffsets) else old(offsets.committed))
                && outcome == (if e.commitReturns then Processed(Some(c)) else Rejected(CommitFailed))
    {
      SingleInsert(repository.rows, c);
      var written := repository.BulkSave1mCandles([c], e.writeLands, e.writeReturns);
      if written.None? {
        return Rejected(WriteFailed);
      }

      replayStartOffsets := replayStartOffsets[symbol := offset];
      assert symbol in replayStartOffsets;
      var safeReplayOffset := GetSafeReplayOffset();
      var committed := offsets.CommitOffset(safeReplayOffset, e.commitLands, e.commitReturns);
      if !committed {
        return Rejected(CommitFailed);
      }
      return Processed(Some(c));
    }

    method Process(offset: nat, t: Tick, e: Effects) returns (outcome: Outcome)
      requires Valid() && e.Possible()
      modifies this, candleMakers.Values, repository, offsets
      ensures Valid() && fresh(candleMakers.Values - old(candleMakers.Values))
      ensures Stage(Held(), repository.rows, offsets.committed, outcome)
              == Processing(symbols, old(Held()), old(repository.rows), old(offsets.committed), offset, t, e)
    {
      if t.symbol !in symbols {
        return Rejected(UnexpectedSymbol);
      }

      var completed := UpdateCandle(offset, t);
      if completed.None? {
        return Processed(None);
      }

      outcome := Checkpoint(t.symbol, offset, completed.value, e);
    }
  }

  // ------------------------------------------------------------------- handler

  // What handling a record leaves behind; the process survives unless `alive` is false.
  datatype Handled = Handled(memory: Memory, table: Table, committed: nat, published: seq<Candle>, alive: bool)

  ghost function Handle(symbols: set<string>, m: Memory, table: Table, committed: nat, published: seq<Candle>,
                        offset: nat, r: Option<Tick>, e: Effects): Handled {
    match r
    case None => Handled(m, table, committed, published, false)
    case Some(t) =>
      var s := Processing(symbols, m, table, committed, offset, t, e);
      match s.outcome
      case Rejected(_) => Handled(s.memory, s.table, s.committed, published, false)
      case Processed(completed) =>
        Handled(s.memory, s.table, s.committed,
                if completed.Some? && e.publishLands then published + [completed.value] else published, true)
  }

  class CandleProcessingRuntime {
    const processor: CandleProcessor
    const publisher: MarketEventPublisher
    var fatal: bool

    constructor (processor: CandleProcessor, publisher: MarketEventPublisher)
      ensures this.processor == processor && this.publisher == publisher && !fatal
    {
      this.processor := processor;
      this.publisher := publisher;
      fatal := false;
    }

    method OnRecord(offset: nat, value: Option<Tick>, e: Effects)
      requires processor.Valid() && e.Possible() && !fatal
      modifies this, processor, processor.candleMakers.Values, processor.repository, processor.offsets, publisher
      ensures processor.Valid()
      ensures Handled(processor.Held(), processor.repository.rows, processor.offsets.committed,
                      publisher.published, !fatal)
              == Handle(processor.symbols, old(processor.Held()), old(processor.repository.rows),
                        old(processor.offsets.committed), old(publisher.published), offset, value, e)
    {
      if value.None? {
        fatal := true;
        return;
      }
      var outcome := processor.Process(offset, value.value, e);
      match outcome
      case Rejected(_) =>
        fatal := true;
      case Processed(completed) =>
        if completed.Some? {
          publisher.Publish(completed.value, e.publishLands);
        }
    }
  }
}
