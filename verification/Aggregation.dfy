// The roll-up views over the one-minute table (the baseline migration), and
// what they hold in terms of the ticks themselves.
module Aggregation {
  import opened Basics
  import opened CandleMaking
  import opened TickLog
  import opened ReplayProtocol

  datatype Bar = Bar(open: real, high: real, low: real, close: real, volume: real)

  function BarOf(c: Candle): Bar {
    Bar(c.open, c.high, c.low, c.close, c.volume)
  }

  /** An earlier bar followed by a later one. */
  function Join(a: Option<Bar>, b: Option<Bar>): Option<Bar> {
    if a.None? then b
    else if b.None? then a
    else Some(Bar(a.value.open, Max(a.value.high, b.value.high), Min(a.value.low, b.value.low),
                  b.value.close, a.value.volume + b.value.volume))
  }

  // ------------------------------------------------------------------- views

  predicate InGroup(key: Key, s: string, bucket: int, minutes: nat) {
    key.symbol == s && bucket <= key.time < bucket + 60 * minutes
  }

  /** The view's row for symbol `s` and the bucket of `minutes` minutes starting at `bucket`. */
  function Rollup(table: Table, s: string, bucket: int, minutes: nat): Option<Bar> {
    if minutes == 0 then None
    else
      var key := Key(bucket + 60 * (minutes - 1), s);
      Join(Rollup(table, s, bucket, minutes - 1), if key in table then Some(BarOf(table[key])) else None)
  }

  function TotalVolume(table: Table, s: string, bucket: int, minutes: nat): real {
    if minutes == 0 then 0.0
    else
      var key := Key(bucket + 60 * (minutes - 1), s);
      TotalVolume(table, s, bucket, minutes - 1) + if key in table then table[key].volume else 0.0
  }

  ghost predicate Aligned(table: Table) {
    forall key :: key in table ==> key.time % 60 == 0
  }

  /** first(open, time), max(high), min(low), last(close, time) and sum(volume) over the group. */
  ghost predicate IsGroupRow(table: Table, s: string, bucket: int, minutes: nat, bar: Bar) {
    && (exists first :: first in table && InGroup(first, s, bucket, minutes) && table[first].open == bar.open
          && forall key :: key in table && InGroup(key, s, bucket, minutes) ==> first.time <= key.time)
    && (exists last :: last in table && InGroup(last, s, bucket, minutes) && table[last].close == bar.close
          && forall key :: key in table && InGroup(key, s, bucket, minutes) ==> key.time <= last.time)
    && (exists top :: top in table && InGroup(top, s, bucket, minutes) && table[top].high == bar.high)
    && (exists bottom :: bottom in table && InGroup(bottom, s, bucket, minutes) && table[bottom].low == bar.low)
    && (forall key :: key in table && InGroup(key, s, bucket, minutes) ==>
          table[key].high <= bar.high && bar.low <= table[key].low)
    && bar.volume == TotalVolume(table, s, bucket, minutes)
  }

  ghost predicate NoRows(table: Table, s: string, bucket: int, minutes: nat) {
    forall key :: key in table ==> !InGroup(key, s, bucket, minutes)
  }

  /** The roll-up is the GROUP BY of the view: no row for an empty group, else its aggregates. */
  lemma {:induction false} RollupIsGroupRow(table: Table, s: string, bucket: int, minutes: nat)
    requires Aligned(table) && bucket % 60 == 0
    ensures match Rollup(table, s, bucket, minutes)
            case None => NoRows(table, s, bucket, minutes) && TotalVolume(table, s, bucket, minutes) == 0.0
            case Some(bar) => IsGroupRow(table, s, bucket, minutes, bar)
    decreases minutes
  {
    if minutes > 0 {
      RollupIsGroupRow(table, s, bucket, minutes - 1);
      var key := Key(bucket + 60 * (minutes - 1), s);
      forall k | k in table && InGroup(k, s, bucket, minutes) && k != key ensures InGroup(k, s, bucket, minutes - 1) {
        LastSlot(bucket, minutes, k.time);
      }
      if key in table {
        GroupGrows(table, s, bucket, minutes, key);
      } else if Rollup(table, s, bucket, minutes - 1).Some? {
        SameGroup(table, s, bucket, minutes, Rollup(table, s, bucket, minutes).value);
      }
    }
  }

  lemma LastSlot(bucket: int, minutes: nat, time: int)
    requires bucket % 60 == 0 && time % 60 == 0 && minutes > 0
    requires bucket <= time < bucket + 60 * minutes && time != bucket + 60 * (minutes - 1)
    ensures time < bucket + 60 * (minutes - 1)
  {
  }

  lemma SameGroup(table: Table, s: string, bucket: int, minutes: nat, bar: Bar)
    requires minutes > 0 && IsGroupRow(table, s, bucket, minutes - 1, bar)
    requires forall k :: k in table && InGroup(k, s, bucket, minutes) ==> InGroup(k, s, bucket, minutes - 1)
    requires Key(bucket + 60 * (minutes - 1), s) !in table
    ensures IsGroupRow(table, s, bucket, minutes, bar)
  {
    assert forall k :: InGroup(k, s, bucket, minutes - 1) ==> InGroup(k, s, bucket, minutes);
  }

  lemma GroupGrows(table: Table, s: string, bucket: int, minutes: nat, key: Key)
    requires minutes > 0 && key == Key(bucket + 60 * (minutes - 1), s) && key in table
    requires forall k :: k in table && InGroup(k, s, bucket, minutes) && k != key ==> InGroup(k, s, bucket, minutes - 1)
    requires match Rollup(table, s, bucket, minutes - 1)
             case None => NoRows(table, s, bucket, minutes - 1) && TotalVolume(table, s, bucket, minutes - 1) == 0.0
             case Some(bar) => IsGroupRow(table, s, bucket, minutes - 1, bar)
    ensures Rollup(table, s, bucket, minutes).Some?
    ensures IsGroupRow(table, s, bucket, minutes, Rollup(table, s, bucket, minutes).value)
  {
    assert forall k :: InGroup(k, s, bucket, minutes - 1) ==> InGroup(k, s, bucket, minutes) && k.time < key.time;
    assert InGroup(key, s, bucket, minutes);
  }

  // ------------------------------------------------------------------- ticks

  predicate TickIn(log: Log, i: nat, s: string, from: int, to: int)
    requires i < |log|
  {
    Of(log, i, s) && from as real <= log[i].value.timestamp < to as real
  }

  /** The bar of the ticks of `s` among the first `n` records whose timestamps lie in [from, to). */
  function TickBar(log: Log, n: nat, s: string, from: int, to: int): Option<Bar>
    requires n <= |log|
  {
    if n == 0 then None
    else if TickIn(log, n - 1, s, from, to) then
      var p := log[n - 1].value.price;
      Join(TickBar(log, n - 1, s, from, to), Some(Bar(p, p, p, p, 0.0)))
    else TickBar(log, n - 1, s, from, to)
  }

  /** Each symbol's minutes never go backwards. */
  ghost predicate Ordered(log: Log, n: nat)
    requires n <= |log|
  {
    forall s, i: nat, j: nat :: i < j < n && Of(log, i, s) && Of(log, j, s) ==> MinuteAt(log, i) <= MinuteAt(log, j)
  }

  /** For whole minutes, a timestamp lies in a range exactly when its minute does. */
  lemma RangeOfMinute(timestamp: real, from: int, to: int)
    requires from % 60 == 0 && to % 60 == 0
    ensures from as real <= timestamp < to as real <==> from <= MinuteStart(timestamp) < to
  {
    var m := MinuteStart(timestamp);
    if m < from {
      assert m + 60 <= from;
    }
    if m < to {
      assert m + 60 <= to;
    }
  }

  lemma {:induction false} NoTicksFrom(log: Log, n: nat, s: string, from: int, to: int)
    requires n <= |log| && from % 60 == 0 && to % 60 == 0
    requires forall k: nat :: k < n && Of(log, k, s) ==> MinuteAt(log, k) < from || to <= MinuteAt(log, k)
    ensures TickBar(log, n, s, from, to) == None
    decreases n
  {
    if n > 0 {
      NoTicksFrom(log, n - 1, s, from, to);
      if Of(log, n - 1, s) {
        RangeOfMinute(log[n - 1].value.timestamp, from, to);
      }
    }
  }

  /** A range of ticks is its earlier part followed by its later part. */
  lemma {:induction false} SplitRange(log: Log, n: nat, s: string, from: int, mid: int, to: int)
    requires n <= |log| && Ordered(log, n) && from <= mid <= to
    requires from % 60 == 0 && mid % 60 == 0 && to % 60 == 0
    ensures TickBar(log, n, s, from, to) == Join(TickBar(log, n, s, from, mid), TickBar(log, n, s, mid, to))
    decreases n
  {
    if n > 0 {
      SplitRange(log, n - 1, s, from, mid, to);
      if Of(log, n - 1, s) && TickIn(log, n - 1, s, from, mid) {
        RangeOfMinute(log[n - 1].value.timestamp, from, mid);
        NoTicksFrom(log, n - 1, s, mid, to);
      }
    }
  }

  // ------------------------------------------------------------- exact minutes

  /** What is known of symbol `s` after an ordered prefix. */
  ghost predicate MinutesExact(log: Log, n: nat, s: string)
    requires n <= |log|
  {
    var m, table, last := Fold(log, 0, n), StoredBy(log, n), LastBefore(log, s, n);
    && (s in m.candles <==> last.Some?)
    && (last.Some? ==>
          var current := MinuteAt(log, last.value);
          && m.candles[s].startTime == current
          && TickBar(log, n, s, current, current + 60) == Some(BarOf(m.candles[s])))
    && (forall minute | minute % 60 == 0 :: MinuteExact(table, log, n, s, minute, last))
  }

  /** A minute has a row exactly when it has ticks and the symbol has moved past it, and the row is their bar. */
  ghost predicate MinuteExact(table: Table, log: Log, n: nat, s: string, minute: int, last: Option<nat>)
    requires n <= |log| && (last.Some? ==> last.value < n && Of(log, last.value, s))
  {
    var bar := TickBar(log, n, s, minute, minute + 60);
    var past := last.Some? && minute < MinuteAt(log, last.value);
    && (Key(minute, s) in table <==> past && bar.Some?)
    && (Key(minute, s) in table ==> bar == Some(BarOf(table[Key(minute, s)])))
  }

  lemma {:induction false} OrderedMinutesExact(log: Log, n: nat, s: string)
    requires n <= |log| && Ordered(log, n)
    ensures MinutesExact(log, n, s)
    decreases n
  {
    if n > 0 {
      OrderedMinutesExact(log, n - 1, s);
      FoldWellFormed(log, 0, n - 1);
      if Of(log, n - 1, s) {
        TickKeepsMinutes(log, n, s);
      } else {
        ClosesEndsRun(log, n - 1);
        var last := LastBefore(log, s, n - 1);
        forall minute | minute % 60 == 0 ensures MinuteExact(StoredBy(log, n), log, n, s, minute, last) {
          assert MinuteExact(StoredBy(log, n - 1), log, n - 1, s, minute, last);
        }
      }
    }
  }

  lemma TickKeepsMinutes(log: Log, n: nat, s: string)
    requires 0 < n <= |log| && Ordered(log, n) && Of(log, n - 1, s)
    requires MinutesExact(log, n - 1, s) && WellFormed(Fold(log, 0, n - 1))
    ensures MinutesExact(log, n, s)
  {
    var m, last := Fold(log, 0, n - 1), LastBefore(log, s, n - 1);
    var now := MinuteAt(log, n - 1);
    RangeOfMinute(log[n - 1].value.timestamp, now, now + 60);
    if last.None? || MinuteAt(log, last.value) != now {
      forall k: nat | k < n - 1 && Of(log, k, s) ensures MinuteAt(log, k) < now {
        assert k <= last.value;
        assert MinuteAt(log, k) <= MinuteAt(log, last.value) <= now;
      }
      NoTicksFrom(log, n - 1, s, now, now + 60);
    }
    forall minute | minute % 60 == 0 ensures MinuteExact(StoredBy(log, n), log, n, s, minute, Some(n - 1)) {
      assert MinuteExact(StoredBy(log, n - 1), log, n - 1, s, minute, last);
      RangeOfMinute(log[n - 1].value.timestamp, minute, minute + 60);
      if last.None? || MinuteAt(log, last.value) < minute {
        forall k: nat | k < n - 1 && Of(log, k, s) ensures MinuteAt(log, k) < minute {
          assert k <= last.value;
        }
        NoTicksFrom(log, n - 1, s, minute, minute + 60);
      }
    }
  }

  // -------------------------------------------------------------- main results

  /** Where the closed minutes of `s` inside [bucket, end) stop. */
  ghost function ClosedEnd(log: Log, n: nat, s: string, bucket: int, end: int): int
    requires n <= |log| && bucket <= end
  {
    var last := LastBefore(log, s, n);
    if last.None? || MinuteAt(log, last.value) < bucket then bucket
    else if MinuteAt(log, last.value) < end then MinuteAt(log, last.value)
    else end
  }

  /** Rolling rows up is folding the bucket's ticks, up to the minute still open. */
  lemma {:induction false} RollupIsTickBar(log: Log, n: nat, s: string, bucket: int, minutes: nat)
    requires n <= |log| && Ordered(log, n) && bucket % 60 == 0
    ensures Rollup(StoredBy(log, n), s, bucket, minutes)
            == TickBar(log, n, s, bucket, ClosedEnd(log, n, s, bucket, bucket + 60 * minutes))
    decreases minutes
  {
    OrderedMinutesExact(log, n, s);
    var last := LastBefore(log, s, n);
    if minutes == 0 {
      NoTicksFrom(log, n, s, bucket, bucket);
    } else {
      RollupIsTickBar(log, n, s, bucket, minutes - 1);
      var slot := bucket + 60 * (minutes - 1);
      assert MinuteExact(StoredBy(log, n), log, n, s, slot, last);
      if last.Some? && slot < MinuteAt(log, last.value) {
        assert ClosedEnd(log, n, s, bucket, slot) == slot;
        assert ClosedEnd(log, n, s, bucket, slot + 60) == slot + 60;
        SplitRange(log, n, s, bucket, slot, slot + 60);
      } else {
        assert ClosedEnd(log, n, s, bucket, slot + 60) == ClosedEnd(log, n, s, bucket, slot);
      }
    }
  }

  /**
   * In every reachable state with per-symbol ordered minutes, each view row is
   * the SQL aggregate of its group and equals the direct fold of the ticks of
   * its bucket: of all of them as soon as the symbol has a tick past the bucket,
   * and before that of those in the minutes already closed.
   */
  lemma ViewsAggregateTicks(symbols: set<string>, actions: seq<Action>, s: string, bucket: int, minutes: nat)
    requires var w := Run(symbols, actions); w.highWater <= |w.log| && Ordered(w.log, w.highWater)
    requires bucket % 60 == 0
    ensures var w := Run(symbols, actions);
      var row := Rollup(w.table, s, bucket, minutes);
      var last := LastBefore(w.log, s, w.highWater);
      && (row.Some? ==> IsGroupRow(w.table, s, bucket, minutes, row.value))
      && (row.None? ==> NoRows(w.table, s, bucket, minutes))
      && row == TickBar(w.log, w.highWater, s, bucket, ClosedEnd(w.log, w.highWater, s, bucket, bucket + 60 * minutes))
      && (last.Some? && bucket + 60 * minutes <= MinuteAt(w.log, last.value) ==>
            row == TickBar(w.log, w.highWater, s, bucket, bucket + 60 * minutes))
  {
    ReachableInv(symbols, actions);
    var w := Run(symbols, actions);
    RowsAligned(w.log, w.highWater);
    RollupIsGroupRow(w.table, s, bucket, minutes);
    RollupIsTickBar(w.log, w.highWater, s, bucket, minutes);
  }

  lemma RowsAligned(log: Log, n: nat)
    requires n <= |log|
    ensures Aligned(StoredBy(log, n))
  {
    StoredIsFirstRuns(log, n);
  }

  /**
   * In every reachable state with per-symbol ordered minutes, a minute has a row
   * exactly when it has ticks and its symbol has moved on, and the row is the
   * bar of all its ticks.
   */
  lemma RowsAreExactMinutes(symbols: set<string>, actions: seq<Action>, s: string, minute: int)
    requires var w := Run(symbols, actions); w.highWater <= |w.log| && Ordered(w.log, w.highWater)
    requires minute % 60 == 0
    ensures var w := Run(symbols, actions);
      var last := LastBefore(w.log, s, w.highWater);
      var ticks := TickBar(w.log, w.highWater, s, minute, minute + 60);
      && (Key(minute, s) in w.table <==> ticks.Some? && last.Some? && minute < MinuteAt(w.log, last.value))
      && (Key(minute, s) in w.table ==> ticks == Some(BarOf(w.table[Key(minute, s)])))
  {
    ReachableInv(symbols, actions);
    var w := Run(symbols, actions);
    OrderedMinutesExact(w.log, w.highWater, s);
    assert MinuteExact(w.table, w.log, w.highWater, s, minute, LastBefore(w.log, s, w.highWater));
  }

  // ------------------------------------------------------------------ late ticks

  /** A run that is open up to `q` is ended by the first tick of another minute. */
  lemma {:induction false} RunIsEnded(log: Log, s: string, i: nat, q: nat, p: nat) returns (j: nat)
    requires i < q <= p < |log| && OpensRun(log, s, i) && OneMinute(log, s, i, q)
    requires Of(log, p, s) && MinuteAt(log, p) != MinuteAt(log, i)
    ensures j <= p && ClosedRun(log, s, i, j)
    decreases p - q
  {
    if Of(log, q, s) && MinuteAt(log, q) != MinuteAt(log, i) {
      j := q;
    } else {
      j := RunIsEnded(log, s, i, q + 1, p);
    }
  }

  /** Before the first closed run of a minute there is no tick of that minute. */
  lemma NoTickBeforeFirstRun(log: Log, n: nat, s: string, i: nat, j: nat, k: nat)
    requires n <= |log| && FirstClosedRun(log, n, s, i, j) && k < i && Of(log, k, s)
    ensures MinuteAt(log, k) != MinuteAt(log, i)
  {
    if MinuteAt(log, k) == MinuteAt(log, i) {
      var previous := LastBefore(log, s, i).value;
      assert k < previous;
      FoldHoldsOpenRuns(log, k + 1, s);
      var open := Fold(log, 0, k + 1).starts[s];
      assert MinuteAt(log, open) == MinuteAt(log, k);
      var j' := RunIsEnded(log, s, open, k + 1, previous);
    }
  }

  function CandleOf(s: string, minute: int, bar: Bar): Candle {
    Candle(s, minute, bar.open, bar.high, bar.low, bar.close, bar.volume)
  }

  /** The fold over a minute's ticks is the bar of the run that holds them. */
  lemma {:induction false} RunHoldsMinute(log: Log, s: string, i: nat, n: nat)
    requires i < n <= |log| && Of(log, i, s) && OneMinute(log, s, i, n)
    requires TickBar(log, i, s, MinuteAt(log, i), MinuteAt(log, i) + 60) == None
    ensures var bar := TickBar(log, n, s, MinuteAt(log, i), MinuteAt(log, i) + 60);
      bar.Some? && IsBar(log, s, i, n, CandleOf(s, MinuteAt(log, i), bar.value))
    decreases n
  {
    var minute := MinuteAt(log, i);
    if Of(log, n - 1, s) {
      RangeOfMinute(log[n - 1].value.timestamp, minute, minute + 60);
    }
    if n > i + 1 {
      RunHoldsMinute(log, s, i, n - 1);
      if Of(log, n - 1, s) {
        OneTickMore(log, s, i, n);
      }
    }
  }

  lemma OneTickMore(log: Log, s: string, i: nat, n: nat)
    requires i + 1 < n <= |log| && Of(log, i, s) && Of(log, n - 1, s)
    requires TickIn(log, n - 1, s, MinuteAt(log, i), MinuteAt(log, i) + 60)
    requires var bar := TickBar(log, n - 1, s, MinuteAt(log, i), MinuteAt(log, i) + 60);
      bar.Some? && IsBar(log, s, i, n - 1, CandleOf(s, MinuteAt(log, i), bar.value))
    ensures IsBar(log, s, i, n, CandleOf(s, MinuteAt(log, i),
                                     TickBar(log, n, s, MinuteAt(log, i), MinuteAt(log, i) + 60).value))
  {
    var before := TickBar(log, n - 1, s, MinuteAt(log, i), MinuteAt(log, i) + 60).value;
    var after := TickBar(log, n, s, MinuteAt(log, i), MinuteAt(log, i) + 60).value;
    var high :| i <= high < n - 1 && Of(log, high, s) && log[high].value.price == before.high;
    var low :| i <= low < n - 1 && Of(log, low, s) && log[low].value.price == before.low;
    assert log[if after.high == before.high then high else n - 1].value.price == after.high;
    assert log[if after.low == before.low then low else n - 1].value.price == after.low;
  }

  lemma {:induction false} NoTicksAfter(log: Log, j: nat, n: nat, s: string, minute: int)
    requires j <= n <= |log| && minute % 60 == 0
    requires forall k: nat :: j <= k < n && Of(log, k, s) ==> MinuteAt(log, k) != minute
    ensures TickBar(log, n, s, minute, minute + 60) == TickBar(log, j, s, minute, minute + 60)
    decreases n
  {
    if j < n {
      NoTicksAfter(log, j, n - 1, s, minute);
      if Of(log, n - 1, s) {
        RangeOfMinute(log[n - 1].value.timestamp, minute, minute + 60);
      }
    }
  }

  /** The bar of the ticks of `s` among records j to n whose timestamps lie in [from, to). */
  function LateBar(log: Log, j: nat, n: nat, s: string, from: int, to: int): Option<Bar>
    requires j <= n <= |log|
  {
    if n == j then None
    else if TickIn(log, n - 1, s, from, to) then
      var p := log[n - 1].value.price;
      Join(LateBar(log, j, n - 1, s, from, to), Some(Bar(p, p, p, p, 0.0)))
    else LateBar(log, j, n - 1, s, from, to)
  }

  /** The ticks of a range are those among the first j records followed by the later ones. */
  lemma {:induction false} EarlyThenLate(log: Log, j: nat, n: nat, s: string, from: int, to: int)
    requires j <= n <= |log|
    ensures TickBar(log, n, s, from, to) == Join(TickBar(log, j, s, from, to), LateBar(log, j, n, s, from, to))
    ensures LateBar(log, j, n, s, from, to).Some? ==> LateBar(log, j, n, s, from, to).value.volume == 0.0
    decreases n
  {
    if j < n {
      EarlyThenLate(log, j, n - 1, s, from, to);
    }
  }

  /** Late ticks leave the bar as it is exactly if they stay in its range and end on its close. */
  predicate Absorbs(row: Candle, late: Option<Bar>) {
    late.Some? ==> row.low <= late.value.low && late.value.high <= row.high && late.value.close == row.close
  }

  /**
   * The row is the bar of all ticks of its minute up to `j`, and of all there are
   * exactly if it absorbs the later ones.
   */
  ghost predicate MissesOnlyLate(log: Log, n: nat, key: Key, row: Candle, j: nat)
    requires n <= |log|
  {
    && j < n
    && TickBar(log, j, key.symbol, key.time, key.time + 60) == Some(BarOf(row))
    && (TickBar(log, n, key.symbol, key.time, key.time + 60) == Some(BarOf(row))
        <==> Absorbs(row, LateBar(log, j, n, key.symbol, key.time, key.time + 60)))
  }

  lemma FirstRunMissesOnlyLate(log: Log, n: nat, key: Key, i: nat, j: nat, row: Candle)
    requires n <= |log| && FirstClosedRun(log, n, key.symbol, i, j) && MinuteAt(log, i) == key.time
    requires IsBar(log, key.symbol, i, j, row)
    ensures MissesOnlyLate(log, n, key, row, j)
  {
    FirstRunBar(log, n, key, i, j, row);
    EarlyThenLate(log, j, n, key.symbol, key.time, key.time + 60);
  }

  /**
   * Whatever the order of the timestamps, a row is the bar of the ticks of its
   * minute up to the end of its first run. It is the bar of all of them exactly if
   * the late ones stay within its range and the last of them repeats its close.
   */
  lemma RowMissesOnlyLateTicks(symbols: set<string>, actions: seq<Action>, key: Key) returns (i: nat, j: nat)
    requires var w := Run(symbols, actions); w.highWater <= |w.log| && key in w.table
    ensures var w := Run(symbols, actions);
      && FirstClosedRun(w.log, w.highWater, key.symbol, i, j) && MinuteAt(w.log, i) == key.time
      && MissesOnlyLate(w.log, w.highWater, key, w.table[key], j)
  {
    ReplayRefinesCrashFreeRun(symbols, actions);
    var w := Run(symbols, actions);
    i, j :| FirstClosedRun(w.log, w.highWater, key.symbol, i, j) && MinuteAt(w.log, i) == key.time
            && IsBar(w.log, key.symbol, i, j, w.table[key]);
    FirstRunMissesOnlyLate(w.log, w.highWater, key, i, j, w.table[key]);
  }

  lemma FirstRunBar(log: Log, n: nat, key: Key, i: nat, j: nat, c: Candle)
    requires n <= |log| && FirstClosedRun(log, n, key.symbol, i, j) && MinuteAt(log, i) == key.time
    requires IsBar(log, key.symbol, i, j, c)
    ensures TickBar(log, j, key.symbol, key.time, key.time + 60) == Some(BarOf(c))
  {
    forall k: nat | k < i && Of(log, k, key.symbol) ensures MinuteAt(log, k) != key.time {
      NoTickBeforeFirstRun(log, n, key.symbol, i, j, k);
    }
    NoTicksAfter(log, 0, i, key.symbol, key.time);
    RunHoldsMinute(log, key.symbol, i, j);
    var bar := TickBar(log, j, key.symbol, key.time, key.time + 60).value;
    BarUnique(log, key.symbol, i, j, c, CandleOf(key.symbol, key.time, bar));
  }

  // A at 60 s, at 120 s, and late again at 61 s, then at 180 s.
  const LATE_TICK: Log := [
    Some(Tick("A", 1.0, 60.0)), Some(Tick("A", 2.0, 120.0)), Some(Tick("A", 9.0, 61.0)), Some(Tick("A", 3.0, 180.0))]

  /** Without ordered minutes a row need not be exact: the late tick at 9.0 is in the minute and not in its row. */
  lemma LateTickIsLost()
    ensures var table := StoredBy(LATE_TICK, 4);
      Key(60, "A") in table && table[Key(60, "A")].high == 1.0
    ensures var bar := TickBar(LATE_TICK, 4, "A", 60, 120);
      bar.Some? && bar.value.high == 9.0
  {
    var log := LATE_TICK;
    assert MinuteStart(60.0) == 60 && MinuteStart(61.0) == 60 && MinuteStart(120.0) == 120 && MinuteStart(180.0) == 180;
    var first := Candle("A", 60, 1.0, 1.0, 1.0, 1.0, 0.0);
    assert Fold(log, 0, 0) == EMPTY_MEMORY;
    assert Fold(log, 0, 1) == Memory(map["A" := first], map["A" := 0]);
    assert Closes(Fold(log, 0, 1), log[1]) == Some(first);
    assert StoredBy(log, 0) == map[] && StoredBy(log, 1) == map[];
    assert StoredBy(log, 2) == map[Key(60, "A") := first];
    RowsStay(log, 2, 4);
    assert TickBar(log, 0, "A", 60, 120) == None;
    assert TickBar(log, 1, "A", 60, 120) == Some(Bar(1.0, 1.0, 1.0, 1.0, 0.0));
    assert TickBar(log, 2, "A", 60, 120) == Some(Bar(1.0, 1.0, 1.0, 1.0, 0.0));
    assert TickBar(log, 3, "A", 60, 120) == Some(Bar(1.0, 9.0, 1.0, 9.0, 0.0));
  }
}
