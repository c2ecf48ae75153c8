// The raw tick log, what one undisturbed reader of it holds and stores, and an
// independent account of that in terms of runs of ticks.
module TickLog {
  import opened Basics
  import opened CandleMaking

  // A record is None when its value does not parse as a raw market tick; the
  // index of a record is its offset.
  type Log = seq<Option<Tick>>

  // The primary key of the one-minute table.
  datatype Key = Key(time: int, symbol: string)
  type Table = map<Key, Candle>

  function KeyOf(c: Candle): Key {
    Key(c.startTime, c.symbol)
  }

  /** Insertion that skips a row whose key is present. */
  function InsertNew(table: Table, c: Candle): Table {
    if KeyOf(c) in table then table else table[KeyOf(c) := c]
  }

  // ---------------------------------------------------------------- memory

  // What a processor holds: per symbol the candle in progress and the first
  // offset needed to rebuild it.
  datatype Memory = Memory(candles: map<string, Candle>, starts: map<string, nat>)

  const EMPTY_MEMORY := Memory(map[], map[])

  function Lookup(m: Memory, symbol: string): Option<Candle> {
    if symbol in m.candles then Some(m.candles[symbol]) else None
  }

  /** The candle a record completes, given the memory before it. */
  function Closes(m: Memory, r: Option<Tick>): Option<Candle> {
    match r
    case None => None
    case Some(t) => Completed(Lookup(m, t.symbol), t.timestamp)
  }

  /** The memory after a record at `offset`. */
  function Absorb(m: Memory, r: Option<Tick>, offset: nat): Memory {
    match r
    case None => m
    case Some(t) =>
      var current := Lookup(m, t.symbol);
      Memory(
        m.candles[t.symbol := Updated(current, t.symbol, t.price, 0.0, t.timestamp)],
        if SameMinute(current, t.timestamp) && t.symbol in m.starts then m.starts else m.starts[t.symbol := offset])
  }

  /** The memory of a reader that started empty at `base` and has read up to `n`. */
  function Fold(log: Log, base: nat, n: nat): Memory
    requires base <= n <= |log|
    decreases n
  {
    if n == base then EMPTY_MEMORY
    else Absorb(Fold(log, base, n - 1), log[n - 1], n - 1)
  }

  /** The table of a reader that has read the first `n` records without a failure. */
  function StoredBy(log: Log, n: nat): Table
    requires n <= |log|
  {
    if n == 0 then map[]
    else
      match Closes(Fold(log, 0, n - 1), log[n - 1])
      case None => StoredBy(log, n - 1)
      case Some(c) => InsertNew(StoredBy(log, n - 1), c)
  }

  ghost predicate WellFormed(m: Memory) {
    && m.candles.Keys == m.starts.Keys
    && (forall s :: s in m.candles ==> m.candles[s].symbol == s)
  }

  // ------------------------------------------------------------------ runs

  predicate Of(log: Log, i: nat, s: string)
    requires i < |log|
  {
    log[i].Some? && log[i].value.symbol == s
  }

  function MinuteAt(log: Log, i: nat): int
    requires i < |log| && log[i].Some?
  {
    MinuteStart(log[i].value.timestamp)
  }

  /** The last tick of `s` among the first `n` records. */
  function LastBefore(log: Log, s: string, n: nat): (last: Option<nat>)
    requires n <= |log|
    ensures last.Some? ==> last.value < n && Of(log, last.value, s)
    ensures last.Some? ==> forall k :: last.value < k < n ==> !Of(log, k, s)
    ensures last.None? ==> forall k :: 0 <= k < n ==> !Of(log, k, s)
  {
    if n == 0 then None
    else if Of(log, n - 1, s) then Some(n - 1)
    else LastBefore(log, s, n - 1)
  }

  /** The tick at `i` is the first of a block of ticks of `s` in one minute. */
  ghost predicate OpensRun(log: Log, s: string, i: nat) {
    && i < |log| && Of(log, i, s)
    && var previous := LastBefore(log, s, i);
       previous.Some? ==> MinuteAt(log, previous.value) != MinuteAt(log, i)
  }

  /** Every tick of `s` in [i, j) lies in the minute of the tick at `i`. */
  ghost predicate OneMinute(log: Log, s: string, i: nat, j: nat)
    requires i < j <= |log| && Of(log, i, s)
  {
    forall k :: i <= k < j && Of(log, k, s) ==> MinuteAt(log, k) == MinuteAt(log, i)
  }

  /** A maximal block of ticks of `s`, opened at `i` and ended by the tick at `j`. */
  ghost predicate ClosedRun(log: Log, s: string, i: nat, j: nat) {
    && i < j < |log|
    && OpensRun(log, s, i) && OneMinute(log, s, i, j)
    && Of(log, j, s) && MinuteAt(log, j) != MinuteAt(log, i)
  }

  /** `c` is the open, high, low and close of the ticks of `s` in [i, j). */
  ghost predicate IsBar(log: Log, s: string, i: nat, j: nat, c: Candle)
    requires i < j <= |log| && Of(log, i, s)
  {
    var last := LastBefore(log, s, j).value;
    && c.symbol == s && c.startTime == MinuteAt(log, i) && c.volume == 0.0
    && c.open == log[i].value.price && c.close == log[last].value.price
    && (forall k :: i <= k < j && Of(log, k, s) ==> c.low <= log[k].value.price <= c.high)
    && (exists k :: i <= k < j && Of(log, k, s) && log[k].value.price == c.high)
    && (exists k :: i <= k < j && Of(log, k, s) && log[k].value.price == c.low)
  }

  /** The run is the earliest closed run, among the first `n` records, of its symbol and minute. */
  ghost predicate FirstClosedRun(log: Log, n: nat, s: string, i: nat, j: nat) {
    && ClosedRun(log, s, i, j) && j < n
    && forall i', j' :: ClosedRun(log, s, i', j') && MinuteAt(log, i') == MinuteAt(log, i) ==> j <= j'
  }

  // ---------------------------------------------------------------- lemmas

  lemma {:induction false} FoldWellFormed(log: Log, base: nat, n: nat)
    requires base <= n <= |log|
    ensures WellFormed(Fold(log, base, n))
    ensures forall s :: s in Fold(log, base, n).starts ==> base <= Fold(log, base, n).starts[s] < n
    decreases n
  {
    if base < n {
      FoldWellFormed(log, base, n - 1);
    }
  }

  /** The candle and replay start held for `s` are those of its open run. */
  ghost predicate HoldsOpenRun(log: Log, n: nat, m: Memory, s: string)
    requires n <= |log|
  {
    && (s in m.candles <==> LastBefore(log, s, n).Some?)
    && (s in m.candles ==>
          && s in m.starts && m.starts[s] < n
          && OpensRun(log, s, m.starts[s])
          && OneMinute(log, s, m.starts[s], n)
          && m.starts[s] <= LastBefore(log, s, n).value
          && IsBar(log, s, m.starts[s], n, m.candles[s]))
  }

  lemma {:induction false} FoldHoldsOpenRuns(log: Log, n: nat, s: string)
    requires n <= |log|
    ensures HoldsOpenRun(log, n, Fold(log, 0, n), s)
    decreases n
  {
    if n > 0 {
      FoldHoldsOpenRuns(log, n - 1, s);
      FoldWellFormed(log, 0, n - 1);
      var m, m' := Fold(log, 0, n - 1), Fold(log, 0, n);
      if Of(log, n - 1, s) {
        OpenRunStep(log, n, m, m', s);
      } else {
        assert Lookup(m, s) == Lookup(m', s);
      }
    }
  }

  lemma OpenRunStep(log: Log, n: nat, m: Memory, m': Memory, s: string)
    requires 0 < n <= |log| && Of(log, n - 1, s)
    requires WellFormed(m) && HoldsOpenRun(log, n - 1, m, s)
    requires m' == Absorb(m, log[n - 1], n - 1)
    ensures HoldsOpenRun(log, n, m', s)
  {
    var t := log[n - 1].value;
    var c' := m'.candles[s];
    if SameMinute(Lookup(m, s), t.timestamp) {
      var i, c := m.starts[s], m.candles[s];
      assert m'.starts[s] == i;
      if c'.high == t.price {
        assert log[n - 1].value.price == c'.high;
      } else {
        var k :| i <= k < n - 1 && Of(log, k, s) && log[k].value.price == c.high;
      }
      if c'.low == t.price {
        assert log[n - 1].value.price == c'.low;
      } else {
        var k :| i <= k < n - 1 && Of(log, k, s) && log[k].value.price == c.low;
      }
    } else {
      assert m'.starts[s] == n - 1;
      assert log[n - 1].value.price == c'.high;
    }
  }

  /** Two runs of one symbol ended by the same tick are the same run. */
  lemma ClosedRunUnique(log: Log, s: string, i: nat, i': nat, j: nat)
    requires ClosedRun(log, s, i, j) && ClosedRun(log, s, i', j)
    ensures i == i'
  {
    if i < i' {
      NoOpeningInsideRun(log, s, i, i', j);
    }
    if i' < i {
      NoOpeningInsideRun(log, s, i', i, j);
    }
  }

  lemma NoOpeningInsideRun(log: Log, s: string, i: nat, i': nat, j: nat)
    requires i < i' < j <= |log| && Of(log, i, s) && OneMinute(log, s, i, j) && Of(log, i', s)
    ensures !OpensRun(log, s, i')
  {
    var p := LastBefore(log, s, i').value;
    assert i <= p < j && MinuteAt(log, p) == MinuteAt(log, i) == MinuteAt(log, i');
  }

  /** A record completes a candle exactly when it ends a run, and the candle is that run's bar. */
  lemma ClosesEndsRun(log: Log, j: nat)
    requires j < |log|
    ensures var closed := Closes(Fold(log, 0, j), log[j]);
      match closed
      case None => forall s, i :: !ClosedRun(log, s, i, j)
      case Some(c) =>
        && log[j].Some? && c.symbol == log[j].value.symbol && c.symbol in Fold(log, 0, j).starts
        && var i := Fold(log, 0, j).starts[c.symbol];
           ClosedRun(log, c.symbol, i, j) && IsBar(log, c.symbol, i, j, c)
  {
    if log[j].Some? {
      var s := log[j].value.symbol;
      var m := Fold(log, 0, j);
      FoldHoldsOpenRuns(log, j, s);
      FoldWellFormed(log, 0, j);
      if Closes(m, log[j]).None? {
        forall i: nat | i < j && OpensRun(log, s, i) && OneMinute(log, s, i, j)
          ensures MinuteAt(log, j) == MinuteAt(log, i)
        {
          var last := LastBefore(log, s, j).value;
          assert MinuteAt(log, last) == MinuteAt(log, m.starts[s]) == MinuteAt(log, j);
        }
      }
    }
  }

  /** Every row is the bar of the first closed run of its key. */
  ghost predicate RowsAreFirstRuns(log: Log, n: nat, table: Table)
    requires n <= |log|
  {
    forall key :: key in table ==>
      exists i, j :: FirstClosedRun(log, n, key.symbol, i, j) && MinuteAt(log, i) == key.time
                     && IsBar(log, key.symbol, i, j, table[key])
  }

  /** Every closed run has a row under its key. */
  ghost predicate RunsHaveRows(log: Log, n: nat, table: Table)
    requires n <= |log|
  {
    forall s, i: nat, j: nat :: ClosedRun(log, s, i, j) && j < n ==> Key(MinuteAt(log, i), s) in table
  }

  /** The account of the first n runs carries over when record n ends no run. */
  lemma NoRunEnds(log: Log, n: nat, table: Table)
    requires n < |log|
    requires RowsAreFirstRuns(log, n, table) && RunsHaveRows(log, n, table)
    requires forall s, i :: !ClosedRun(log, s, i, n)
    ensures RowsAreFirstRuns(log, n + 1, table) && RunsHaveRows(log, n + 1, table)
  {
    OldRowsStay(log, n, table);
  }

  lemma OldRowsStay(log: Log, n: nat, table: Table)
    requires n < |log|
    requires RowsAreFirstRuns(log, n, table)
    ensures RowsAreFirstRuns(log, n + 1, table)
  {
    forall key | key in table
      ensures exists i, j :: FirstClosedRun(log, n + 1, key.symbol, i, j) && MinuteAt(log, i) == key.time
                             && IsBar(log, key.symbol, i, j, table[key])
    {
      var i, j :| FirstClosedRun(log, n, key.symbol, i, j) && MinuteAt(log, i) == key.time
                  && IsBar(log, key.symbol, i, j, table[key]);
      assert FirstClosedRun(log, n + 1, key.symbol, i, j);
    }
  }

  /** The account carries over when record n ends a run and its bar is inserted. */
  lemma RunEnds(log: Log, n: nat, table: Table, i: nat, c: Candle)
    requires n < |log|
    requires RowsAreFirstRuns(log, n, table) && RunsHaveRows(log, n, table)
    requires ClosedRun(log, c.symbol, i, n) && IsBar(log, c.symbol, i, n, c)
    ensures RowsAreFirstRuns(log, n + 1, InsertNew(table, c)) && RunsHaveRows(log, n + 1, InsertNew(table, c))
  {
    NewRunHasRow(log, n, table, i, c);
    OldRowsStay(log, n, table);
    if KeyOf(c) !in table {
      NewRowIsFirst(log, n, table, i, c);
      NewRowJoins(log, n, table, i, c);
    }
  }

  lemma NewRunHasRow(log: Log, n: nat, table: Table, i: nat, c: Candle)
    requires n < |log| && RunsHaveRows(log, n, table)
    requires ClosedRun(log, c.symbol, i, n) && MinuteAt(log, i) == c.startTime
    ensures RunsHaveRows(log, n + 1, InsertNew(table, c))
  {
    forall s, i': nat | ClosedRun(log, s, i', n) ensures Key(MinuteAt(log, i'), s) == KeyOf(c) {
      ClosedRunUnique(log, s, i, i', n);
    }
  }

  lemma NewRowIsFirst(log: Log, n: nat, table: Table, i: nat, c: Candle)
    requires n < |log| && RunsHaveRows(log, n, table) && KeyOf(c) !in table
    requires ClosedRun(log, c.symbol, i, n) && MinuteAt(log, i) == c.startTime
    ensures FirstClosedRun(log, n + 1, c.symbol, i, n)
  {
    forall i': nat, j': nat | ClosedRun(log, c.symbol, i', j') && MinuteAt(log, i') == MinuteAt(log, i)
      ensures n <= j'
    {
      assert KeyOf(c) == Key(MinuteAt(log, i'), c.symbol);
    }
  }

  lemma NewRowJoins(log: Log, n: nat, table: Table, i: nat, c: Candle)
    requires n < |log| && KeyOf(c) !in table && RowsAreFirstRuns(log, n + 1, table)
    requires FirstClosedRun(log, n + 1, c.symbol, i, n) && IsBar(log, c.symbol, i, n, c)
    ensures RowsAreFirstRuns(log, n + 1, InsertNew(table, c))
  {
    forall key | key in InsertNew(table, c)
      ensures exists i, j :: FirstClosedRun(log, n + 1, key.symbol, i, j) && MinuteAt(log, i) == key.time
                             && IsBar(log, key.symbol, i, j, InsertNew(table, c)[key])
    {
      if key != KeyOf(c) {
        assert key in table && InsertNew(table, c)[key] == table[key];
      }
    }
  }

  /** An undisturbed reader stores, for each symbol and minute, the bar of the first closed run, and nothing else. */
  lemma {:induction false} StoredIsFirstRuns(log: Log, n: nat)
    requires n <= |log|
    ensures RowsAreFirstRuns(log, n, StoredBy(log, n))
    ensures RunsHaveRows(log, n, StoredBy(log, n))
    decreases n
  {
    if n > 0 {
      StoredIsFirstRuns(log, n - 1);
      StoredNext(log, n - 1);
      StoredStep(log, n - 1, StoredBy(log, n - 1));
    }
  }

  lemma StoredNext(log: Log, n: nat)
    requires n < |log|
    ensures StoredBy(log, n + 1) == AfterRecord(log, n, StoredBy(log, n))
  {
  }

  /** The table after record n, given the table before it. */
  function AfterRecord(log: Log, n: nat, table: Table): Table
    requires n < |log|
  {
    match Closes(Fold(log, 0, n), log[n])
    case None => table
    case Some(c) => InsertNew(table, c)
  }

  lemma StoredStep(log: Log, n: nat, table: Table)
    requires n < |log| && RowsAreFirstRuns(log, n, table) && RunsHaveRows(log, n, table)
    ensures RowsAreFirstRuns(log, n + 1, AfterRecord(log, n, table))
    ensures RunsHaveRows(log, n + 1, AfterRecord(log, n, table))
  {
    ClosesEndsRun(log, n);
    var m := Fold(log, 0, n);
    match Closes(m, log[n])
    case None => NoRunEnds(log, n, table);
    case Some(c) => RunEnds(log, n, table, m.starts[c.symbol], c);
  }

  /** A bar is determined by its ticks. */
  lemma BarUnique(log: Log, s: string, i: nat, j: nat, c: Candle, d: Candle)
    requires i < j <= |log| && Of(log, i, s)
    requires IsBar(log, s, i, j, c) && IsBar(log, s, i, j, d)
    ensures c == d
  {
    var kc :| i <= kc < j && Of(log, kc, s) && log[kc].value.price == c.high;
    var kd :| i <= kd < j && Of(log, kd, s) && log[kd].value.price == d.high;
    var lc :| i <= lc < j && Of(log, lc, s) && log[lc].value.price == c.low;
    var ld :| i <= ld < j && Of(log, ld, s) && log[ld].value.price == d.low;
  }

  /** The first-run account leaves no freedom: two tables that meet it are equal. */
  lemma FirstRunsDetermineTable(log: Log, n: nat, t: Table, u: Table)
    requires n <= |log|
    requires RowsAreFirstRuns(log, n, t) && RunsHaveRows(log, n, t)
    requires RowsAreFirstRuns(log, n, u) && RunsHaveRows(log, n, u)
    ensures t == u
  {
    SameRows(log, n, t, u);
    SameRows(log, n, u, t);
    EqualTables(t, u);
  }

  lemma EqualTables(t: Table, u: Table)
    requires forall key :: key in t ==> key in u && t[key] == u[key]
    requires forall key :: key in u ==> key in t
    ensures t == u
  {
    assert t.Keys == u.Keys;
  }

  lemma SameRows(log: Log, n: nat, t: Table, u: Table)
    requires n <= |log|
    requires RowsAreFirstRuns(log, n, t)
    requires RowsAreFirstRuns(log, n, u) && RunsHaveRows(log, n, u)
    ensures forall key :: key in t ==> key in u && t[key] == u[key]
  {
    forall key | key in t ensures key in u && t[key] == u[key] {
      var i: nat, j: nat :| FirstClosedRun(log, n, key.symbol, i, j) && MinuteAt(log, i) == key.time
                            && IsBar(log, key.symbol, i, j, t[key]);
      assert Key(MinuteAt(log, i), key.symbol) in u;
      SameRow(log, n, key, i, j, t[key], u);
    }
  }

  lemma SameRow(log: Log, n: nat, key: Key, i: nat, j: nat, c: Candle, u: Table)
    requires n <= |log| && key in u && RowsAreFirstRuns(log, n, u)
    requires FirstClosedRun(log, n, key.symbol, i, j) && MinuteAt(log, i) == key.time && IsBar(log, key.symbol, i, j, c)
    ensures c == u[key]
  {
    var i': nat, j': nat :| FirstClosedRun(log, n, key.symbol, i', j') && MinuteAt(log, i') == key.time
                            && IsBar(log, key.symbol, i', j', u[key]);
    assert j == j';
    ClosedRunUnique(log, key.symbol, i, i', j);
    BarUnique(log, key.symbol, i, j, c, u[key]);
  }

  /** Later appends change neither what has been read nor what has been stored. */
  lemma {:induction false} PrefixDetermines(log: Log, more: Log, base: nat, n: nat)
    requires base <= n <= |log|
    ensures Fold(log + more, base, n) == Fold(log, base, n)
    ensures base == 0 ==> StoredBy(log + more, n) == StoredBy(log, n)
    decreases n
  {
    if base < n {
      PrefixDetermines(log, more, base, n - 1);
      assert (log + more)[n - 1] == log[n - 1];
    }
  }
}
