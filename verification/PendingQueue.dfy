// The durable queue before the candle table: enqueues, the single-flight flush
// (candle.flusher.ts), and opening and closing the layer (candle.persistence.ts),
// under every interleaving, failure and crash.
module PendingQueue {
  import opened Basics
  import opened PendingKeys
  import opened PendingStore

  // ------------------------------------------------------------- candle table

  type Row = (Text, Number)

  type Table = map<Row, Candle>

  function RowOf(c: Candle): Row {
    (c.symbol, c.startTime)
  }

  /** createMany with skipDuplicates: rows that are there stay. */
  function CreateMany(table: Table, batch: seq<Entry>): Table {
    if batch == [] then table
    else
      var n := |batch| - 1;
      var before := CreateMany(table, batch[..n]);
      if RowOf(batch[n].candle) in before then before else before[RowOf(batch[n].candle) := batch[n].candle]
  }

  // ------------------------------------------------------------------- flusher

  // Where a flush is suspended. `landed` says that the operation it awaits has
  // taken effect. A read that fails goes on as one that finds nothing.
  datatype Flush =
    | Idle
    | Read(batch: seq<Entry>)
    | Writing(batch: seq<Entry>, landed: bool)
    | Acking(batch: seq<Entry>, landed: bool)

  datatype Flusher = Flusher(batchSize: Number, stopped: bool, enqueuedSinceFlush: nat, inFlight: Flush)

  predicate AtLeast(n: nat, limit: Number) {
    match limit
    case NaN => false
    case Infinite(negative) => negative
    case Finite(value) => n as real >= value
  }

  ghost function Flushed(f: Flusher, db: Db, readOk: bool): Flusher {
    if f.stopped || f.inFlight != Idle then f
    else f.(inFlight := Read(if readOk then Peeked(db, f.batchSize) else []))
  }

  ghost function Notified(f: Flusher, db: Db, readOk: bool): Flusher {
    var f' := f.(enqueuedSinceFlush := f.enqueuedSinceFlush + 1);
    if AtLeast(f'.enqueuedSinceFlush, f.batchSize) then Flushed(f'.(enqueuedSinceFlush := 0), db, readOk) else f'
  }

  function AfterRead(f: Flusher): Flusher
    requires f.inFlight.Read?
  {
    f.(inFlight := if f.inFlight.batch == [] then Idle else Writing(f.inFlight.batch, false))
  }

  function AfterWrite(f: Flusher, ok: bool): Flusher
    requires f.inFlight.Writing?
  {
    f.(inFlight := if ok then Acking(f.inFlight.batch, false) else Idle)
  }

  // --------------------------------------------------------------------- world

  datatype Status = Waiting | Resolved | Rejected | Lost

  // One enqueue: whether its write is durable, and what became of its promise.
  datatype Put = Put(candle: Candle, landed: bool, status: Status)

  datatype Closing = Accepting | AwaitingFlush | AwaitingPuts

  datatype Process = Process(flusher: Flusher, closing: Closing)

  // `strays` are batch writes that nobody waits for any more and that may still land.
  datatype World = World(
    batchSize: Number,
    process: Option<Process>,
    db: Db,
    table: Table,
    puts: seq<Put>,
    strays: seq<seq<Entry>>)

  function NewWorld(batchSize: Number, initial: Table): World {
    World(batchSize, None, map[], initial, [], [])
  }

  datatype Move =
    | Start(readOk: bool)
    | Offer(candle: Candle)
    | PutLands(put: nat)
    | PutSettles(put: nat, ok: bool, readOk: bool)
    | Timer(readOk: bool)
    | ReadSettles
    | WriteLands
    | WriteSettles(ok: bool)
    | AckLands
    | AckSettles(ok: bool)
    | CloseBegins
    | FlushAwaited
    | PutsAwaited
    | Crash
    | StrayLands(stray: nat)

  function KeyFor(c: Candle): string
    requires Storable(c)
  {
    CreateKey(c).value
  }

  function InFlight(w: World): Flush {
    if w.process.Some? then w.process.value.flusher.inFlight else Idle
  }

  predicate Enabled(w: World, m: Move) {
    match m
    case Start(_) => w.process.None?
    case Offer(_) => w.process.Some? && w.process.value.closing == Accepting
    case PutLands(i) => w.process.Some? && i < |w.puts| && w.puts[i].status == Waiting && Storable(w.puts[i].candle)
    case PutSettles(i, ok, _) =>
      w.process.Some? && i < |w.puts| && w.puts[i].status == Waiting && (ok ==> w.puts[i].landed)
    case Timer(_) => w.process.Some?
    case ReadSettles => InFlight(w).Read?
    case WriteLands => InFlight(w).Writing? && !InFlight(w).landed
    case WriteSettles(ok) => InFlight(w).Writing? && (ok ==> InFlight(w).landed)
    case AckLands => InFlight(w).Acking? && !InFlight(w).landed
    case AckSettles(ok) => InFlight(w).Acking? && (ok ==> InFlight(w).landed)
    case CloseBegins => w.process.Some? && w.process.value.closing == Accepting
    case FlushAwaited => w.process.Some? && w.process.value.closing == AwaitingFlush && InFlight(w) == Idle
    case PutsAwaited =>
      && w.process.Some? && w.process.value.closing == AwaitingPuts
      && forall i :: 0 <= i < |w.puts| ==> w.puts[i].status != Waiting
    case Crash => w.process.Some?
    case StrayLands(i) => i < |w.strays|
  }

  ghost function WithFlusher(w: World, f: Flusher): World
    requires w.process.Some?
  {
    w.(process := Some(w.process.value.(flusher := f)))
  }

  /** A write that is abandoned before it has landed may still land. */
  function Abandoned(strays: seq<seq<Entry>>, f: Flush): seq<seq<Entry>> {
    if f.Writing? && !f.landed then strays + [f.batch] else strays
  }

  function GivenUp(puts: seq<Put>): seq<Put> {
    seq(|puts|, i requires 0 <= i < |puts| => if puts[i].status == Waiting then puts[i].(status := Lost) else puts[i])
  }

  ghost function AfterFlusher(w: World, f: Flusher, m: Move): World
    requires w.process.Some? && f == w.process.value.flusher && Enabled(w, m)
    requires m.Timer? || m.ReadSettles? || m.WriteLands? || m.WriteSettles? || m.AckLands? || m.AckSettles?
  {
    match m
    case Timer(readOk) => WithFlusher(w, Flushed(f, w.db, readOk))
    case ReadSettles => WithFlusher(w, AfterRead(f))
    case WriteLands =>
      WithFlusher(w, f.(inFlight := Writing(f.inFlight.batch, true))).(table := CreateMany(w.table, f.inFlight.batch))
    case WriteSettles(ok) => WithFlusher(w, AfterWrite(f, ok)).(strays := Abandoned(w.strays, f.inFlight))
    case AckLands =>
      WithFlusher(w, f.(inFlight := Acking(f.inFlight.batch, true))).(db := w.db - KeySet(Keys(f.inFlight.batch)))
    case AckSettles(_) => WithFlusher(w, f.(inFlight := Idle))
  }

  ghost function After(w: World, m: Move): World
    requires Enabled(w, m)
  {
    match m
    case Start(readOk) =>
      w.(process := Some(Process(Flushed(Flusher(w.batchSize, false, 0, Idle), w.db, readOk), Accepting)))
    case Offer(candle) => if Storable(candle) then w.(puts := w.puts + [Put(candle, false, Waiting)]) else w
    case PutLands(i) =>
      w.(puts := w.puts[i := w.puts[i].(landed := true)], db := w.db[KeyFor(w.puts[i].candle) := w.puts[i].candle])
    case PutSettles(i, ok, readOk) =>
      var w' := w.(puts := w.puts[i := w.puts[i].(status := if ok then Resolved else Rejected)]);
      if ok then WithFlusher(w', Notified(w.process.value.flusher, w.db, readOk)) else w'
    case CloseBegins => w.(process := Some(Process(w.process.value.flusher.(stopped := true), AwaitingFlush)))
    case FlushAwaited => w.(process := Some(w.process.value.(closing := AwaitingPuts)))
    case PutsAwaited => w.(process := None)
    case Crash => w.(process := None, puts := GivenUp(w.puts), strays := Abandoned(w.strays, InFlight(w)))
    case StrayLands(i) => w.(table := CreateMany(w.table, w.strays[i]))
    case _ => AfterFlusher(w, w.process.value.flusher, m)
  }

  ghost function Apply(w: World, m: Move): World {
    if Enabled(w, m) then After(w, m) else w
  }

  ghost function Run(w: World, moves: seq<Move>): World {
    if moves == [] then w
    else Apply(Run(w, moves[..|moves| - 1]), moves[|moves| - 1])
  }

  // ----------------------------------------------------------------- invariant

  ghost predicate Offered(puts: seq<Put>, c: Candle) {
    exists i :: 0 <= i < |puts| && puts[i].candle == c
  }

  /** The candle's key is pending, or its row is in the table. */
  predicate Kept(db: Db, table: Table, c: Candle) {
    Storable(c) && (KeyFor(c) in db || RowOf(c) in table)
  }

  ghost predicate PutsInv(puts: seq<Put>, db: Db, table: Table) {
    forall i :: 0 <= i < |puts| ==>
      && Storable(puts[i].candle)
      && (puts[i].status == Resolved ==> puts[i].landed)
      && (puts[i].landed ==> Kept(db, table, puts[i].candle))
  }

  ghost predicate BatchInv(batch: seq<Entry>, puts: seq<Put>) {
    forall i :: 0 <= i < |batch| ==> Keyed(batch[i].candle, batch[i].key) && Offered(puts, batch[i].candle)
  }

  ghost predicate Written(batch: seq<Entry>, table: Table) {
    forall i :: 0 <= i < |batch| ==> RowOf(batch[i].candle) in table
  }

  ghost predicate FlushInv(f: Flush, puts: seq<Put>, table: Table) {
    match f
    case Idle => true
    case Read(batch) => BatchInv(batch, puts)
    case Writing(batch, landed) => BatchInv(batch, puts) && (landed ==> Written(batch, table))
    case Acking(batch, _) => BatchInv(batch, puts) && Written(batch, table)
  }

  ghost predicate DbInv(db: Db, puts: seq<Put>) {
    KeyedDb(db) && forall k :: k in db ==> Offered(puts, db[k])
  }

  /** Rows that were there before are untouched; all others hold an enqueued candle. */
  ghost predicate TableInv(initial: Table, table: Table, puts: seq<Put>) {
    && (forall r :: r in initial ==> r in table && table[r] == initial[r])
    && (forall r :: r in table && r !in initial ==> RowOf(table[r]) == r && Offered(puts, table[r]))
  }

  ghost predicate StraysInv(strays: seq<seq<Entry>>, puts: seq<Put>) {
    forall i :: 0 <= i < |strays| ==> BatchInv(strays[i], puts)
  }

  ghost predicate ProcessInv(p: Process, batchSize: Number) {
    && p.flusher.batchSize == batchSize
    && (p.closing != Accepting ==> p.flusher.stopped)
    && (p.closing == AwaitingPuts ==> p.flusher.inFlight == Idle)
  }

  ghost predicate Inv(initial: Table, w: World) {
    && PutsInv(w.puts, w.db, w.table)
    && FlushInv(InFlight(w), w.puts, w.table)
    && DbInv(w.db, w.puts)
    && TableInv(initial, w.table, w.puts)
    && StraysInv(w.strays, w.puts)
    && (w.process.Some? ==> ProcessInv(w.process.value, w.batchSize))
  }

  // -------------------------------------------------------------- preservation

  lemma {:induction false} CreateManyKeeps(table: Table, batch: seq<Entry>)
    ensures var t := CreateMany(table, batch);
      && (forall r :: r in table ==> r in t && t[r] == table[r])
      && Written(batch, t)
      && (forall r :: r in t && r !in table ==>
            exists i :: 0 <= i < |batch| && batch[i].candle == t[r] && RowOf(batch[i].candle) == r)
    decreases |batch|
  {
    if batch != [] {
      var n := |batch| - 1;
      CreateManyKeeps(table, batch[..n]);
      var before, t := CreateMany(table, batch[..n]), CreateMany(table, batch);
      forall r | r in t && r !in table
        ensures exists i :: 0 <= i < |batch| && batch[i].candle == t[r] && RowOf(batch[i].candle) == r
      {
        if r in before {
          var i :| 0 <= i < n && batch[..n][i].candle == before[r] && RowOf(batch[..n][i].candle) == r;
          assert batch[i].candle == t[r];
        } else {
          assert batch[n].candle == t[r];
        }
      }
      forall i | 0 <= i < |batch| ensures RowOf(batch[i].candle) in t {
        if i < n {
          assert RowOf(batch[..n][i].candle) in before;
        }
      }
    }
  }

  /** What is offered stays offered when enqueues are added or move on. */
  ghost predicate Grows(puts: seq<Put>, puts': seq<Put>) {
    |puts| <= |puts'| && forall i :: 0 <= i < |puts| ==> puts'[i].candle == puts[i].candle
  }

  lemma OfferedGrows(puts: seq<Put>, puts': seq<Put>, c: Candle)
    requires Grows(puts, puts') && Offered(puts, c)
    ensures Offered(puts', c)
  {
    var i :| 0 <= i < |puts| && puts[i].candle == c;
    assert puts'[i].candle == c;
  }

  lemma BatchGrows(batch: seq<Entry>, puts: seq<Put>, puts': seq<Put>)
    requires Grows(puts, puts') && BatchInv(batch, puts)
    ensures BatchInv(batch, puts')
  {
    forall i | 0 <= i < |batch| ensures Offered(puts', batch[i].candle) {
      OfferedGrows(puts, puts', batch[i].candle);
    }
  }

  lemma ValuesGrow(initial: Table, w: World, puts': seq<Put>)
    requires Inv(initial, w) && Grows(w.puts, puts')
    ensures FlushInv(InFlight(w), puts', w.table) && DbInv(w.db, puts')
    ensures TableInv(initial, w.table, puts') && StraysInv(w.strays, puts')
  {
    forall c | Offered(w.puts, c) ensures Offered(puts', c) {
      OfferedGrows(w.puts, puts', c);
    }
    forall batch | BatchInv(batch, w.puts) ensures BatchInv(batch, puts') {
      BatchGrows(batch, w.puts, puts');
    }
  }

  lemma PeekedFits(db: Db, limit: Number, puts: seq<Put>)
    requires DbInv(db, puts)
    ensures BatchInv(Peeked(db, limit), puts)
  {
  }

  lemma FlushedKeeps(f: Flusher, db: Db, readOk: bool, puts: seq<Put>, table: Table)
    requires FlushInv(f.inFlight, puts, table) && DbInv(db, puts)
    ensures FlushInv(Flushed(f, db, readOk).inFlight, puts, table)
    ensures Flushed(f, db, readOk).batchSize == f.batchSize && Flushed(f, db, readOk).stopped == f.stopped
    ensures f.stopped ==> Flushed(f, db, readOk) == f
  {
    PeekedFits(db, f.batchSize, puts);
  }

  lemma OfferKeepsInv(initial: Table, w: World, c: Candle)
    requires Inv(initial, w) && Enabled(w, Offer(c))
    ensures Inv(initial, After(w, Offer(c)))
  {
    ValuesGrow(initial, w, After(w, Offer(c)).puts);
  }

  lemma PutSettlesKeepsInv(initial: Table, w: World, i: nat, ok: bool, readOk: bool)
    requires Inv(initial, w) && Enabled(w, PutSettles(i, ok, readOk))
    ensures Inv(initial, After(w, PutSettles(i, ok, readOk)))
  {
    var puts' := After(w, PutSettles(i, ok, readOk)).puts;
    ValuesGrow(initial, w, puts');
    assert PutsInv(puts', w.db, w.table) by {
      assert forall j :: 0 <= j < |puts'| && j != i ==> puts'[j] == w.puts[j];
    }
    if ok {
      var f := w.process.value.flusher;
      FlushedKeeps(f.(enqueuedSinceFlush := 0), w.db, readOk, puts', w.table);
    }
  }

  lemma LandingKeepsPuts(puts: seq<Put>, db: Db, table: Table, i: nat)
    requires PutsInv(puts, db, table) && i < |puts|
    ensures PutsInv(puts[i := puts[i].(landed := true)], db[KeyFor(puts[i].candle) := puts[i].candle], table)
  {
  }

  lemma PutLandsKeepsInv(initial: Table, w: World, i: nat)
    requires Inv(initial, w) && Enabled(w, PutLands(i))
    ensures Inv(initial, After(w, PutLands(i)))
  {
    var w' := After(w, PutLands(i));
    ValuesGrow(initial, w, w'.puts);
    LandingKeepsPuts(w.puts, w.db, w.table, i);
    assert w'.puts[i].candle == w.puts[i].candle;
  }

  /** Writing a batch to the table keeps everything. */
  lemma CreateManyKeepsInv(initial: Table, w: World, batch: seq<Entry>)
    requires Inv(initial, w) && BatchInv(batch, w.puts)
    ensures Inv(initial, w.(table := CreateMany(w.table, batch))) && Written(batch, CreateMany(w.table, batch))
  {
    CreateManyKeeps(w.table, batch);
  }

  /** Acknowledging removes only keys whose rows are in the table. */
  lemma AckKeepsPut(db: Db, table: Table, batch: seq<Entry>, c: Candle)
    requires Kept(db, table, c) && Written(batch, table)
    requires forall i :: 0 <= i < |batch| ==> Keyed(batch[i].candle, batch[i].key)
    ensures Kept(db - KeySet(Keys(batch)), table, c)
  {
    if KeyFor(c) in KeySet(Keys(batch)) {
      var i :| 0 <= i < |batch| && Keys(batch)[i] == KeyFor(c);
      KeysInjective(c, batch[i].candle, KeyFor(c), batch[i].key);
      assert RowOf(c) == RowOf(batch[i].candle);
    }
  }

  lemma AckLandsKeepsInv(initial: Table, w: World)
    requires Inv(initial, w) && Enabled(w, AckLands)
    ensures Inv(initial, After(w, AckLands))
  {
    var w' := After(w, AckLands);
    var batch := InFlight(w).batch;
    forall i | 0 <= i < |w.puts| && w.puts[i].landed ensures Kept(w'.db, w.table, w.puts[i].candle) {
      AckKeepsPut(w.db, w.table, batch, w.puts[i].candle);
    }
  }

  lemma FlushMoveKeepsInv(initial: Table, w: World, m: Move)
    requires Inv(initial, w) && Enabled(w, m)
    requires m.Timer? || m.ReadSettles? || m.WriteSettles? || m.AckSettles?
    ensures Inv(initial, After(w, m))
  {
    if m.Timer? {
      FlushedKeeps(w.process.value.flusher, w.db, m.readOk, w.puts, w.table);
    }
  }

  lemma MoveKeepsInv(initial: Table, w: World, m: Move)
    requires Inv(initial, w) && Enabled(w, m)
    ensures Inv(initial, After(w, m))
  {
    match m
    case Start(readOk) => FlushedKeeps(Flusher(w.batchSize, false, 0, Idle), w.db, readOk, w.puts, w.table);
    case Offer(c) => OfferKeepsInv(initial, w, c);
    case PutSettles(i, ok, readOk) => PutSettlesKeepsInv(initial, w, i, ok, readOk);
    case PutLands(i) => PutLandsKeepsInv(initial, w, i);
    case WriteLands => CreateManyKeepsInv(initial, w, InFlight(w).batch);
    case StrayLands(i) => CreateManyKeepsInv(initial, w, w.strays[i]);
    case AckLands => AckLandsKeepsInv(initial, w);
    case Crash => ValuesGrow(initial, w, GivenUp(w.puts));
    case CloseBegins =>
    case FlushAwaited =>
    case PutsAwaited =>
    case _ => FlushMoveKeepsInv(initial, w, m);
  }

  lemma {:induction false} RunKeepsInv(initial: Table, w: World, moves: seq<Move>)
    requires Inv(initial, w)
    ensures Inv(initial, Run(w, moves))
    decreases |moves|
  {
    if moves != [] {
      RunKeepsInv(initial, w, moves[..|moves| - 1]);
      var before := Run(w, moves[..|moves| - 1]);
      if Enabled(before, moves[|moves| - 1]) {
        MoveKeepsInv(initial, before, moves[|moves| - 1]);
      }
    }
  }

  // -------------------------------------------------------------- main results

  /**
   * Under any interleaving, failure, close and crash: an enqueue whose write is
   * durable, as that of every one that resolved is, has its key pending or its row
   * in the table; pending values and new rows are candles that were enqueued, under
   * their own key; rows that were there stay.
   */
  lemma Conservation(batchSize: Number, initial: Table, moves: seq<Move>, i: nat, key: string, row: Row)
    ensures var w := Run(NewWorld(batchSize, initial), moves);
      && (i < |w.puts| && w.puts[i].landed ==> Kept(w.db, w.table, w.puts[i].candle))
      && (i < |w.puts| && w.puts[i].status == Resolved ==> w.puts[i].landed)
      && (key in w.db ==> Keyed(w.db[key], key) && Offered(w.puts, w.db[key]))
      && (row in initial ==> row in w.table && w.table[row] == initial[row])
      && (row in w.table && row !in initial ==> RowOf(w.table[row]) == row && Offered(w.puts, w.table[row]))
  {
    RunKeepsInv(initial, NewWorld(batchSize, initial), moves);
  }

  /** Once close() has begun, no enqueue is taken and no flush starts. */
  lemma ClosingStep(w: World, m: Move)
    requires w.process.Some? && w.process.value.closing != Accepting && w.process.value.flusher.stopped && Enabled(w, m)
    ensures |After(w, m).puts| == |w.puts|
    ensures InFlight(w) == Idle ==> InFlight(After(w, m)) == Idle
  {
    match m
    case Timer(_) =>
    case PutSettles(_, _, _) =>
    case _ =>
  }

  /**
   * When the store is closed no flush is in flight, and once close() has begun no
   * enqueue is taken and no flush starts.
   */
  lemma CloseIsQuiet(batchSize: Number, initial: Table, moves: seq<Move>, m: Move)
    ensures var w := Run(NewWorld(batchSize, initial), moves);
      && (Enabled(w, PutsAwaited) ==> InFlight(w) == Idle)
      && (w.process.Some? && w.process.value.closing != Accepting && Enabled(w, m) ==>
            && |After(w, m).puts| == |w.puts|
            && (InFlight(w) == Idle ==> InFlight(After(w, m)) == Idle))
  {
    RunKeepsInv(initial, NewWorld(batchSize, initial), moves);
    var w := Run(NewWorld(batchSize, initial), moves);
    if w.process.Some? && w.process.value.closing != Accepting && Enabled(w, m) {
      ClosingStep(w, m);
    }
  }

  // ------------------------------------------------------------------- trigger

  ghost function NotifiedTimes(f: Flusher, db: Db, readOk: bool, k: nat): Flusher {
    if k == 0 then f else Notified(NotifiedTimes(f, db, readOk, k - 1), db, readOk)
  }

  /**
   * From a zero count, the batch-size-th enqueue asks for a flush and counting
   * starts over; none before it does. A flush that is asked for while another is in
   * flight, or after stop(), is not made up for.
   */
  lemma {:induction false} BatchTriggersFlush(f: Flusher, db: Db, readOk: bool, k: nat)
    requires f.enqueuedSinceFlush == 0 && k <= Wanted(f.batchSize) && 0 < Wanted(f.batchSize)
    ensures NotifiedTimes(f, db, readOk, k)
            == if k < Wanted(f.batchSize) then f.(enqueuedSinceFlush := k)
               else if f.stopped || f.inFlight != Idle then f
               else f.(inFlight := Read(if readOk then Peeked(db, f.batchSize) else []))
    decreases k
  {
    if k > 0 {
      BatchTriggersFlush(f, db, readOk, k - 1);
    }
  }

  // --------------------------------------------------------------------- drain

  /** How many acknowledgements take effect in a run. */
  ghost function Acks(w: World, moves: seq<Move>): nat {
    if moves == [] then 0
    else
      var before, m := moves[..|moves| - 1], moves[|moves| - 1];
      Acks(w, before) + if m.AckLands? && Enabled(Run(w, before), m) then 1 else 0
  }

  /** No enqueue is on its way, and a flush in flight works on what peek() would return now. */
  ghost predicate Undisturbed(w: World) {
    && (forall i :: 0 <= i < |w.puts| ==> w.puts[i].status != Waiting)
    && match InFlight(w)
       case Idle => true
       case Read(batch) => batch == [] || batch == Peeked(w.db, w.batchSize)
       case Writing(batch, _) => batch == Peeked(w.db, w.batchSize)
       case Acking(batch, landed) => landed || batch == Peeked(w.db, w.batchSize)
  }

  /** What is left of `n` after taking `k`. */
  function Left(n: nat, k: nat): nat {
    if k <= n then n - k else 0
  }

  lemma PeekedRemoved(db: Db, limit: Number)
    requires KeyedDb(db)
    ensures |db - KeySet(Keys(Peeked(db, limit)))| == Left(|db|, Wanted(limit))
  {
    PeekReturnsOldest(db, limit);
    var taken := KeySet(Keys(Peeked(db, limit)));
    assert taken <= db.Keys;
    assert (db - taken).Keys == db.Keys - taken;
  }

  lemma AckDrains(initial: Table, w: World)
    requires Inv(initial, w) && Undisturbed(w) && Enabled(w, AckLands)
    ensures Undisturbed(After(w, AckLands)) && |After(w, AckLands).db| == Left(|w.db|, Wanted(w.batchSize))
  {
    PeekedRemoved(w.db, w.batchSize);
  }

  lemma OtherMovesKeepDb(initial: Table, w: World, m: Move)
    requires Inv(initial, w) && Undisturbed(w) && !m.Offer? && !m.AckLands? && Enabled(w, m)
    ensures Undisturbed(After(w, m)) && After(w, m).db == w.db
  {
    match m
    case Start(_) =>
    case Timer(_) =>
    case ReadSettles =>
    case WriteLands =>
    case WriteSettles(_) =>
    case AckSettles(_) =>
    case Crash =>
    case _ =>
  }

  lemma DrainStep(initial: Table, w: World, m: Move)
    requires Inv(initial, w) && Undisturbed(w) && !m.Offer?
    ensures Undisturbed(Apply(w, m)) && Apply(w, m).batchSize == w.batchSize
    ensures |Apply(w, m).db| == if m.AckLands? && Enabled(w, m) then Left(|w.db|, Wanted(w.batchSize)) else |w.db|
  {
    if Enabled(w, m) {
      if m.AckLands? { AckDrains(initial, w); } else { OtherMovesKeepDb(initial, w, m); }
    }
  }

  /** What is left of `size` after taking `n`, `rounds` times. */
  function LeftAfter(size: nat, rounds: nat, n: nat): nat {
    if rounds == 0 then size else Left(LeftAfter(size, rounds - 1, n), n)
  }

  lemma {:induction false} LeftAfterProduct(size: nat, rounds: nat, n: nat)
    ensures LeftAfter(size, rounds, n) == Left(size, rounds * n)
    decreases rounds
  {
    if rounds > 0 {
      LeftAfterProduct(size, rounds - 1, n);
      assert rounds * n == (rounds - 1) * n + n;
    }
  }

  lemma {:induction false} DrainsByRounds(initial: Table, w: World, moves: seq<Move>)
    requires Inv(initial, w) && Undisturbed(w)
    requires forall i :: 0 <= i < |moves| ==> !moves[i].Offer?
    ensures Undisturbed(Run(w, moves)) && Run(w, moves).batchSize == w.batchSize
    ensures |Run(w, moves).db| == LeftAfter(|w.db|, Acks(w, moves), Wanted(w.batchSize))
    decreases |moves|
  {
    if moves != [] {
      var before, m := moves[..|moves| - 1], moves[|moves| - 1];
      DrainsByRounds(initial, w, before);
      RunKeepsInv(initial, w, before);
      DrainStep(initial, Run(w, before), m);
      assert moves == before + [m];
      RunMore(w, before, m);
      DrainMore(w, before, m, |w.db|, Wanted(w.batchSize));
    }
  }

  lemma DrainMore(w: World, before: seq<Move>, m: Move, size: nat, n: nat)
    requires |Run(w, before).db| == LeftAfter(size, Acks(w, before), n)
    requires var b := Run(w, before);
      |Apply(b, m).db| == if m.AckLands? && Enabled(b, m) then Left(|b.db|, n) else |b.db|
    ensures |Run(w, before + [m]).db| == LeftAfter(size, Acks(w, before + [m]), n)
  {
    RunMore(w, before, m);
    OneMoreRound(size, n, Acks(w, before), |Run(w, before).db|, m.AckLands? && Enabled(Run(w, before), m));
  }

  lemma OneMoreRound(size: nat, n: nat, rounds: nat, left: nat, took: bool)
    requires left == LeftAfter(size, rounds, n)
    ensures LeftAfter(size, rounds + if took then 1 else 0, n) == if took then Left(left, n) else left
  {
  }

  /**
   * With no enqueue on its way and none offered, whatever else happens, every
   * acknowledgement takes one batch off the store. So a positive whole batch size
   * empties it in the end, and any other never takes anything.
   */
  lemma Drains(initial: Table, w: World, moves: seq<Move>)
    requires Inv(initial, w) && Undisturbed(w)
    requires forall i :: 0 <= i < |moves| ==> !moves[i].Offer?
    ensures |Run(w, moves).db| == Left(|w.db|, Acks(w, moves) * Wanted(w.batchSize))
  {
    DrainsByRounds(initial, w, moves);
    LeftAfterProduct(|w.db|, Acks(w, moves), Wanted(w.batchSize));
  }

  /** Once the store is empty, every enqueue whose write was durable has its row in the table. */
  lemma DrainedIsStored(batchSize: Number, initial: Table, moves: seq<Move>, more: seq<Move>, i: nat)
    requires var w := Run(NewWorld(batchSize, initial), moves);
      Undisturbed(w) && Acks(w, more) * Wanted(batchSize) >= |w.db|
    requires forall j :: 0 <= j < |more| ==> !more[j].Offer?
    ensures var w := Run(Run(NewWorld(batchSize, initial), moves), more);
      && w.db == map[]
      && (i < |w.puts| && w.puts[i].landed ==> RowOf(w.puts[i].candle) in w.table)
  {
    var w := Run(NewWorld(batchSize, initial), moves);
    RunKeepsInv(initial, NewWorld(batchSize, initial), moves);
    RunKeepsBatchSize(NewWorld(batchSize, initial), moves);
    RunKeepsInv(initial, w, more);
    Drains(initial, w, more);
  }

  lemma {:induction false} RunKeepsBatchSize(w: World, moves: seq<Move>)
    ensures Run(w, moves).batchSize == w.batchSize
    decreases |moves|
  {
    if moves != [] {
      RunKeepsBatchSize(w, moves[..|moves| - 1]);
    }
  }

  const ROUND := [Timer(true), ReadSettles, WriteLands, WriteSettles(true), AckLands, AckSettles(true)]

  lemma RunMore(w: World, moves: seq<Move>, m: Move)
    ensures Run(w, moves + [m]) == Apply(Run(w, moves), m)
    ensures Acks(w, moves + [m]) == Acks(w, moves) + if m.AckLands? && Enabled(Run(w, moves), m) then 1 else 0
  {
    assert (moves + [m])[..|moves|] == moves;
  }

  /** A process runs, and its next flush can begin. */
  ghost predicate CanFlush(w: World) {
    && w.process.Some? && !w.process.value.flusher.stopped && InFlight(w) == Idle
    && w.process.value.flusher.batchSize == w.batchSize
  }

  /** A flush that meets no failure moves the oldest candles to the table, and the next can begin. */
  lemma RoundSucceeds(w: World)
    requires CanFlush(w) && Peeked(w.db, w.batchSize) != []
    ensures var batch := Peeked(w.db, w.batchSize);
      Run(w, ROUND) == w.(db := w.db - KeySet(Keys(batch)), table := CreateMany(w.table, batch))
    ensures Acks(w, ROUND) == 1
  {
    RoundPrefix(w, 6);
    PrefixIsRound();
    AfterRound(w);
  }

  /** The first `i` moves of a round. */
  function Prefix(i: nat): seq<Move>
    requires i <= 6
  {
    if i == 0 then [] else Prefix(i - 1) + [ROUND[i - 1]]
  }

  lemma PrefixIsRound()
    ensures Prefix(6) == ROUND
  {
    assert Prefix(2) == [Timer(true), ReadSettles];
    assert Prefix(4) == Prefix(2) + [WriteLands, WriteSettles(true)];
  }

  lemma AfterRound(w: World)
    requires CanFlush(w)
    ensures var batch := Peeked(w.db, w.batchSize);
      Halfway(w, 6) == w.(db := w.db - KeySet(Keys(batch)), table := CreateMany(w.table, batch))
    ensures Halfway(w, 0) == w
  {
  }

  lemma {:induction false} RoundPrefix(w: World, i: nat)
    requires i <= 6 && CanFlush(w) && Peeked(w.db, w.batchSize) != []
    ensures RoundReached(w, Prefix(i), i)
    decreases i
  {
    if i == 0 {
      AfterRound(w);
    } else {
      RoundPrefix(w, i - 1);
      RoundMore(w, Prefix(i - 1), i - 1);
    }
  }

  ghost predicate RoundReached(w: World, moves: seq<Move>, i: nat)
    requires i <= 6 && w.process.Some?
  {
    Run(w, moves) == Halfway(w, i) && Acks(w, moves) == if i > 4 then 1 else 0
  }

  lemma RoundMore(w: World, before: seq<Move>, i: nat)
    requires i < 6 && CanFlush(w) && Peeked(w.db, w.batchSize) != [] && RoundReached(w, before, i)
    ensures RoundReached(w, before + [ROUND[i]], i + 1)
  {
    RunMore(w, before, ROUND[i]);
    RoundStep(w, i);
  }

  /** The world after `i` moves of a round. */
  ghost function Halfway(w: World, i: nat): World
    requires w.process.Some? && i <= 6
  {
    var f, batch := w.process.value.flusher, Peeked(w.db, w.batchSize);
    var at := match i
      case 1 => Read(batch)
      case 2 => Writing(batch, false)
      case 3 => Writing(batch, true)
      case 4 => Acking(batch, false)
      case 5 => Acking(batch, true)
      case _ => Idle;
    WithFlusher(w, f.(inFlight := at)).(
      table := if i >= 3 then CreateMany(w.table, batch) else w.table,
      db := if i >= 5 then w.db - KeySet(Keys(batch)) else w.db)
  }

  lemma RoundReads(w: World)
    requires CanFlush(w) && Peeked(w.db, w.batchSize) != []
    ensures Enabled(Halfway(w, 0), Timer(true)) && After(Halfway(w, 0), Timer(true)) == Halfway(w, 1)
    ensures Enabled(Halfway(w, 1), ReadSettles) && After(Halfway(w, 1), ReadSettles) == Halfway(w, 2)
  {
  }

  lemma RoundWrites(w: World)
    requires CanFlush(w)
    ensures Enabled(Halfway(w, 2), WriteLands) && After(Halfway(w, 2), WriteLands) == Halfway(w, 3)
    ensures Enabled(Halfway(w, 3), WriteSettles(true)) && After(Halfway(w, 3), WriteSettles(true)) == Halfway(w, 4)
  {
  }

  lemma RoundAcks(w: World)
    requires CanFlush(w)
    ensures Enabled(Halfway(w, 4), AckLands) && After(Halfway(w, 4), AckLands) == Halfway(w, 5)
    ensures Enabled(Halfway(w, 5), AckSettles(true)) && After(Halfway(w, 5), AckSettles(true)) == Halfway(w, 6)
  {
  }

  lemma RoundStep(w: World, i: nat)
    requires i < 6 && CanFlush(w) && Peeked(w.db, w.batchSize) != []
    ensures Enabled(Halfway(w, i), ROUND[i]) && After(Halfway(w, i), ROUND[i]) == Halfway(w, i + 1)
  {
    match i
    case 0 => RoundReads(w);
    case 1 => RoundReads(w);
    case 2 => RoundWrites(w);
    case 3 => RoundWrites(w);
    case 4 => RoundAcks(w);
    case 5 => RoundAcks(w);
  }

  /** A round that finds nothing changes nothing. */
  lemma EmptyRound(w: World)
    requires CanFlush(w) && Peeked(w.db, w.batchSize) == []
    ensures Run(w, ROUND) == w
  {
    EmptyPrefix(w, 6);
    PrefixIsRound();
  }

  ghost function FoundNothing(w: World): World
    requires w.process.Some?
  {
    WithFlusher(w, w.process.value.flusher.(inFlight := Read([])))
  }

  lemma {:induction false} EmptyPrefix(w: World, i: nat)
    requires i <= 6 && CanFlush(w) && Peeked(w.db, w.batchSize) == []
    ensures Run(w, Prefix(i)) == if i == 1 then FoundNothing(w) else w
    decreases i
  {
    if i > 0 {
      EmptyPrefix(w, i - 1);
      RunMore(w, Prefix(i - 1), ROUND[i - 1]);
      EmptyStep(w, i - 1);
    }
  }

  lemma EmptyStep(w: World, i: nat)
    requires i < 6 && CanFlush(w) && Peeked(w.db, w.batchSize) == []
    ensures Apply(if i == 1 then FoundNothing(w) else w, ROUND[i]) == if i == 0 then FoundNothing(w) else w
  {
  }

  /** `w'` is ready for a flush, with `left` candles of those of `w` left. */
  ghost predicate Drained(w: World, w': World, left: nat) {
    CanFlush(w') && KeyedDb(w'.db) && w'.batchSize == w.batchSize && |w'.db| == left
  }

  lemma RoundDrains(w: World)
    requires CanFlush(w) && KeyedDb(w.db)
    ensures Drained(w, Run(w, ROUND), Left(|w.db|, Wanted(w.batchSize)))
  {
    PeekReturnsOldest(w.db, w.batchSize);
    if Peeked(w.db, w.batchSize) == [] {
      EmptyRound(w);
    } else {
      RoundSucceeds(w);
      PeekedRemoved(w.db, w.batchSize);
    }
  }

  /** The world after `k` rounds. */
  ghost function AfterRounds(w: World, k: nat): World {
    if k == 0 then w else Run(AfterRounds(w, k - 1), ROUND)
  }

  lemma NextRound(w: World, k: nat)
    requires k > 0
    ensures AfterRounds(w, k) == Run(AfterRounds(w, k - 1), ROUND)
  {
  }

  lemma NextLeft(size: nat, k: nat, n: nat)
    requires k > 0
    ensures LeftAfter(size, k, n) == Left(LeftAfter(size, k - 1, n), n)
  {
  }

  /** If `left` candles are left before a round, one batch fewer is left after it. */
  lemma RoundTakesBatch(w: World, w': World, left: nat)
    requires Drained(w, w', left)
    ensures Drained(w, Run(w', ROUND), Left(left, Wanted(w.batchSize)))
  {
    RoundDrains(w');
  }

  lemma {:induction false} RoundsDrain(w: World, k: nat) returns (left: nat)
    requires CanFlush(w) && KeyedDb(w.db)
    ensures left == LeftAfter(|w.db|, k, Wanted(w.batchSize)) && Drained(w, AfterRounds(w, k), left)
    decreases k
  {
    if k == 0 {
      left := |w.db|;
    } else {
      left := RoundsDrain(w, k - 1);
      RoundTakesBatch(w, AfterRounds(w, k - 1), left);
      NextRound(w, k);
      NextLeft(|w.db|, k, Wanted(w.batchSize));
      left := Left(left, Wanted(w.batchSize));
    }
  }

  /** k flushes without failure and without new enqueues empty the store exactly if k batches reach its size. */
  lemma RoundsEmptyStore(w: World, k: nat)
    requires CanFlush(w) && KeyedDb(w.db)
    ensures AfterRounds(w, k).db == map[] <==> k * Wanted(w.batchSize) >= |w.db|
  {
    var left := RoundsDrain(w, k);
    LeftAfterProduct(|w.db|, k, Wanted(w.batchSize));
  }
}
