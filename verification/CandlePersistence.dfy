// The flusher and the persistence layer as objects; each method is one stretch
// of code between two awaits, proved to make one move of PendingQueue.
module CandlePersistence {
  import opened Basics
  import opened PendingKeys
  import opened PendingStore
  import opened PendingQueue

  class CandleFlusher {
    const store: RocksPendingCandleStore
    const batchSize: Number
    var inFlight: Flush
    var enqueuedSinceFlush: nat
    var stopped: bool

    ghost function Now(): Flusher
      reads this
    {
      Flusher(batchSize, stopped, enqueuedSinceFlush, inFlight)
    }

    constructor (store: RocksPendingCandleStore, batchSize: Number)
      ensures this.store == store && Now() == Flusher(batchSize, false, 0, Idle)
    {
      this.store, this.batchSize := store, batchSize;
      inFlight, enqueuedSinceFlush, stopped := Idle, 0, false;
    }

    method Flush(readOk: bool)
      modifies this
      ensures Now() == Flushed(old(Now()), store.db, readOk)
    {
      if stopped || inFlight != Idle {
        return;
      }
      var pending := [];
      if readOk {
        pending := store.Peek(batchSize);
      }
      inFlight := Read(pending);
    }

    method NotifyEnqueued(readOk: bool)
      modifies this
      ensures Now() == Notified(old(Now()), store.db, readOk)
    {
      enqueuedSinceFlush := enqueuedSinceFlush + 1;
      if AtLeast(enqueuedSinceFlush, batchSize) {
        enqueuedSinceFlush := 0;
        Flush(readOk);
      }
    }

    method ContinueAfterRead()
      requires inFlight.Read?
      modifies this
      ensures Now() == AfterRead(old(Now()))
    {
      if inFlight.batch == [] {
        inFlight := Idle;
        return;
      }
      inFlight := Writing(inFlight.batch, false);
    }

    method ContinueAfterWrite(ok: bool)
      requires inFlight.Writing?
      modifies this
      ensures Now() == AfterWrite(old(Now()), ok)
    {
      if !ok {
        inFlight := Idle;
        return;
      }
      inFlight := Acking(inFlight.batch, false);
    }

    method Stop()
      modifies this
      ensures Now() == old(Now()).(stopped := true)
    {
      stopped := true;
    }
  }

  class CandlePersistenceLayer {
    // the database and the table outlive the process
    const store: RocksPendingCandleStore
    const batchSize: Number
    ghost const initial: Table
    var table: Table
    var strays: seq<seq<Entry>>
    // module state of the process
    var flusher: CandleFlusher?
    var closing: Closing
    var activeEnqueues: seq<Put>

    ghost predicate Valid()
      reads this, store, flusher
    {
      && (flusher != null ==> flusher.store == store && flusher.batchSize == batchSize)
      && Inv(initial, Now())
    }

    ghost function Now(): World
      reads this, store, flusher
    {
      World(batchSize, if flusher == null then None else Some(Process(flusher.Now(), closing)),
            store.db, table, activeEnqueues, strays)
    }

    constructor (store: RocksPendingCandleStore, batchSize: Number, initial: Table)
      requires store.db == map[]
      ensures Valid() && this.store == store && this.initial == initial && Now() == NewWorld(batchSize, initial)
    {
      this.store, this.batchSize, this.initial, table := store, batchSize, initial, initial;
      strays, flusher, closing, activeEnqueues := [], null, Accepting, [];
    }

    method StartCandlePersistence(readOk: bool)
      requires Valid()
      modifies this`flusher, this`closing
      ensures Valid() && Now() == Apply(old(Now()), Start(readOk))
      ensures old(flusher) == null ==> fresh(flusher)
    {
      if flusher != null {
        return;
      }
      MoveKeepsInv(initial, Now(), Start(readOk));
      var f := new CandleFlusher(store, batchSize);
      f.Flush(readOk);
      flusher, closing := f, Accepting;
    }

    /** Refused while closing, or with nothing started, or if the candle cannot be stored. */
    method EnqueueCandle(candle: Candle) returns (accepted: bool)
      requires Valid()
      modifies this`activeEnqueues
      ensures Valid() && Now() == Apply(old(Now()), Offer(candle))
      ensures accepted == (flusher != null && closing == Accepting && Storable(candle))
    {
      if flusher == null || closing != Accepting || !Storable(candle) {
        return false;
      }
      MoveKeepsInv(initial, Now(), Offer(candle));
      activeEnqueues := activeEnqueues + [Put(candle, false, Waiting)];
      accepted := true;
    }

    method EnqueueLands(i: nat)
      requires Valid() && Enabled(Now(), PutLands(i))
      modifies this`activeEnqueues, store
      ensures Valid() && Now() == After(old(Now()), PutLands(i))
    {
      MoveKeepsInv(initial, Now(), PutLands(i));
      var _ := store.Enqueue(activeEnqueues[i].candle, true, true);
      activeEnqueues := activeEnqueues[i := activeEnqueues[i].(landed := true)];
    }

    method EnqueueSettles(i: nat, ok: bool, readOk: bool)
      requires Valid() && Enabled(Now(), PutSettles(i, ok, readOk))
      modifies this`activeEnqueues, flusher
      ensures Valid() && Now() == After(old(Now()), PutSettles(i, ok, readOk))
    {
      MoveKeepsInv(initial, Now(), PutSettles(i, ok, readOk));
      activeEnqueues := activeEnqueues[i := activeEnqueues[i].(status := if ok then Resolved else Rejected)];
      if ok {
        flusher.NotifyEnqueued(readOk);
      }
    }

    method FlushTimer(readOk: bool)
      requires Valid() && flusher != null
      modifies flusher
      ensures Valid() && Now() == After(old(Now()), Timer(readOk))
    {
      MoveKeepsInv(initial, Now(), Timer(readOk));
      flusher.Flush(readOk);
    }

    method FlushContinuesAfterRead()
      requires Valid() && Enabled(Now(), ReadSettles)
      modifies flusher
      ensures Valid() && Now() == After(old(Now()), ReadSettles)
    {
      MoveKeepsInv(initial, Now(), ReadSettles);
      flusher.ContinueAfterRead();
    }

    method CreateManyLands()
      requires Valid() && Enabled(Now(), WriteLands)
      modifies this`table, flusher
      ensures Valid() && Now() == After(old(Now()), WriteLands)
    {
      MoveKeepsInv(initial, Now(), WriteLands);
      var rows := InsertRows(table, flusher.inFlight.batch);
      table, flusher.inFlight := rows, Writing(flusher.inFlight.batch, true);
    }

    static method InsertRows(table: Table, batch: seq<Entry>) returns (rows: Table)
      ensures rows == CreateMany(table, batch)
    {
      rows := table;
      for i := 0 to |batch|
        invariant rows == CreateMany(table, batch[..i])
      {
        assert batch[..i + 1][..i] == batch[..i];
        if RowOf(batch[i].candle) !in rows {
          rows := rows[RowOf(batch[i].candle) := batch[i].candle];
        }
      }
      assert batch[..|batch|] == batch;
    }

    method FlushContinuesAfterWrite(ok: bool)
      requires Valid() && Enabled(Now(), WriteSettles(ok))
      modifies this`strays, flusher
      ensures Valid() && Now() == After(old(Now()), WriteSettles(ok))
    {
      MoveKeepsInv(initial, Now(), WriteSettles(ok));
      strays := Abandoned(strays, flusher.inFlight);
      flusher.ContinueAfterWrite(ok);
    }

    method AckTakesEffect()
      requires Valid() && Enabled(Now(), AckLands)
      modifies store, flusher
      ensures Valid() && Now() == After(old(Now()), AckLands)
    {
      MoveKeepsInv(initial, Now(), AckLands);
      var batch := flusher.inFlight.batch;
      var _ := store.Ack(Keys(batch), true, true);
      assert Keys(batch) == [] ==> store.db == store.db - KeySet(Keys(batch));
      flusher.inFlight := Acking(batch, true);
    }

    method FlushEnds(ok: bool)
      requires Valid() && Enabled(Now(), AckSettles(ok))
      modifies flusher
      ensures Valid() && Now() == After(old(Now()), AckSettles(ok))
    {
      MoveKeepsInv(initial, Now(), AckSettles(ok));
      flusher.inFlight := Idle;
    }

    /** Nothing to do before start; a second call finds the flags set. */
    method CloseCandlePersistence()
      requires Valid()
      modifies this`closing, flusher
      ensures Valid() && Now() == Apply(old(Now()), CloseBegins)
    {
      if flusher == null || closing != Accepting {
        return;
      }
      MoveKeepsInv(initial, Now(), CloseBegins);
      closing := AwaitingFlush;
      flusher.Stop();
    }

    method ContinueAfterFlusherStopped()
      requires Valid() && Enabled(Now(), FlushAwaited)
      modifies this`closing
      ensures Valid() && Now() == After(old(Now()), FlushAwaited)
    {
      MoveKeepsInv(initial, Now(), FlushAwaited);
      closing := AwaitingPuts;
    }

    method ContinueAfterEnqueuesSettled()
      requires Valid() && Enabled(Now(), PutsAwaited)
      modifies this`flusher, this`closing
      ensures Valid() && Now() == After(old(Now()), PutsAwaited)
    {
      MoveKeepsInv(initial, Now(), PutsAwaited);
      flusher, closing := null, Accepting;
    }
  }
}
