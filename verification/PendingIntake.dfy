// What enters the durable queue and what becomes of it: which offered candles are
// taken, when their enqueues resolve, which flush they ask for, and how a restart
// and a close go on.
module PendingIntake {
  import opened Basics
  import opened PendingKeys
  import opened PendingStore
  import opened PendingQueue

  ghost function Reached(batchSize: Number, initial: Table, moves: seq<Move>): World {
    Run(NewWorld(batchSize, initial), moves)
  }

  lemma ReachedInv(batchSize: Number, initial: Table, moves: seq<Move>)
    ensures Inv(initial, Reached(batchSize, initial, moves))
    ensures Reached(batchSize, initial, moves).batchSize == batchSize
  {
    RunKeepsInv(initial, NewWorld(batchSize, initial), moves);
    RunKeepsBatchSize(NewWorld(batchSize, initial), moves);
  }

  lemma LastMove(moves: seq<Move>, more: seq<Move>)
    requires more != []
    ensures moves + more == moves + more[..|more| - 1] + [more[|more| - 1]]
    ensures more == more[..|more| - 1] + [more[|more| - 1]]
  {
  }

  lemma {:induction false} RunJoins(w: World, moves: seq<Move>, more: seq<Move>)
    ensures Run(w, moves + more) == Run(Run(w, moves), more)
    decreases |more|
  {
    if more == [] {
      assert moves + more == moves;
    } else {
      var before, m := more[..|more| - 1], more[|more| - 1];
      LastMove(moves, more);
      RunJoins(w, moves, before);
      RunMore(w, moves + before, m);
      RunMore(Run(w, moves), before, m);
    }
  }

  // -------------------------------------------------------------------- intake

  /** A layer is started and close() has not been called on it. */
  ghost predicate Accepts(w: World) {
    w.process.Some? && w.process.value.closing == Accepting
  }

  /** Move k starts a layer that no later close() or crash ends. */
  ghost predicate StartedAt(batchSize: Number, initial: Table, moves: seq<Move>, k: nat) {
    && k < |moves| && moves[k].Start? && Reached(batchSize, initial, moves[..k]).process.None?
    && forall j :: k < j < |moves| ==> !moves[j].CloseBegins? && !moves[j].Crash?
  }

  ghost predicate Started(batchSize: Number, initial: Table, moves: seq<Move>) {
    exists k: nat :: StartedAt(batchSize, initial, moves, k)
  }

  lemma AcceptsStep(w: World, m: Move)
    ensures Accepts(Apply(w, m)) <==>
              (m.Start? && w.process.None?) || (Accepts(w) && !m.CloseBegins? && !m.Crash?)
  {
  }

  lemma StartedBefore(batchSize: Number, initial: Table, before: seq<Move>, m: Move, k: nat)
    requires k < |before|
    ensures StartedAt(batchSize, initial, before + [m], k) <==>
              StartedAt(batchSize, initial, before, k) && !m.CloseBegins? && !m.Crash?
  {
    var moves := before + [m];
    assert moves[..k] == before[..k] && moves[|before|] == m;
    assert forall j :: 0 <= j < |before| ==> moves[j] == before[j];
  }

  lemma StartedMore(batchSize: Number, initial: Table, before: seq<Move>, m: Move)
    ensures Started(batchSize, initial, before + [m]) <==>
              || (m.Start? && Reached(batchSize, initial, before).process.None?)
              || (Started(batchSize, initial, before) && !m.CloseBegins? && !m.Crash?)
  {
    var moves := before + [m];
    assert moves[..|before|] == before;
    if m.Start? && Reached(batchSize, initial, before).process.None? {
      assert StartedAt(batchSize, initial, moves, |before|);
    }
    if k: nat :| StartedAt(batchSize, initial, before, k) {
      StartedBefore(batchSize, initial, before, m, k);
    }
    if k: nat :| StartedAt(batchSize, initial, moves, k) && k < |before| {
      StartedBefore(batchSize, initial, before, m, k);
    }
  }

  /** Enqueues are taken exactly from the start of a layer to the close() or the crash that ends it. */
  lemma {:induction false} AcceptsFromStartToClose(batchSize: Number, initial: Table, moves: seq<Move>)
    ensures Accepts(Reached(batchSize, initial, moves)) <==>
              exists k: nat :: StartedAt(batchSize, initial, moves, k)
    decreases |moves|
  {
    if moves != [] {
      var before, m := moves[..|moves| - 1], moves[|moves| - 1];
      assert moves == before + [m];
      AcceptsFromStartToClose(batchSize, initial, before);
      StartedMore(batchSize, initial, before, m);
      RunMore(NewWorld(batchSize, initial), before, m);
      AcceptsStep(Reached(batchSize, initial, before), m);
    }
  }

  /** The storable candles that were offered while enqueues were taken, in order. */
  ghost function AcceptedOffers(batchSize: Number, initial: Table, moves: seq<Move>): seq<Candle> {
    if moves == [] then []
    else
      var before, m := moves[..|moves| - 1], moves[|moves| - 1];
      AcceptedOffers(batchSize, initial, before)
      + if m.Offer? && Storable(m.candle) && Accepts(Reached(batchSize, initial, before)) then [m.candle] else []
  }

  function CandlesOf(puts: seq<Put>): (candles: seq<Candle>)
    ensures |candles| == |puts| && forall i :: 0 <= i < |puts| ==> candles[i] == puts[i].candle
  {
    seq(|puts|, i requires 0 <= i < |puts| => puts[i].candle)
  }

  lemma IntakeStep(w: World, m: Move)
    ensures CandlesOf(Apply(w, m).puts)
            == CandlesOf(w.puts) + if m.Offer? && Storable(m.candle) && Accepts(w) then [m.candle] else []
  {
  }

  /** The enqueues under way or done are those of exactly the candles that were accepted, in order. */
  lemma {:induction false} EveryAcceptedIsQueued(batchSize: Number, initial: Table, moves: seq<Move>)
    ensures CandlesOf(Reached(batchSize, initial, moves).puts) == AcceptedOffers(batchSize, initial, moves)
    decreases |moves|
  {
    if moves != [] {
      var before, m := moves[..|moves| - 1], moves[|moves| - 1];
      EveryAcceptedIsQueued(batchSize, initial, before);
      IntakeStep(Reached(batchSize, initial, before), m);
    }
  }

  lemma AcceptedStay(batchSize: Number, initial: Table, moves: seq<Move>, more: seq<Move>)
    ensures AcceptedOffers(batchSize, initial, moves) <= AcceptedOffers(batchSize, initial, moves + more)
    decreases |more|
  {
    if more == [] {
      assert moves + more == moves;
    } else {
      assert (moves + more)[..|moves + more| - 1] == moves + more[..|more| - 1];
      AcceptedStay(batchSize, initial, moves, more[..|more| - 1]);
    }
  }

  /** The write of enqueue i may land, and makes the candle's key pending with it. */
  ghost predicate CanLand(w: World, i: nat, c: Candle)
    requires Storable(c)
  {
    && Enabled(w, PutLands(i))
    && After(w, PutLands(i)).db == w.db[KeyFor(c) := c]
    && After(w, PutLands(i)).puts[i].landed
  }

  lemma LandsUnderKey(w: World, i: nat)
    requires w.process.Some? && i < |w.puts| && w.puts[i].status == Waiting && Storable(w.puts[i].candle)
    ensures CanLand(w, i, w.puts[i].candle)
  {
  }

  /**
   * An accepted candle has an enqueue of its own. Whatever happens, for as long as
   * that is waiting its write may land, which makes exactly this key pending with
   * exactly this candle.
   */
  lemma AcceptedCandleCanLand(batchSize: Number, initial: Table, moves: seq<Move>, c: Candle, more: seq<Move>)
    requires Accepts(Reached(batchSize, initial, moves)) && Storable(c)
    ensures var i := |Reached(batchSize, initial, moves).puts|;
      var w := Reached(batchSize, initial, moves + [Offer(c)] + more);
      && i < |w.puts| && w.puts[i].candle == c
      && (w.puts[i].status == Waiting ==> CanLand(w, i, c))
  {
    var i := |Reached(batchSize, initial, moves).puts|;
    var w := Reached(batchSize, initial, moves + [Offer(c)] + more);
    EveryAcceptedIsQueued(batchSize, initial, moves);
    EveryAcceptedIsQueued(batchSize, initial, moves + [Offer(c)] + more);
    assert (moves + [Offer(c)])[..|moves|] == moves;
    assert AcceptedOffers(batchSize, initial, moves + [Offer(c)]) == AcceptedOffers(batchSize, initial, moves) + [c];
    AcceptedStay(batchSize, initial, moves + [Offer(c)], more);
    assert CandlesOf(w.puts)[i] == c;
    WaitingHasProcess(batchSize, initial, moves + [Offer(c)] + more, i);
    if w.puts[i].status == Waiting {
      LandsUnderKey(w, i);
    }
  }

  lemma {:induction false} WaitingHasProcess(batchSize: Number, initial: Table, moves: seq<Move>, i: nat)
    ensures var w := Reached(batchSize, initial, moves);
      i < |w.puts| && w.puts[i].status == Waiting ==> w.process.Some?
    decreases |moves|
  {
    if moves != [] {
      WaitingHasProcess(batchSize, initial, moves[..|moves| - 1], i);
      WaitingStep(Reached(batchSize, initial, moves[..|moves| - 1]), moves[|moves| - 1], i);
    }
  }

  lemma WaitingStep(w: World, m: Move, i: nat)
    requires i < |w.puts| && w.puts[i].status == Waiting ==> w.process.Some?
    ensures i < |Apply(w, m).puts| && Apply(w, m).puts[i].status == Waiting ==> Apply(w, m).process.Some?
  {
  }

  // ------------------------------------------------------------------- promise

  /** Among the moves, the write of enqueue i settled this way. */
  ghost predicate SettledAt(batchSize: Number, initial: Table, moves: seq<Move>, k: nat, i: nat, ok: bool) {
    && k < |moves| && moves[k].PutSettles? && moves[k].put == i && moves[k].ok == ok
    && Enabled(Reached(batchSize, initial, moves[..k]), moves[k])
  }

  ghost predicate Settled(batchSize: Number, initial: Table, moves: seq<Move>, i: nat, ok: bool) {
    exists k: nat :: SettledAt(batchSize, initial, moves, k, i, ok)
  }

  lemma SettledMore(batchSize: Number, initial: Table, before: seq<Move>, m: Move, i: nat, ok: bool)
    ensures Settled(batchSize, initial, before + [m], i, ok) <==>
              || Settled(batchSize, initial, before, i, ok)
              || (m.PutSettles? && m.put == i && m.ok == ok && Enabled(Reached(batchSize, initial, before), m))
  {
    var moves := before + [m];
    assert moves[..|before|] == before;
    forall k: nat | k < |before|
      ensures SettledAt(batchSize, initial, moves, k, i, ok) <==> SettledAt(batchSize, initial, before, k, i, ok)
    {
      assert moves[..k] == before[..k];
    }
    if m.PutSettles? && m.put == i && m.ok == ok && Enabled(Reached(batchSize, initial, before), m) {
      assert SettledAt(batchSize, initial, moves, |before|, i, ok);
    }
    if k: nat :| SettledAt(batchSize, initial, before, k, i, ok) {
      assert SettledAt(batchSize, initial, moves, k, i, ok);
    }
  }

  lemma StatusStep(w: World, m: Move, i: nat, ok: bool)
    requires i < |w.puts|
    ensures i < |Apply(w, m).puts|
    ensures Apply(w, m).puts[i].status == (if ok then Resolved else Rejected) <==>
              || w.puts[i].status == (if ok then Resolved else Rejected)
              || (m.PutSettles? && m.put == i && m.ok == ok && Enabled(w, m))
  {
  }

  lemma NewStatus(w: World, m: Move, i: nat)
    requires |w.puts| <= i < |Apply(w, m).puts|
    ensures Apply(w, m).puts[i].status == Waiting && !(m.PutSettles? && m.put == i && Enabled(w, m))
  {
  }

  /** An enqueue resolves exactly if its write is reported done, and rejects exactly if it is reported failed. */
  lemma {:induction false} ResolvesWithItsWrite(batchSize: Number, initial: Table, moves: seq<Move>, i: nat)
    ensures var w := Reached(batchSize, initial, moves);
      && (i < |w.puts| && w.puts[i].status == Resolved <==> Settled(batchSize, initial, moves, i, true))
      && (i < |w.puts| && w.puts[i].status == Rejected <==> Settled(batchSize, initial, moves, i, false))
    decreases |moves|
  {
    if moves != [] {
      var before, m := moves[..|moves| - 1], moves[|moves| - 1];
      assert moves == before + [m];
      ResolvesWithItsWrite(batchSize, initial, before, i);
      SettledMore(batchSize, initial, before, m, i, true);
      SettledMore(batchSize, initial, before, m, i, false);
      var w := Reached(batchSize, initial, before);
      RunMore(NewWorld(batchSize, initial), before, m);
      if i < |w.puts| {
        StatusStep(w, m, i, true);
        StatusStep(w, m, i, false);
      } else if i < |Apply(w, m).puts| {
        NewStatus(w, m, i);
      }
    }
  }

  // ------------------------------------------------------------------- flushes

  /** The process has a read of the oldest candles on its way: a full batch, or all there are. */
  ghost predicate ReadsOldest(w: World) {
    && InFlight(w).Read? && AreOldest(w.db, InFlight(w).batch)
    && |InFlight(w).batch| == if Wanted(w.batchSize) <= |w.db| then Wanted(w.batchSize) else |w.db|
  }

  /** How many enqueues have resolved since the layer was last started. */
  ghost function ResolvedSinceStart(batchSize: Number, initial: Table, moves: seq<Move>): nat {
    if moves == [] then 0
    else
      var before, m := moves[..|moves| - 1], moves[|moves| - 1];
      var n := ResolvedSinceStart(batchSize, initial, before);
      if !Enabled(Reached(batchSize, initial, before), m) then n
      else if m.Start? then 0
      else if m.PutSettles? && m.ok then n + 1
      else n
  }

  /** What `n` leaves when whole batches are taken off. */
  function Remainder(n: nat, size: nat): nat
    requires size > 0
  {
    if n < size then n else Remainder(n - size, size)
  }

  /** The flusher's count is that of the resolved enqueues, less whole batches. */
  ghost predicate Counts(w: World, n: nat)
    requires Wanted(w.batchSize) > 0
  {
    w.process.Some? ==>
      && w.process.value.flusher.batchSize == w.batchSize
      && w.process.value.flusher.enqueuedSinceFlush == Remainder(n, Wanted(w.batchSize))
  }

  lemma SettledCounts(w: World, m: Move, n: nat)
    requires Wanted(w.batchSize) > 0 && Counts(w, n) && m.PutSettles? && m.ok && Enabled(w, m)
    ensures Counts(After(w, m), n + 1)
  {
    NextRemainder(n, Wanted(w.batchSize));
  }

  lemma OtherCounts(w: World, m: Move, n: nat)
    requires Wanted(w.batchSize) > 0 && Counts(w, n) && Enabled(w, m) && !m.Start? && !(m.PutSettles? && m.ok)
    ensures Counts(After(w, m), n)
  {
  }

  lemma StartCounts(w: World, m: Move)
    requires Wanted(w.batchSize) > 0 && Enabled(w, m) && m.Start?
    ensures Counts(After(w, m), 0)
  {
  }

  lemma {:induction false} NextRemainder(n: nat, size: nat)
    requires size > 0
    ensures Remainder(n, size) < size
    ensures Remainder(n + 1, size) == if Remainder(n, size) + 1 == size then 0 else Remainder(n, size) + 1
    decreases n
  {
    if n >= size {
      NextRemainder(n - size, size);
    }
  }

  lemma {:induction false} CountsResolved(batchSize: Number, initial: Table, moves: seq<Move>)
    requires Wanted(batchSize) > 0
    ensures Reached(batchSize, initial, moves).batchSize == batchSize
    ensures Counts(Reached(batchSize, initial, moves), ResolvedSinceStart(batchSize, initial, moves))
    decreases |moves|
  {
    if moves != [] {
      var before, m := moves[..|moves| - 1], moves[|moves| - 1];
      CountsResolved(batchSize, initial, before);
      var w, n := Reached(batchSize, initial, before), ResolvedSinceStart(batchSize, initial, before);
      ReachedInv(batchSize, initial, moves);
      if Enabled(w, m) {
        if m.Start? {
          StartCounts(w, m);
        } else if m.PutSettles? && m.ok {
          SettledCounts(w, m, n);
        } else {
          OtherCounts(w, m, n);
        }
      }
    }
  }

  /** When the n-th enqueue since the start has resolved with this one, a flush is due. */
  ghost predicate FlushDue(w: World, n: nat)
    requires Wanted(w.batchSize) > 0 && w.process.Some?
  {
    Remainder(n, Wanted(w.batchSize)) == 0 && !w.process.value.flusher.stopped && InFlight(w) == Idle
  }

  ghost predicate FlushesIfDue(w: World, w': World, n: nat)
    requires Wanted(w.batchSize) > 0 && w.process.Some?
  {
    if FlushDue(w, n) then ReadsOldest(w') else InFlight(w') == InFlight(w)
  }

  /** When enqueue i resolves as the n-th, the flush that is due begins, and no other. */
  ghost predicate ResolveFlushes(w: World, i: nat, n: nat)
    requires Wanted(w.batchSize) > 0 && Enabled(w, PutSettles(i, true, true))
  {
    FlushesIfDue(w, After(w, PutSettles(i, true, true)), n)
  }

  lemma SettledFlushes(w: World, i: nat, n: nat)
    requires Wanted(w.batchSize) > 0 && Counts(w, n) && KeyedDb(w.db) && Enabled(w, PutSettles(i, true, true))
    ensures ResolveFlushes(w, i, n + 1)
  {
    NextRemainder(n, Wanted(w.batchSize));
    PeekReturnsOldest(w.db, w.batchSize);
  }

  lemma ReachedCounts(batchSize: Number, initial: Table, moves: seq<Move>) returns (w: World, n: nat)
    requires Wanted(batchSize) > 0
    ensures w == Reached(batchSize, initial, moves) && n == ResolvedSinceStart(batchSize, initial, moves)
    ensures KeyedDb(w.db) && w.batchSize == batchSize && Counts(w, n)
  {
    w, n := Reached(batchSize, initial, moves), ResolvedSinceStart(batchSize, initial, moves);
    ReachedInv(batchSize, initial, moves);
    CountsResolved(batchSize, initial, moves);
  }

  /**
   * Every batch-size-th enqueue that resolves since the start of the layer begins a
   * flush of the oldest candles, unless one is in flight or the flusher is stopped;
   * no other enqueue does.
   */
  lemma EveryBatchFlushes(batchSize: Number, initial: Table, moves: seq<Move>, i: nat)
    requires Wanted(batchSize) > 0 && Enabled(Reached(batchSize, initial, moves), PutSettles(i, true, true))
    ensures Reached(batchSize, initial, moves).batchSize == batchSize
    ensures ResolveFlushes(Reached(batchSize, initial, moves), i, ResolvedSinceStart(batchSize, initial, moves) + 1)
  {
    var w, n := ReachedCounts(batchSize, initial, moves);
    SettledFlushes(w, i, n);
  }

  /** A start, as after a crash, begins at once with the oldest of the candles that are still pending. */
  lemma RestartRecovers(batchSize: Number, initial: Table, moves: seq<Move>)
    requires Reached(batchSize, initial, moves).process.None?
    ensures ReadsOldest(After(Reached(batchSize, initial, moves), Start(true)))
    ensures var w := Reached(batchSize, initial, moves);
      InFlight(After(w, Start(true))).batch != [] <==> Wanted(batchSize) > 0 && w.db != map[]
  {
    ReachedInv(batchSize, initial, moves);
    PeekReturnsOldest(Reached(batchSize, initial, moves).db, batchSize);
  }

  // --------------------------------------------------------------------- close

  /** What is left to settle before a close() that has begun is done. */
  function Steps(f: Flush): nat {
    match f
    case Idle => 0
    case Acking(_, _) => 1
    case Writing(_, _) => 2
    case Read(_) => 3
  }

  function Waiters(puts: seq<Put>): nat {
    if puts == [] then 0
    else Waiters(puts[..|puts| - 1]) + if puts[|puts| - 1].status == Waiting then 1 else 0
  }

  lemma {:induction false} NoWaiters(puts: seq<Put>)
    ensures Waiters(puts) == 0 <==> forall i :: 0 <= i < |puts| ==> puts[i].status != Waiting
    decreases |puts|
  {
    if puts != [] {
      NoWaiters(puts[..|puts| - 1]);
    }
  }

  lemma {:induction false} OneFewer(puts: seq<Put>, i: nat, put: Put)
    requires i < |puts| && puts[i].status == Waiting && put.status != Waiting
    ensures Waiters(puts[i := put]) == Waiters(puts) - 1
    decreases |puts|
  {
    var n := |puts| - 1;
    if i < n {
      OneFewer(puts[..n], i, put);
      assert puts[i := put][..n] == puts[..n][i := put];
    } else {
      assert puts[i := put][..n] == puts[..n];
    }
  }

  ghost predicate Closing(w: World) {
    w.process.Some? && w.process.value.closing != Accepting && w.process.value.flusher.stopped
  }

  ghost function Todo(w: World): nat
    requires Closing(w)
  {
    Steps(InFlight(w)) + Waiters(w.puts) + if w.process.value.closing == AwaitingFlush then 1 else 0
  }

  /** Such a close() waits for nothing but promises that settle. */
  predicate Settles(m: Move) {
    m.ReadSettles? || m.WriteSettles? || m.AckSettles? || m.PutSettles? || m.FlushAwaited? || m.PutsAwaited?
  }

  lemma CloseStep(w: World) returns (m: Move)
    requires Closing(w)
    ensures Enabled(w, m) && Settles(m)
    ensures After(w, m).process.None? || (Closing(After(w, m)) && Todo(After(w, m)) < Todo(w))
  {
    NoWaiters(w.puts);
    match InFlight(w) {
      case Read(_) => m := ReadSettles;
      case Writing(_, _) => m := WriteSettles(false);
      case Acking(_, _) => m := AckSettles(false);
      case Idle =>
        if i: nat :| i < |w.puts| && w.puts[i].status == Waiting {
          m := PutSettles(i, false, true);
          OneFewer(w.puts, i, w.puts[i].(status := Rejected));
        } else if w.process.value.closing == AwaitingFlush {
          m := FlushAwaited;
        } else {
          m := PutsAwaited;
        }
    }
  }

  lemma {:induction false} CloseFinishes(w: World) returns (moves: seq<Move>)
    requires Closing(w)
    ensures Run(w, moves).process.None? && forall i :: 0 <= i < |moves| ==> Settles(moves[i])
    decreases Todo(w)
  {
    var m := CloseStep(w);
    RunMore(w, [], m);
    assert [] + [m] == [m];
    moves := [m];
    if After(w, m).process.Some? {
      var more := CloseFinishes(After(w, m));
      RunJoins(w, [m], more);
      moves := [m] + more;
    }
  }

  /** From every state that has a close() under way, promises that settle alone can complete it. */
  lemma CloseCanFinish(batchSize: Number, initial: Table, moves: seq<Move>) returns (more: seq<Move>)
    requires var w := Reached(batchSize, initial, moves); w.process.Some? && !Accepts(w)
    ensures Reached(batchSize, initial, moves + more).process.None?
    ensures forall i :: 0 <= i < |more| ==> Settles(more[i])
  {
    ReachedInv(batchSize, initial, moves);
    more := CloseFinishes(Reached(batchSize, initial, moves));
    RunJoins(NewWorld(batchSize, initial), moves, more);
  }
}
