// Tick handling in the upstream feed (twelvedata.provider.ts): pipelined Kafka
// admission, per-symbol ordered realtime publishing, and stop().
module RealtimeStream {
  import opened Basics
  import CandleMaking

  type Tick = CandleMaking.Tick

  datatype Admission = InFlight | Acked | Failed

  // Where a tick's realtime phase is suspended: behind the previous tail, on its
  // Kafka admission, on its Redis publish, or nowhere.
  datatype Phase = Queued | AwaitingKafka | Publishing | Settled

  // `finished` says that the promise of the message handler has settled.
  datatype Handler = Handler(tick: Tick, previous: Option<nat>, admission: Admission, phase: Phase, finished: bool)

  // `stopWaits` is the set of handlers that a pending stop() waits for.
  datatype Stream = Stream(
    symbols: set<string>,
    running: bool,
    handlers: seq<Handler>,
    tails: map<string, nat>,
    active: set<nat>,
    sends: seq<Tick>,
    published: seq<nat>,
    stopWaits: Option<set<nat>>,
    stopResolved: bool)

  function NewStream(symbols: set<string>): Stream {
    Stream(symbols, true, [], map[], {}, [], [], None, false)
  }

  datatype Step =
    | Arrive(tick: Tick)
    | KafkaSettles(handler: nat, ok: bool)
    | PhaseBegins(handler: nat)
    | AdmissionObserved(handler: nat)
    | RedisSettles(handler: nat)
    | HandlerFinishes(handler: nat)
    | HandlerLeaves(handler: nat)
    | Stop
    | StopResolves

  function Lookup(tails: map<string, nat>, symbol: string): Option<nat> {
    if symbol in tails then Some(tails[symbol]) else None
  }

  function OnArrive(s: Stream, t: Tick): Stream {
    if t.symbol !in s.symbols then s
    else
      var k := |s.handlers|;
      s.(handlers := s.handlers + [Handler(t, Lookup(s.tails, t.symbol), InFlight, Queued, false)],
         tails := s.tails[t.symbol := k],
         active := s.active + {k},
         sends := s.sends + [t])
  }

  function WithHandler(s: Stream, k: nat, h: Handler): Stream
    requires k < |s.handlers|
  {
    s.(handlers := s.handlers[k := h])
  }

  predicate Enabled(s: Stream, e: Step) {
    match e
    case Arrive(_) => s.running
    case KafkaSettles(k, _) => k < |s.handlers| && s.handlers[k].admission == InFlight
    case PhaseBegins(k) =>
      && k < |s.handlers| && s.handlers[k].phase == Queued
      && (s.handlers[k].previous.Some? ==>
            s.handlers[k].previous.value < |s.handlers| && s.handlers[s.handlers[k].previous.value].phase == Settled)
    case AdmissionObserved(k) =>
      k < |s.handlers| && s.handlers[k].phase == AwaitingKafka && s.handlers[k].admission != InFlight
    case RedisSettles(k) => k < |s.handlers| && s.handlers[k].phase == Publishing
    case HandlerFinishes(k) => k < |s.handlers| && s.handlers[k].phase == Settled && !s.handlers[k].finished
    case HandlerLeaves(k) => k < |s.handlers| && s.handlers[k].finished
    case Stop => s.running
    case StopResolves =>
      s.stopWaits.Some? && forall k :: k in s.stopWaits.value ==> k < |s.handlers| && s.handlers[k].finished
  }

  function After(s: Stream, e: Step): Stream
    requires Enabled(s, e)
  {
    match e
    case Arrive(t) => OnArrive(s, t)
    case KafkaSettles(k, ok) => WithHandler(s, k, s.handlers[k].(admission := if ok then Acked else Failed))
    case PhaseBegins(k) => WithHandler(s, k, s.handlers[k].(phase := AwaitingKafka))
    case AdmissionObserved(k) =>
      if s.handlers[k].admission == Acked
      then WithHandler(s, k, s.handlers[k].(phase := Publishing)).(published := s.published + [k])
      else WithHandler(s, k, s.handlers[k].(phase := Settled))
    case RedisSettles(k) => WithHandler(s, k, s.handlers[k].(phase := Settled))
    case HandlerFinishes(k) =>
      var symbol := s.handlers[k].tick.symbol;
      var s' := WithHandler(s, k, s.handlers[k].(finished := true));
      if symbol in s.tails && s.tails[symbol] == k then s'.(tails := s.tails - {symbol}) else s'
    case HandlerLeaves(k) => s.(active := s.active - {k})
    case Stop => s.(running := false, stopWaits := Some(s.active))
    case StopResolves => s.(stopResolved := true)
  }

  function Run(symbols: set<string>, steps: seq<Step>): Stream {
    if steps == [] then NewStream(symbols)
    else
      var s := Run(symbols, steps[..|steps| - 1]);
      if Enabled(s, steps[|steps| - 1]) then After(s, steps[|steps| - 1]) else s
  }

  // ----------------------------------------------------------------- invariant

  /** Handlers i and j are for the same symbol. */
  predicate Same(hs: seq<Handler>, i: nat, j: nat)
    requires i < |hs| && j < |hs|
  {
    hs[i].tick.symbol == hs[j].tick.symbol
  }

  /** A handler points at the handler of its symbol before it, or all those are settled. */
  ghost predicate ChainInv(hs: seq<Handler>) {
    forall j :: 0 <= j < |hs| ==>
      match hs[j].previous
      case Some(p) => p < j && Same(hs, p, j) && forall i :: p < i < j ==> !Same(hs, i, j)
      case None => forall i :: 0 <= i < j && Same(hs, i, j) ==> hs[i].phase == Settled
  }

  /** The tail of a symbol is its last handler; without a tail all its handlers are settled. */
  ghost predicate TailInv(hs: seq<Handler>, tails: map<string, nat>) {
    && (forall symbol :: symbol in tails ==>
          tails[symbol] < |hs| && hs[tails[symbol]].tick.symbol == symbol
          && forall i :: tails[symbol] < i < |hs| ==> hs[i].tick.symbol != symbol)
    && (forall i :: 0 <= i < |hs| && hs[i].tick.symbol !in tails ==> hs[i].phase == Settled)
  }

  /** A handler's realtime phase starts only when those of its symbol before it have settled. */
  ghost predicate OrderInv(hs: seq<Handler>) {
    forall i, j :: 0 <= i < j < |hs| && Same(hs, i, j) && hs[j].phase != Queued ==> hs[i].phase == Settled
  }

  predicate HandlerInv(h: Handler) {
    && (h.admission == InFlight ==> h.phase == Queued || h.phase == AwaitingKafka)
    && (h.phase == Publishing ==> h.admission == Acked)
    && (h.finished ==> h.phase == Settled)
  }

  /** The tick has been handed to Redis. */
  predicate Reached(h: Handler) {
    h.admission == Acked && (h.phase == Publishing || h.phase == Settled)
  }

  /** The handlers of `symbol` among the first `n` that have reached Redis, in arrival order. */
  function ReachedOf(hs: seq<Handler>, symbol: string, n: nat): seq<nat>
    requires n <= |hs|
  {
    if n == 0 then []
    else if hs[n - 1].tick.symbol == symbol && Reached(hs[n - 1]) then ReachedOf(hs, symbol, n - 1) + [n - 1]
    else ReachedOf(hs, symbol, n - 1)
  }

  /** The acked ticks of `symbol`, in arrival order. */
  function AckedOf(hs: seq<Handler>, symbol: string, n: nat): seq<nat>
    requires n <= |hs|
  {
    if n == 0 then []
    else if hs[n - 1].tick.symbol == symbol && hs[n - 1].admission == Acked then AckedOf(hs, symbol, n - 1) + [n - 1]
    else AckedOf(hs, symbol, n - 1)
  }

  /** The Redis publishes of `symbol`, in the order they were issued. */
  function PublishedOf(hs: seq<Handler>, published: seq<nat>, symbol: string): seq<nat> {
    if published == [] then []
    else
      var rest, k := PublishedOf(hs, published[..|published| - 1], symbol), published[|published| - 1];
      if k < |hs| && hs[k].tick.symbol == symbol then rest + [k] else rest
  }

  function Ticks(hs: seq<Handler>): seq<Tick> {
    seq(|hs|, i requires 0 <= i < |hs| => hs[i].tick)
  }

  ghost predicate PublishInv(s: Stream) {
    && (forall i :: 0 <= i < |s.published| ==> s.published[i] < |s.handlers|)
    && (forall symbol :: PublishedOf(s.handlers, s.published, symbol) == ReachedOf(s.handlers, symbol, |s.handlers|))
  }

  ghost predicate StopInv(s: Stream) {
    && (forall k :: k in s.active ==> k < |s.handlers|)
    && (forall k :: 0 <= k < |s.handlers| && !s.handlers[k].finished ==> k in s.active)
    && (s.running <==> s.stopWaits == None)
    && (s.stopWaits.Some? ==> s.active <= s.stopWaits.value && forall k :: k in s.stopWaits.value ==> k < |s.handlers|)
    && (s.stopResolved ==> s.stopWaits.Some? && forall k :: 0 <= k < |s.handlers| ==> s.handlers[k].finished)
  }

  ghost predicate QueueInv(s: Stream) {
    && ChainInv(s.handlers) && TailInv(s.handlers, s.tails) && OrderInv(s.handlers)
    && (forall k :: 0 <= k < |s.handlers| ==> HandlerInv(s.handlers[k]))
    && s.sends == Ticks(s.handlers)
  }

  ghost predicate Inv(s: Stream) {
    QueueInv(s) && PublishInv(s) && StopInv(s)
  }

  // -------------------------------------------------------------- preservation

  /** Only which handlers have reached Redis matters to ReachedOf. */
  lemma {:induction false} ReachedSame(hs: seq<Handler>, hs': seq<Handler>, symbol: string, n: nat)
    requires n <= |hs| && n <= |hs'|
    requires forall i :: 0 <= i < n ==> hs'[i].tick == hs[i].tick && Reached(hs'[i]) == Reached(hs[i])
    ensures ReachedOf(hs', symbol, n) == ReachedOf(hs, symbol, n)
    decreases n
  {
    if n > 0 {
      ReachedSame(hs, hs', symbol, n - 1);
    }
  }

  lemma {:induction false} NoneReached(hs: seq<Handler>, symbol: string, k: nat, n: nat)
    requires k <= n <= |hs|
    requires forall i :: k <= i < n && hs[i].tick.symbol == symbol ==> !Reached(hs[i])
    ensures ReachedOf(hs, symbol, n) == ReachedOf(hs, symbol, k)
    decreases n
  {
    if k < n {
      NoneReached(hs, symbol, k, n - 1);
    }
  }

  /** The publishes of a symbol depend only on the symbols of the handlers. */
  lemma {:induction false} PublishedSame(hs: seq<Handler>, hs': seq<Handler>, published: seq<nat>, symbol: string)
    requires |hs| <= |hs'| && (forall i :: 0 <= i < |hs| ==> hs'[i].tick == hs[i].tick)
    requires forall i :: 0 <= i < |published| ==> published[i] < |hs|
    ensures PublishedOf(hs', published, symbol) == PublishedOf(hs, published, symbol)
    decreases |published|
  {
    if published != [] {
      PublishedSame(hs, hs', published[..|published| - 1], symbol);
    }
  }

  /** An arrival, or a change of one handler that does not take it to Redis, keeps the publish order. */
  lemma PublishKept(s: Stream, s': Stream)
    requires PublishInv(s) && s'.published == s.published
    requires |s.handlers| <= |s'.handlers| <= |s.handlers| + 1
    requires forall i :: 0 <= i < |s.handlers| ==>
               s'.handlers[i].tick == s.handlers[i].tick && Reached(s'.handlers[i]) == Reached(s.handlers[i])
    requires |s'.handlers| > |s.handlers| ==> !Reached(s'.handlers[|s.handlers|])
    ensures PublishInv(s')
  {
    forall symbol
      ensures PublishedOf(s'.handlers, s'.published, symbol) == ReachedOf(s'.handlers, symbol, |s'.handlers|)
    {
      PublishedSame(s.handlers, s'.handlers, s.published, symbol);
      ReachedSame(s.handlers, s'.handlers, symbol, |s.handlers|);
      NoneReached(s'.handlers, symbol, |s.handlers|, |s'.handlers|);
    }
  }

  /** Taking the next handler of a symbol to Redis appends it to the symbol's publishes. */
  lemma PublishGrows(s: Stream, k: nat)
    requires QueueInv(s) && PublishInv(s) && Enabled(s, AdmissionObserved(k)) && s.handlers[k].admission == Acked
    ensures PublishInv(After(s, AdmissionObserved(k)))
  {
    var s' := After(s, AdmissionObserved(k));
    forall symbol
      ensures PublishedOf(s'.handlers, s'.published, symbol) == ReachedOf(s'.handlers, symbol, |s'.handlers|)
    {
      PublishedSame(s.handlers, s'.handlers, s.published, symbol);
      assert s'.published[..|s.published|] == s.published;
      if symbol == s.handlers[k].tick.symbol {
        OwnReached(s.handlers, k);
      } else {
        OtherReached(s.handlers, s'.handlers, symbol, k, |s.handlers|);
      }
    }
  }

  lemma OwnReached(hs: seq<Handler>, k: nat)
    requires OrderInv(hs) && k < |hs| && hs[k].phase == AwaitingKafka && hs[k].admission == Acked
    ensures var symbol := hs[k].tick.symbol;
      ReachedOf(hs[k := hs[k].(phase := Publishing)], symbol, |hs|) == ReachedOf(hs, symbol, |hs|) + [k]
  {
    var symbol, hs' := hs[k].tick.symbol, hs[k := hs[k].(phase := Publishing)];
    NoneReachedAfter(hs, k);
    NoneReached(hs', symbol, k + 1, |hs|);
    ReachedSame(hs, hs', symbol, k);
    NoneReached(hs, symbol, k, |hs|);
  }

  lemma NoneReachedAfter(hs: seq<Handler>, k: nat)
    requires OrderInv(hs) && k < |hs| && hs[k].phase == AwaitingKafka
    ensures forall i :: k <= i < |hs| && hs[i].tick.symbol == hs[k].tick.symbol ==> !Reached(hs[i])
  {
    forall i | k < i < |hs| && hs[i].tick.symbol == hs[k].tick.symbol ensures !Reached(hs[i]) {
      assert Same(hs, k, i);
    }
  }

  lemma {:induction false} OtherReached(hs: seq<Handler>, hs': seq<Handler>, symbol: string, k: nat, n: nat)
    requires n <= |hs| == |hs'| && k < |hs| && hs[k].tick.symbol != symbol
    requires hs' == hs[k := hs'[k]] && hs'[k].tick == hs[k].tick
    ensures ReachedOf(hs', symbol, n) == ReachedOf(hs, symbol, n)
    decreases n
  {
    if n > 0 {
      OtherReached(hs, hs', symbol, k, n - 1);
    }
  }

  lemma ArriveKeepsChain(s: Stream, t: Tick)
    requires QueueInv(s) && t.symbol in s.symbols
    ensures ChainInv(OnArrive(s, t).handlers) && OrderInv(OnArrive(s, t).handlers)
  {
    var hs, hs' := s.handlers, OnArrive(s, t).handlers;
    assert forall i, j :: 0 <= i < |hs| && 0 <= j < |hs| ==> Same(hs', i, j) == Same(hs, i, j);
  }

  lemma ArriveKeepsQueue(s: Stream, t: Tick)
    requires QueueInv(s) && t.symbol in s.symbols
    ensures QueueInv(OnArrive(s, t))
  {
    ArriveKeepsChain(s, t);
    assert OnArrive(s, t).sends == Ticks(OnArrive(s, t).handlers);
  }

  lemma ArriveKeepsInv(s: Stream, t: Tick)
    requires Inv(s) && s.running
    ensures Inv(OnArrive(s, t))
  {
    if t.symbol in s.symbols {
      ArriveKeepsQueue(s, t);
      PublishKept(s, OnArrive(s, t));
    }
  }

  /** A handler moves on without reaching Redis or falling back; its symbol's order is kept. */
  ghost predicate MovesOn(hs: seq<Handler>, k: nat, h: Handler) {
    && k < |hs|
    && h.tick == hs[k].tick && h.previous == hs[k].previous
    && HandlerInv(h)
    && (hs[k].phase == Settled ==> h.phase == Settled)
    && (hs[k].phase == Queued && h.phase != Queued ==>
          forall i :: 0 <= i < k && Same(hs, i, k) ==> hs[i].phase == Settled)
  }

  lemma MoveKeepsChain(hs: seq<Handler>, k: nat, h: Handler)
    requires ChainInv(hs) && MovesOn(hs, k, h)
    ensures ChainInv(hs[k := h])
  {
    var hs' := hs[k := h];
    assert forall i, j :: 0 <= i < |hs'| && 0 <= j < |hs'| ==> Same(hs', i, j) == Same(hs, i, j);
    assert forall j :: 0 <= j < |hs'| ==> hs'[j].previous == hs[j].previous;
  }

  lemma MoveKeepsOrder(hs: seq<Handler>, k: nat, h: Handler)
    requires OrderInv(hs) && MovesOn(hs, k, h)
    ensures OrderInv(hs[k := h])
  {
    var hs' := hs[k := h];
    assert forall i, j :: 0 <= i < |hs'| && 0 <= j < |hs'| ==> Same(hs', i, j) == Same(hs, i, j);
  }

  lemma MoveKeepsTail(hs: seq<Handler>, tails: map<string, nat>, k: nat, h: Handler)
    requires TailInv(hs, tails) && MovesOn(hs, k, h)
    ensures TailInv(hs[k := h], tails)
  {
  }

  lemma MoveKeepsQueue(s: Stream, k: nat, h: Handler)
    requires QueueInv(s) && MovesOn(s.handlers, k, h)
    ensures QueueInv(WithHandler(s, k, h))
  {
    MoveKeepsChain(s.handlers, k, h);
    MoveKeepsOrder(s.handlers, k, h);
    MoveKeepsTail(s.handlers, s.tails, k, h);
    assert Ticks(s.handlers[k := h]) == s.sends;
  }

  lemma BeginsInOrder(s: Stream, k: nat)
    requires QueueInv(s) && Enabled(s, PhaseBegins(k))
    ensures forall i :: 0 <= i < k && Same(s.handlers, i, k) ==> s.handlers[i].phase == Settled
  {
    if s.handlers[k].previous.Some? {
      var p := s.handlers[k].previous.value;
      forall i | 0 <= i < k && Same(s.handlers, i, k) ensures s.handlers[i].phase == Settled {
        if i < p {
          assert Same(s.handlers, i, p);
        }
      }
    }
  }

  lemma HandlerStepKeepsInv(s: Stream, e: Step)
    requires Inv(s) && Enabled(s, e)
    requires e.KafkaSettles? || e.PhaseBegins? || e.AdmissionObserved? || e.RedisSettles?
    ensures Inv(After(s, e))
  {
    var k := e.handler;
    var s' := After(s, e);
    if e.PhaseBegins? {
      BeginsInOrder(s, k);
    }
    MoveKeepsQueue(s, k, s'.handlers[k]);
    if e.AdmissionObserved? && s.handlers[k].admission == Acked {
      PublishGrows(s, k);
    } else {
      PublishKept(s, s');
    }
    HandlerStepKeepsStop(s, e);
  }

  lemma HandlerStepKeepsStop(s: Stream, e: Step)
    requires StopInv(s) && Enabled(s, e)
    requires e.KafkaSettles? || e.PhaseBegins? || e.AdmissionObserved? || e.RedisSettles?
    ensures StopInv(After(s, e))
  {
    MoveKeepsStop(s, e.handler, After(s, e));
  }

  lemma MoveKeepsStop(s: Stream, k: nat, s': Stream)
    requires StopInv(s) && k < |s.handlers| == |s'.handlers| && s'.handlers == s.handlers[k := s'.handlers[k]]
    requires s'.handlers[k].finished == s.handlers[k].finished
    requires s'.active == s.active && s'.running == s.running
    requires s'.stopWaits == s.stopWaits && s'.stopResolved == s.stopResolved
    ensures StopInv(s')
  {
  }

  /** The tail of a symbol may go once its last handler has settled. */
  lemma TailMayGo(s: Stream, symbol: string)
    requires QueueInv(s) && symbol in s.tails && s.handlers[s.tails[symbol]].phase == Settled
    ensures TailInv(s.handlers, s.tails - {symbol})
  {
    var k := s.tails[symbol];
    forall i | 0 <= i < |s.handlers| && s.handlers[i].tick.symbol == symbol ensures s.handlers[i].phase == Settled {
      assert i <= k && Same(s.handlers, i, k);
    }
  }

  lemma FinishKeepsQueue(s: Stream, k: nat)
    requires QueueInv(s) && Enabled(s, HandlerFinishes(k))
    ensures QueueInv(After(s, HandlerFinishes(k)))
  {
    var symbol, h := s.handlers[k].tick.symbol, s.handlers[k].(finished := true);
    MoveKeepsQueue(s, k, h);
    if symbol in s.tails && s.tails[symbol] == k {
      TailMayGo(WithHandler(s, k, h), symbol);
    }
  }

  lemma FinishKeepsInv(s: Stream, k: nat)
    requires Inv(s) && Enabled(s, HandlerFinishes(k))
    ensures Inv(After(s, HandlerFinishes(k)))
  {
    FinishKeepsQueue(s, k);
    PublishKept(s, After(s, HandlerFinishes(k)));
  }

  lemma StepKeepsInv(s: Stream, e: Step)
    requires Inv(s) && Enabled(s, e)
    ensures Inv(After(s, e))
  {
    match e
    case Arrive(t) => ArriveKeepsInv(s, t);
    case HandlerFinishes(k) => FinishKeepsInv(s, k);
    case HandlerLeaves(k) => PublishKept(s, After(s, e));
    case Stop => PublishKept(s, After(s, e));
    case StopResolves => PublishKept(s, After(s, e));
    case _ => HandlerStepKeepsInv(s, e);
  }

  lemma {:induction false} ReachableInv(symbols: set<string>, steps: seq<Step>)
    ensures Inv(Run(symbols, steps))
    decreases |steps|
  {
    if steps != [] {
      ReachableInv(symbols, steps[..|steps| - 1]);
      var s := Run(symbols, steps[..|steps| - 1]);
      if Enabled(s, steps[|steps| - 1]) {
        StepKeepsInv(s, steps[|steps| - 1]);
      }
    }
  }

  // -------------------------------------------------------------- main results

  /**
   * Under any interleaving, a symbol's Redis publishes are the first of its acked
   * ticks, in arrival order, and at most one is in flight; Kafka sends are issued
   * at arrival, in arrival order.
   */
  lemma RealtimeOrder(symbols: set<string>, steps: seq<Step>, symbol: string)
    ensures var s := Run(symbols, steps);
      && PublishedOf(s.handlers, s.published, symbol) <= AckedOf(s.handlers, symbol, |s.handlers|)
      && s.sends == Ticks(s.handlers)
      && (forall i, j :: 0 <= i < j < |s.handlers| && Same(s.handlers, i, j) ==>
            !(s.handlers[i].phase == Publishing && s.handlers[j].phase == Publishing))
  {
    ReachableInv(symbols, steps);
    ReachedFirst(Run(symbols, steps).handlers, symbol, |Run(symbols, steps).handlers|);
  }

  /** The ticks that have reached Redis are the first of the acked ones. */
  lemma {:induction false} ReachedFirst(hs: seq<Handler>, symbol: string, n: nat)
    requires n <= |hs| && OrderInv(hs)
    ensures ReachedOf(hs, symbol, n) <= AckedOf(hs, symbol, n)
    decreases n
  {
    if n > 0 {
      ReachedFirst(hs, symbol, n - 1);
      if hs[n - 1].tick.symbol == symbol && Reached(hs[n - 1]) {
        assert forall i :: 0 <= i < n - 1 && hs[i].tick.symbol == symbol ==> Same(hs, i, n - 1);
        SettledReachAll(hs, symbol, n - 1);
      }
    }
  }

  ghost predicate AllSettled(hs: seq<Handler>, symbol: string) {
    SettledUpTo(hs, symbol, |hs|)
  }

  ghost predicate SettledUpTo(hs: seq<Handler>, symbol: string, n: nat)
    requires n <= |hs|
  {
    forall k :: 0 <= k < n && hs[k].tick.symbol == symbol ==> hs[k].phase == Settled
  }

  lemma {:induction false} SettledReachAll(hs: seq<Handler>, symbol: string, n: nat)
    requires n <= |hs| && SettledUpTo(hs, symbol, n)
    ensures ReachedOf(hs, symbol, n) == AckedOf(hs, symbol, n)
    decreases n
  {
    if n > 0 {
      SettledReachAll(hs, symbol, n - 1);
    }
  }

  /** Once a symbol's handlers have settled, it has published exactly its acked ticks, in arrival order. */
  lemma PublishesAreAckedTicks(symbols: set<string>, steps: seq<Step>, symbol: string)
    requires AllSettled(Run(symbols, steps).handlers, symbol)
    ensures var s := Run(symbols, steps);
      PublishedOf(s.handlers, s.published, symbol) == AckedOf(s.handlers, symbol, |s.handlers|)
  {
    ReachableInv(symbols, steps);
    SettledReachAll(Run(symbols, steps).handlers, symbol, |Run(symbols, steps).handlers|);
  }

  /** The handler can begin its realtime phase, or waits only for Kafka or Redis. */
  predicate CanGoOn(s: Stream, i: nat)
    requires i < |s.handlers|
  {
    s.handlers[i].phase == AwaitingKafka || s.handlers[i].phase == Publishing || Enabled(s, PhaseBegins(i))
  }

  /**
   * No tick waits for another: while any handler of a symbol is unsettled, one of
   * them can take a step or waits only for Kafka or Redis.
   */
  lemma QueueNeverStuck(symbols: set<string>, steps: seq<Step>, k: nat)
    requires k < |Run(symbols, steps).handlers| && Run(symbols, steps).handlers[k].phase != Settled
    ensures var s := Run(symbols, steps);
      exists i: nat :: i <= k && Same(s.handlers, i, k) && CanGoOn(s, i)
  {
    ReachableInv(symbols, steps);
    FirstUnsettled(Run(symbols, steps), k);
  }

  lemma {:induction false} FirstUnsettled(s: Stream, k: nat)
    requires Inv(s) && k < |s.handlers| && s.handlers[k].phase != Settled
    ensures exists i: nat :: i <= k && Same(s.handlers, i, k) && CanGoOn(s, i)
    decreases k
  {
    if s.handlers[k].phase == Queued && !Enabled(s, PhaseBegins(k)) {
      var p := s.handlers[k].previous.value;
      FirstUnsettled(s, p);
      var i: nat :| i <= p && Same(s.handlers, i, p) && CanGoOn(s, i);
      assert Same(s.handlers, i, k);
    } else {
      assert Same(s.handlers, k, k);
    }
  }

  /** Once stop() has resolved, no Kafka send is in flight, and none ever will be. */
  lemma {:induction false} StoppedStreamIsQuiet(symbols: set<string>, steps: seq<Step>, more: seq<Step>)
    requires Run(symbols, steps).stopResolved
    ensures var s := Run(symbols, steps + more);
      && s.stopResolved && s.sends == Run(symbols, steps).sends
      && forall k :: 0 <= k < |s.handlers| ==> s.handlers[k].admission != InFlight
    decreases |more|
  {
    if more == [] {
      assert steps + more == steps;
    } else {
      var before, e := more[..|more| - 1], more[|more| - 1];
      StoppedStreamIsQuiet(symbols, steps, before);
      assert steps + more == steps + before + [e];
      StaysQuiet(symbols, steps + before, e);
    }
    NoneInFlight(symbols, steps + more);
  }

  lemma StaysQuiet(symbols: set<string>, steps: seq<Step>, e: Step)
    requires Run(symbols, steps).stopResolved
    ensures Run(symbols, steps + [e]).stopResolved && Run(symbols, steps + [e]).sends == Run(symbols, steps).sends
  {
    assert (steps + [e])[..|steps|] == steps;
    ReachableInv(symbols, steps);
    if Enabled(Run(symbols, steps), e) {
      NoSendAfterStop(Run(symbols, steps), e);
    }
  }

  lemma NoneInFlight(symbols: set<string>, steps: seq<Step>)
    requires Run(symbols, steps).stopResolved
    ensures var s := Run(symbols, steps); forall k :: 0 <= k < |s.handlers| ==> s.handlers[k].admission != InFlight
  {
    ReachableInv(symbols, steps);
  }

  lemma NoSendAfterStop(s: Stream, e: Step)
    requires StopInv(s) && s.stopResolved && Enabled(s, e)
    ensures After(s, e).stopResolved && After(s, e).sends == s.sends
  {
  }

  // ------------------------------------------- streams in terms of their steps

  /** The ticks of subscribed symbols that arrive before stop(), in order. */
  function Arrived(symbols: set<string>, steps: seq<Step>): seq<Tick> {
    if steps == [] then []
    else
      var before, e := steps[..|steps| - 1], steps[|steps| - 1];
      var earlier := Arrived(symbols, before);
      if e.Arrive? && e.tick.symbol in symbols && Stop !in before then earlier + [e.tick] else earlier
  }

  /** How Kafka has answered the k-th of these ticks: its first answer after the arrival counts. */
  function Answer(symbols: set<string>, steps: seq<Step>, k: nat): Admission {
    if steps == [] then InFlight
    else
      var before, e := steps[..|steps| - 1], steps[|steps| - 1];
      var earlier := Answer(symbols, before, k);
      if e.KafkaSettles? && e.handler == k && earlier == InFlight && k < |Arrived(symbols, before)|
      then if e.ok then Acked else Failed
      else earlier
  }

  /** The handlers are those of the arrived ticks, with Kafka's answers. */
  ghost predicate Reflects(symbols: set<string>, steps: seq<Step>, s: Stream) {
    && s.symbols == symbols
    && (s.running <==> Stop !in steps)
    && s.sends == Arrived(symbols, steps)
    && Ticks(s.handlers) == Arrived(symbols, steps)
    && (forall k :: 0 <= k < |s.handlers| ==> s.handlers[k].admission == Answer(symbols, steps, k))
  }

  lemma {:induction false} NoAnswerBeforeArrival(symbols: set<string>, steps: seq<Step>, k: nat)
    requires k >= |Arrived(symbols, steps)|
    ensures Answer(symbols, steps, k) == InFlight
    decreases |steps|
  {
    if steps != [] {
      NoAnswerBeforeArrival(symbols, steps[..|steps| - 1], k);
    }
  }

  lemma ArrivalReflects(symbols: set<string>, steps: seq<Step>, s: Stream, t: Tick)
    requires Reflects(symbols, steps, s) && s.running && t.symbol in symbols
    ensures Reflects(symbols, steps + [Arrive(t)], OnArrive(s, t))
  {
    assert |s.handlers| == |Arrived(symbols, steps)|;
    ArrivalOnly(symbols, steps, t);
    ArrivalAddsTick(s, t);
    AnswersGrow(symbols, steps, steps + [Arrive(t)], s.handlers, OnArrive(s, t).handlers);
  }

  lemma AnswersGrow(symbols: set<string>, steps: seq<Step>, steps': seq<Step>, hs: seq<Handler>, hs': seq<Handler>)
    requires |hs'| == |hs| + 1 && hs'[|hs|].admission == Answer(symbols, steps, |hs|)
    requires forall k :: 0 <= k < |hs| ==> hs[k].admission == Answer(symbols, steps, k) && hs'[k] == hs[k]
    requires forall k :: Answer(symbols, steps', k) == Answer(symbols, steps, k)
    ensures forall k :: 0 <= k < |hs'| ==> hs'[k].admission == Answer(symbols, steps', k)
  {
    forall k | 0 <= k < |hs'| ensures hs'[k].admission == Answer(symbols, steps', k) {
      if k < |hs| {
        assert hs'[k] == hs[k];
      }
    }
  }

  lemma ArrivalOnly(symbols: set<string>, steps: seq<Step>, t: Tick)
    requires t.symbol in symbols && Stop !in steps
    ensures Arrived(symbols, steps + [Arrive(t)]) == Arrived(symbols, steps) + [t]
    ensures forall k :: Answer(symbols, steps + [Arrive(t)], k) == Answer(symbols, steps, k)
    ensures Answer(symbols, steps, |Arrived(symbols, steps)|) == InFlight
    ensures Stop !in steps + [Arrive(t)]
  {
    assert (steps + [Arrive(t)])[..|steps|] == steps;
    NoAnswerBeforeArrival(symbols, steps, |Arrived(symbols, steps)|);
  }

  lemma ArrivalAddsTick(s: Stream, t: Tick)
    requires t.symbol in s.symbols
    ensures var s' := OnArrive(s, t);
      && Ticks(s'.handlers) == Ticks(s.handlers) + [t] && |s'.handlers| == |s.handlers| + 1
      && s'.handlers[|s.handlers|].admission == InFlight
      && (forall k :: 0 <= k < |s.handlers| ==> s'.handlers[k] == s.handlers[k])
      && s'.sends == s.sends + [t] && s'.symbols == s.symbols && s'.running == s.running
  {
  }

  /** No step but an arrival changes which ticks there are. */
  lemma TicksStay(s: Stream, e: Step)
    requires Enabled(s, e) && !(e.Arrive? && e.tick.symbol in s.symbols)
    ensures Ticks(After(s, e).handlers) == Ticks(s.handlers) && After(s, e).sends == s.sends
    ensures After(s, e).symbols == s.symbols && (After(s, e).running <==> s.running && e != Stop)
  {
    assert |After(s, e).handlers| == |s.handlers|;
    assert forall k :: 0 <= k < |s.handlers| ==> After(s, e).handlers[k].tick == s.handlers[k].tick;
  }

  lemma AdmissionsStay(s: Stream, e: Step)
    requires Enabled(s, e) && !(e.Arrive? && e.tick.symbol in s.symbols)
    ensures |After(s, e).handlers| == |s.handlers|
    ensures forall k :: 0 <= k < |s.handlers| ==>
              After(s, e).handlers[k].admission
              == if e.KafkaSettles? && e.handler == k then if e.ok then Acked else Failed else s.handlers[k].admission
  {
  }

  lemma OtherReflects(symbols: set<string>, steps: seq<Step>, e: Step)
    requires Reflects(symbols, steps, Run(symbols, steps)) && Enabled(Run(symbols, steps), e)
    requires !(e.Arrive? && e.tick.symbol in symbols)
    ensures Reflects(symbols, steps + [e], After(Run(symbols, steps), e))
  {
    var s := Run(symbols, steps);
    assert (steps + [e])[..|steps|] == steps;
    assert |s.handlers| == |Arrived(symbols, steps)|;
    TicksStay(s, e);
    AdmissionsStay(s, e);
  }

  /** A step that is not enabled counts for nothing. */
  lemma IdleReflects(symbols: set<string>, steps: seq<Step>, e: Step)
    requires Reflects(symbols, steps, Run(symbols, steps)) && !Enabled(Run(symbols, steps), e)
    ensures Reflects(symbols, steps + [e], Run(symbols, steps))
  {
    assert (steps + [e])[..|steps|] == steps;
    assert |Run(symbols, steps).handlers| == |Arrived(symbols, steps)|;
  }

  lemma StepReflects(symbols: set<string>, steps: seq<Step>, e: Step)
    requires Reflects(symbols, steps, Run(symbols, steps))
    ensures Reflects(symbols, steps + [e], Run(symbols, steps + [e]))
  {
    var s := Run(symbols, steps);
    assert (steps + [e])[..|steps|] == steps;
    if !Enabled(s, e) {
      IdleReflects(symbols, steps, e);
    } else if e.Arrive? && e.tick.symbol in symbols {
      ArrivalReflects(symbols, steps, s, e.tick);
    } else {
      OtherReflects(symbols, steps, e);
    }
  }

  /**
   * Every tick of a subscribed symbol that arrives before stop() is sent to Kafka,
   * at once and in order, and nothing else is; the handlers that AckedOf and
   * PublishedOf range over are these ticks, acked exactly if Kafka's first answer
   * was positive.
   */
  lemma {:induction false} EveryArrivalIsSent(symbols: set<string>, steps: seq<Step>)
    ensures Reflects(symbols, steps, Run(symbols, steps))
    decreases |steps|
  {
    if steps != [] {
      EveryArrivalIsSent(symbols, steps[..|steps| - 1]);
      StepReflects(symbols, steps[..|steps| - 1], steps[|steps| - 1]);
      assert steps[..|steps| - 1] + [steps[|steps| - 1]] == steps;
    }
  }

  /** A pending stop() resolves as soon as all handlers have finished. */
  lemma StopCanResolve(symbols: set<string>, steps: seq<Step>)
    requires var s := Run(symbols, steps); !s.running && forall k :: 0 <= k < |s.handlers| ==> s.handlers[k].finished
    ensures Run(symbols, steps + [StopResolves]).stopResolved
  {
    ReachableInv(symbols, steps);
    assert (steps + [StopResolves])[..|steps|] == steps;
  }

  // --------------------------------------------------------------------- tails

  /** Handler k is the last of its symbol. */
  ghost predicate IsLast(hs: seq<Handler>, k: nat) {
    k < |hs| && forall i :: k < i < |hs| ==> hs[i].tick.symbol != hs[k].tick.symbol
  }

  /** The tails are the last handlers of the symbols, as long as they have not finished. */
  ghost predicate TailsExact(s: Stream) {
    && (forall symbol :: symbol in s.tails ==>
          IsLast(s.handlers, s.tails[symbol]) && s.handlers[s.tails[symbol]].tick.symbol == symbol
          && !s.handlers[s.tails[symbol]].finished)
    && (forall k: nat :: IsLast(s.handlers, k) && !s.handlers[k].finished ==>
          s.handlers[k].tick.symbol in s.tails && s.tails[s.handlers[k].tick.symbol] == k)
  }

  lemma LastOfMore(hs: seq<Handler>, h: Handler, k: nat)
    requires k < |hs|
    ensures IsLast(hs + [h], k) <==> IsLast(hs, k) && hs[k].tick.symbol != h.tick.symbol
  {
    var hs' := hs + [h];
    assert hs'[|hs|] == h && forall i :: 0 <= i < |hs| ==> hs'[i] == hs[i];
    if IsLast(hs', k) {
      assert forall i :: k < i < |hs| ==> hs[i].tick.symbol != hs[k].tick.symbol;
    }
  }

  lemma ArrivalKeepsTails(s: Stream, t: Tick)
    requires TailsExact(s)
    ensures TailsExact(OnArrive(s, t))
  {
    if t.symbol in s.symbols {
      var s' := OnArrive(s, t);
      forall k: nat | k < |s.handlers|
        ensures IsLast(s'.handlers, k) <==> IsLast(s.handlers, k) && s.handlers[k].tick.symbol != t.symbol
      {
        LastOfMore(s.handlers, s'.handlers[|s.handlers|], k);
      }
    }
  }

  lemma SameLast(hs: seq<Handler>, hs': seq<Handler>, k: nat)
    requires |hs'| == |hs| && forall i :: 0 <= i < |hs| ==> hs'[i].tick == hs[i].tick
    ensures IsLast(hs', k) <==> IsLast(hs, k)
  {
  }

  lemma TailsKept(s: Stream, s': Stream)
    requires TailsExact(s) && s'.tails == s.tails && |s'.handlers| == |s.handlers|
    requires forall i :: 0 <= i < |s.handlers| ==>
               s'.handlers[i].tick == s.handlers[i].tick && s'.handlers[i].finished == s.handlers[i].finished
    ensures TailsExact(s')
  {
    forall k: nat ensures IsLast(s'.handlers, k) <==> IsLast(s.handlers, k) {
      SameLast(s.handlers, s'.handlers, k);
    }
  }

  lemma FinishKeepsTails(s: Stream, k: nat)
    requires TailsExact(s) && Enabled(s, HandlerFinishes(k))
    ensures TailsExact(After(s, HandlerFinishes(k)))
  {
    var s' := After(s, HandlerFinishes(k));
    forall j: nat ensures IsLast(s'.handlers, j) <==> IsLast(s.handlers, j) {
      SameLast(s.handlers, s'.handlers, j);
    }
  }

  lemma HandlerKeepsTails(s: Stream, e: Step)
    requires TailsExact(s) && Enabled(s, e) && !e.Arrive?
    ensures TailsExact(After(s, e))
  {
    if e.HandlerFinishes? {
      FinishKeepsTails(s, e.handler);
    } else {
      TailsKept(s, After(s, e));
    }
  }

  /**
   * The tail of a symbol is kept exactly as long as the last handler of the symbol
   * has not finished: none is forgotten too early, and none stays.
   */
  lemma {:induction false} TailsAreExact(symbols: set<string>, steps: seq<Step>)
    ensures TailsExact(Run(symbols, steps))
    decreases |steps|
  {
    if steps != [] {
      TailsAreExact(symbols, steps[..|steps| - 1]);
      var s, e := Run(symbols, steps[..|steps| - 1]), steps[|steps| - 1];
      if Enabled(s, e) {
        if e.Arrive? { ArrivalKeepsTails(s, e.tick); } else { HandlerKeepsTails(s, e); }
      }
    }
  }
}
