// The upstream feed as an object; each method is one stretch of code between
// two awaits, proved to do what the functions of RealtimeStream say.
module TwelveDataStreamObject {
  import opened Basics
  import opened RealtimeStream

  class TwelveDataStream {
    const symbols: set<string>
    var running: bool
    var symbolRealtimeTails: map<string, nat>
    var activeMessageHandlers: set<nat>
    // the promises made so far, and what was asked of Kafka and Redis
    var handlers: seq<Handler>
    var sends: seq<Tick>
    var published: seq<nat>
    var stopWaits: Option<set<nat>>
    var stopResolved: bool

    ghost function Now(): Stream
      reads this
    {
      Stream(symbols, running, handlers, symbolRealtimeTails, activeMessageHandlers,
             sends, published, stopWaits, stopResolved)
    }

    constructor (symbols: set<string>)
      ensures Now() == NewStream(symbols) && Inv(Now())
    {
      this.symbols := symbols;
      running, symbolRealtimeTails, activeMessageHandlers := true, map[], {};
      handlers, sends, published, stopWaits, stopResolved := [], [], [], None, false;
    }

    /** A message of the socket; one that comes after stop() is dropped. */
    method OnMessage(tick: Tick)
      requires Inv(Now())
      modifies this
      ensures Inv(Now())
      ensures Now() == if old(running) then OnArrive(old(Now()), tick) else old(Now())
    {
      if !running {
        return;
      }
      ArriveKeepsInv(Now(), tick);
      HandlePriceUpdate(tick);
    }

    method HandlePriceUpdate(tick: Tick)
      modifies this
      ensures Now() == OnArrive(old(Now()), tick)
    {
      if tick.symbol !in symbols {
        return;
      }
      // the Kafka send starts before anything waits
      sends := sends + [tick];
      activeMessageHandlers := activeMessageHandlers + {|handlers|};
      RunSymbolRealtimePhase(tick);
    }

    method RunSymbolRealtimePhase(tick: Tick)
      modifies this`handlers, this`symbolRealtimeTails
      ensures var before := old(Now());
        Now() == before.(
          handlers := before.handlers + [Handler(tick, Lookup(before.tails, tick.symbol), InFlight, Queued, false)],
          tails := before.tails[tick.symbol := |before.handlers|])
    {
      var previousTail := Lookup(symbolRealtimeTails, tick.symbol);
      var current := |handlers|;
      handlers := handlers + [Handler(tick, previousTail, InFlight, Queued, false)];
      symbolRealtimeTails := symbolRealtimeTails[tick.symbol := current];
    }

    method KafkaAdmissionSettles(k: nat, ok: bool)
      requires Inv(Now()) && Enabled(Now(), KafkaSettles(k, ok))
      modifies this
      ensures Inv(Now()) && Now() == After(old(Now()), KafkaSettles(k, ok))
    {
      StepKeepsInv(Now(), KafkaSettles(k, ok));
      handlers := handlers[k := handlers[k].(admission := if ok then Acked else Failed)];
    }

    method PreviousTailSettled(k: nat)
      requires Inv(Now()) && Enabled(Now(), PhaseBegins(k))
      modifies this
      ensures Inv(Now()) && Now() == After(old(Now()), PhaseBegins(k))
    {
      StepKeepsInv(Now(), PhaseBegins(k));
      handlers := handlers[k := handlers[k].(phase := AwaitingKafka)];
    }

    method AfterKafkaAdmission(k: nat)
      requires Inv(Now()) && Enabled(Now(), AdmissionObserved(k))
      modifies this
      ensures Inv(Now()) && Now() == After(old(Now()), AdmissionObserved(k))
    {
      StepKeepsInv(Now(), AdmissionObserved(k));
      if handlers[k].admission != Acked {
        handlers := handlers[k := handlers[k].(phase := Settled)];
        return;
      }
      handlers := handlers[k := handlers[k].(phase := Publishing)];
      published := published + [k];
    }

    method PublishSafelySettles(k: nat)
      requires Inv(Now()) && Enabled(Now(), RedisSettles(k))
      modifies this
      ensures Inv(Now()) && Now() == After(old(Now()), RedisSettles(k))
    {
      StepKeepsInv(Now(), RedisSettles(k));
      handlers := handlers[k := handlers[k].(phase := Settled)];
    }

    method RealtimePhaseFinally(k: nat)
      requires Inv(Now()) && Enabled(Now(), HandlerFinishes(k))
      modifies this
      ensures Inv(Now()) && Now() == After(old(Now()), HandlerFinishes(k))
    {
      StepKeepsInv(Now(), HandlerFinishes(k));
      var symbol := handlers[k].tick.symbol;
      handlers := handlers[k := handlers[k].(finished := true)];
      if symbol in symbolRealtimeTails && symbolRealtimeTails[symbol] == k {
        symbolRealtimeTails := symbolRealtimeTails - {symbol};
      }
    }

    method ForgetHandler(k: nat)
      requires Inv(Now()) && Enabled(Now(), HandlerLeaves(k))
      modifies this
      ensures Inv(Now()) && Now() == After(old(Now()), HandlerLeaves(k))
    {
      StepKeepsInv(Now(), HandlerLeaves(k));
      activeMessageHandlers := activeMessageHandlers - {k};
    }

    method StopFeed()
      requires Inv(Now())
      modifies this
      ensures Inv(Now()) && Now() == if old(running) then After(old(Now()), Stop) else old(Now())
    {
      if !running {
        return;
      }
      StepKeepsInv(Now(), Stop);
      running := false;
      stopWaits := Some(activeMessageHandlers);
    }
  }
}
