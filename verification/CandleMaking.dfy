// Building one-minute candles from ticks (candle.maker.ts).
module CandleMaking {
  import opened Basics

  datatype Tick = Tick(symbol: string, price: real, timestamp: real)

  datatype Candle = Candle(
    symbol: string,
    startTime: int,
    open: real,
    high: real,
    low: real,
    close: real,
    volume: real)

  /** The epoch second at which the minute holding `timestamp` starts. */
  function MinuteStart(timestamp: real): (start: int)
    ensures start % 60 == 0
    ensures start as real <= timestamp < (start + 60) as real
  {
    var minutes := (timestamp / 60.0).Floor;
    assert minutes as real <= timestamp / 60.0 < minutes as real + 1.0;
    minutes * 60
  }

  predicate SameMinute(current: Option<Candle>, timestamp: real) {
    current.Some? && current.value.startTime == MinuteStart(timestamp)
  }

  /** The candle in progress after a tick. */
  function Updated(current: Option<Candle>, symbol: string, price: real, volume: real, timestamp: real): Candle {
    if SameMinute(current, timestamp) then
      var c := current.value;
      c.(high := Max(c.high, price), low := Min(c.low, price), close := price, volume := c.volume + volume)
    else
      Candle(symbol, MinuteStart(timestamp), price, price, price, price, volume)
  }

  /** The candle that a tick completes, if it belongs to another minute. */
  function Completed(current: Option<Candle>, timestamp: real): Option<Candle> {
    if SameMinute(current, timestamp) then None else current
  }

  // ------------------------------------------------- candle of a whole minute

  datatype Trade = Trade(price: real, volume: real, timestamp: real)

  /** What a maker of `symbol` holds after these trades. */
  function Built(symbol: string, trades: seq<Trade>): Option<Candle> {
    if trades == [] then None
    else
      var t := trades[|trades| - 1];
      Some(Updated(Built(symbol, trades[..|trades| - 1]), symbol, t.price, t.volume, t.timestamp))
  }

  function TotalVolume(trades: seq<Trade>): real {
    if trades == [] then 0.0 else TotalVolume(trades[..|trades| - 1]) + trades[|trades| - 1].volume
  }

  ghost predicate InMinute(trades: seq<Trade>, start: int) {
    start % 60 == 0 && forall i :: 0 <= i < |trades| ==> start as real <= trades[i].timestamp < (start + 60) as real
  }

  /** `c` has the first, highest, lowest and last price of the trades, and their total volume. */
  ghost predicate IsCandleOf(c: Candle, symbol: string, trades: seq<Trade>, start: int)
    requires trades != []
  {
    && c.symbol == symbol && c.startTime == start
    && c.open == trades[0].price && c.close == trades[|trades| - 1].price
    && (exists i :: 0 <= i < |trades| && trades[i].price == c.high)
    && (exists i :: 0 <= i < |trades| && trades[i].price == c.low)
    && (forall i :: 0 <= i < |trades| ==> c.low <= trades[i].price <= c.high)
    && c.volume == TotalVolume(trades)
  }

  lemma MinuteOf(timestamp: real, start: int)
    requires start % 60 == 0 && start as real <= timestamp < (start + 60) as real
    ensures MinuteStart(timestamp) == start
  {
    var other := MinuteStart(timestamp);
    assert other % 60 == 0 && -60 < other - start < 60;
  }

  /** The trades of one minute make up one candle: the first opens it and each later one is added. */
  lemma {:induction false} MinuteMakesOneCandle(symbol: string, trades: seq<Trade>, start: int)
    requires trades != [] && InMinute(trades, start)
    ensures Built(symbol, trades).Some? && IsCandleOf(Built(symbol, trades).value, symbol, trades, start)
    decreases |trades|
  {
    var n := |trades| - 1;
    if n > 0 {
      MinuteMakesOneCandle(symbol, trades[..n], start);
      TradeJoins(symbol, trades, Built(symbol, trades[..n]).value, start);
    } else {
      MinuteOf(trades[0].timestamp, start);
      assert TotalVolume(trades[..0]) == 0.0;
    }
  }

  /** No trade of its own minute completes a candle, and every other does. */
  lemma CompletesOutsideMinute(c: Candle, timestamp: real)
    requires c.startTime % 60 == 0
    ensures Completed(Some(c), timestamp)
            == if c.startTime as real <= timestamp < (c.startTime + 60) as real then None else Some(c)
  {
    if c.startTime as real <= timestamp < (c.startTime + 60) as real {
      MinuteOf(timestamp, c.startTime);
    }
  }

  lemma TradeJoins(symbol: string, trades: seq<Trade>, before: Candle, start: int)
    requires |trades| > 1 && InMinute(trades, start)
    requires IsCandleOf(before, symbol, trades[..|trades| - 1], start)
    ensures var t := trades[|trades| - 1];
      IsCandleOf(Updated(Some(before), symbol, t.price, t.volume, t.timestamp), symbol, trades, start)
  {
    var n := |trades| - 1;
    var t := trades[n];
    MinuteOf(t.timestamp, start);
    var after := Updated(Some(before), symbol, t.price, t.volume, t.timestamp);
    var i :| 0 <= i < n && trades[..n][i].price == before.high;
    var j :| 0 <= j < n && trades[..n][j].price == before.low;
    assert trades[if t.price > before.high then n else i].price == after.high;
    assert trades[if t.price < before.low then n else j].price == after.low;
    assert forall k :: 0 <= k < n ==> trades[..n][k] == trades[k];
  }

  class CandleMaker {
    var currentCandle: Option<Candle>

    constructor ()
      ensures currentCandle == None
    {
      currentCandle := None;
    }

    method Update(symbol: string, price: real, volume: real, timestamp: real) returns (completed: Option<Candle>)
      modifies this
      ensures currentCandle == Some(Updated(old(currentCandle), symbol, price, volume, timestamp))
      ensures completed == Completed(old(currentCandle), timestamp)
    {
      var candleStartTime := MinuteStart(timestamp);

      if currentCandle.None? || currentCandle.value.startTime != candleStartTime {
        completed := currentCandle;
        currentCandle := Some(Candle(symbol, candleStartTime, price, price, price, price, volume));
        return;
      }

      var candle := currentCandle.value;
      candle := candle.(high := Max(candle.high, price));
      candle := candle.(low := Min(candle.low, price));
      candle := candle.(close := price);
      candle := candle.(volume := candle.volume + volume);
      currentCandle := Some(candle);
      completed := None;
    }
  }
}
