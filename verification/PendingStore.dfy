// The pending-candle store (storage/rocks-pending-candle.store.ts) over its
// ordered database: enqueue, peek and ack.
module PendingStore {
  import opened Basics
  import opened PendingKeys

  type Db = map<string, Candle>

  datatype Entry = Entry(key: string, candle: Candle)

  /** `key` comes before all other keys of `keys`. */
  predicate IsFirst(key: string, keys: set<string>) {
    key in keys && forall k :: k in keys ==> k == key || Less(key, k)
  }

  lemma {:induction false} FirstExists(keys: set<string>)
    requires keys != {}
    ensures exists key :: IsFirst(key, keys)
    decreases |keys|
  {
    var k :| k in keys;
    var rest := keys - {k};
    if rest == {} {
      assert keys == {k};
      assert IsFirst(k, keys);
    } else {
      FirstExists(rest);
      var f :| IsFirst(f, rest);
      LessTotal(k, f);
      if Less(k, f) {
        forall j | j in keys ensures j == k || Less(k, j) {
          if j != k && j != f {
            LessTransitive(k, f, j);
          }
        }
        assert IsFirst(k, keys);
      } else {
        assert IsFirst(f, keys);
      }
    }
  }

  lemma FirstUnique(a: string, b: string, keys: set<string>)
    requires IsFirst(a, keys) && IsFirst(b, keys)
    ensures a == b
  {
    LessTotal(a, b);
  }

  /** What a scan of `keys` in key order yields before it is broken off after `n` entries. */
  ghost function Scan(db: Db, keys: set<string>, n: nat): (r: seq<Entry>)
    requires keys <= db.Keys
    ensures |r| == if n <= |keys| then n else |keys|
    ensures forall i :: 0 <= i < |r| ==> r[i].key in keys && r[i].candle == db[r[i].key]
    decreases n
  {
    if n == 0 || keys == {} then []
    else
      FirstExists(keys);
      var key :| IsFirst(key, keys);
      [Entry(key, db[key])] + Scan(db, keys - {key}, n - 1)
  }

  lemma ScanStep(db: Db, keys: set<string>, key: string, n: nat)
    requires keys <= db.Keys && n > 0 && IsFirst(key, keys)
    ensures Scan(db, keys, n) == [Entry(key, db[key])] + Scan(db, keys - {key}, n - 1)
  {
    var first := Scan(db, keys, n)[0].key;
    assert IsFirst(first, keys);
    FirstUnique(first, key, keys);
  }

  /** Moving the next entry from the scan to the result keeps the two together. */
  lemma ScanMoves(db: Db, result: seq<Entry>, remaining: set<string>, key: string, n: nat)
    requires remaining <= db.Keys && n > 0 && IsFirst(key, remaining)
    ensures result + Scan(db, remaining, n) == result + [Entry(key, db[key])] + Scan(db, remaining - {key}, n - 1)
  {
    ScanStep(db, remaining, key, n);
    Shift(result, Entry(key, db[key]), Scan(db, remaining - {key}, n - 1));
  }

  lemma Shift(a: seq<Entry>, x: Entry, b: seq<Entry>)
    ensures a + ([x] + b) == a + [x] + b
  {
  }

  function RangeKeys(db: Db): set<string> {
    set k | k in db && InRange(k)
  }

  /** What a limit asks for: nothing unless it is a positive integer. */
  function Wanted(limit: Number): nat {
    if limit.Finite? && limit.value == limit.value.Floor as real && limit.value > 0.0 then limit.value.Floor else 0
  }

  ghost function Peeked(db: Db, limit: Number): seq<Entry> {
    Scan(db, RangeKeys(db), Wanted(limit))
  }

  function Keys(batch: seq<Entry>): (keys: seq<string>)
    ensures |keys| == |batch| && forall i :: 0 <= i < |batch| ==> keys[i] == batch[i].key
  {
    seq(|batch|, i requires 0 <= i < |batch| => batch[i].key)
  }

  function KeySet(keys: seq<string>): set<string> {
    set k | k in keys
  }

  /**
   * The store after an enqueue, and whether its promise resolves. A candle that
   * is not valid, or whose symbol has no escape, is refused; otherwise the write
   * may land or not, and even one that lands may be reported as failed.
   */
  function Enqueued(db: Db, candle: Candle, lands: bool, reported: bool): (Db, bool) {
    if !Storable(candle) then (db, false)
    else if lands then (db[CreateKey(candle).value := candle], reported)
    else (db, false)
  }

  function Acked(db: Db, keys: seq<string>, lands: bool, reported: bool): (Db, bool) {
    if keys == [] then (db, true)
    else if lands then (db - KeySet(keys), reported)
    else (db, false)
  }

  class RocksPendingCandleStore {
    var db: Db

    constructor (onDisk: Db)
      ensures db == onDisk
    {
      db := onDisk;
    }

    method Enqueue(candle: Candle, lands: bool, reported: bool) returns (ok: bool)
      modifies this
      ensures (db, ok) == Enqueued(old(db), candle, lands, reported)
    {
      var error := ValidateCandle(candle);
      if error.Some? {
        return false;
      }
      var key := CreateKey(candle);
      if key == None {
        return false;
      }
      if lands {
        db := db[key.value := candle];
      }
      ok := lands && reported;
    }

    /** The iterator of the database yields the keys in their order. */
    method NextKey(remaining: set<string>) returns (key: string)
      requires remaining != {}
      ensures IsFirst(key, remaining)
    {
      FirstExists(remaining);
      key :| key in remaining && forall k :: k in remaining ==> k == key || Less(key, k);
    }

    method Peek(limit: Number) returns (result: seq<Entry>)
      ensures result == Peeked(db, limit)
    {
      result := [];
      var n := Wanted(limit);
      if n == 0 {
        return;
      }
      // what the range scan has yet to yield
      var remaining := RangeKeys(db);
      ghost var all := Scan(db, remaining, n);
      while remaining != {}
        invariant remaining <= db.Keys && |result| < n
        invariant all == result + Scan(db, remaining, n - |result|)
        decreases remaining
      {
        var key := NextKey(remaining);
        ScanMoves(db, result, remaining, key, n - |result|);
        result, remaining := result + [Entry(key, db[key])], remaining - {key};
        if |result| >= n {
          break;
        }
      }
    }

    /** One transaction removes all the keys. */
    method Ack(keys: seq<string>, lands: bool, reported: bool) returns (ok: bool)
      modifies this
      ensures (db, ok) == Acked(old(db), keys, lands, reported)
    {
      if keys == [] {
        return true;
      }
      var transaction := db;
      for i := 0 to |keys|
        invariant transaction == db - KeySet(keys[..i])
      {
        assert KeySet(keys[..i + 1]) == KeySet(keys[..i]) + {keys[i]};
        transaction := transaction - {keys[i]};
      }
      assert keys[..|keys|] == keys;
      if lands {
        db := transaction;
      }
      ok := lands && reported;
    }
  }

  // -------------------------------------------------------------- main results

  /** `batch` holds the oldest pending candles: in order, and before everything left out. */
  ghost predicate AreOldest(db: Db, batch: seq<Entry>) {
    && (forall i :: 0 <= i < |batch| ==> batch[i].key in db && db[batch[i].key] == batch[i].candle)
    && (forall i, j :: 0 <= i < j < |batch| ==> Older(batch[i].candle, batch[j].candle))
    && (forall i, k :: 0 <= i < |batch| && k in db && k !in Keys(batch) ==> Older(batch[i].candle, db[k]))
  }

  /** Every candle is stored under its own key. */
  ghost predicate KeyedDb(db: Db) {
    forall k :: k in db ==> Keyed(db[k], k)
  }

  /** The two stores agree on every key that is not among `keys`. */
  ghost predicate SameOutside(db: Db, db': Db, keys: seq<string>) {
    forall k :: k !in keys ==> (k in db' <==> k in db) && (k in db ==> db'[k] == db[k])
  }

  /**
   * An enqueue that resolves has put the candle under its key, one that is refused
   * or does not land has changed nothing, and none touches another key.
   */
  lemma EnqueuePuts(db: Db, candle: Candle, lands: bool, reported: bool, key: string)
    requires KeyedDb(db) && (Storable(candle) ==> Keyed(candle, key))
    ensures var (db', ok) := Enqueued(db, candle, lands, reported);
      && KeyedDb(db') && SameOutside(db, db', [key])
      && (ok <==> Storable(candle) && lands && reported)
      && (ok ==> key in db' && db'[key] == candle)
      && (!Storable(candle) || !lands ==> db' == db)
  {
  }

  /** An ack that resolves has removed all its keys and no other; one that does not land has removed none. */
  lemma AckRemoves(db: Db, keys: seq<string>, lands: bool, reported: bool)
    requires KeyedDb(db)
    ensures var (db', ok) := Acked(db, keys, lands, reported);
      && KeyedDb(db') && SameOutside(db, db', keys)
      && (ok <==> keys == [] || (lands && reported))
      && (ok || lands ==> forall k :: k in keys ==> k !in db')
      && (!lands ==> db' == db)
  {
  }

  /** A scan yields its keys in order, before all others. */
  lemma {:induction false} ScanOrdered(db: Db, keys: set<string>, n: nat)
    requires keys <= db.Keys
    ensures InOrder(Keys(Scan(db, keys, n))) && BeforeRest(Keys(Scan(db, keys, n)), keys)
    decreases n
  {
    var r := Keys(Scan(db, keys, n));
    if n > 0 && keys != {} {
      var key := r[0];
      assert IsFirst(key, keys);
      ScanStep(db, keys, key, n);
      ScanOrdered(db, keys - {key}, n - 1);
      var tail := Scan(db, keys - {key}, n - 1);
      KeysOfMore(Entry(key, db[key]), tail);
      FirstThenRest(key, Keys(tail), keys);
    }
  }

  lemma KeysOfMore(e: Entry, tail: seq<Entry>)
    ensures Keys([e] + tail) == [e.key] + Keys(tail)
  {
  }

  ghost predicate InOrder(r: seq<string>) {
    forall i, j :: 0 <= i < j < |r| ==> Less(r[i], r[j])
  }

  ghost predicate BeforeRest(r: seq<string>, keys: set<string>) {
    forall i, k :: 0 <= i < |r| && k in keys && k !in r ==> Less(r[i], k)
  }

  lemma FirstThenRest(key: string, rest: seq<string>, keys: set<string>)
    requires IsFirst(key, keys) && InOrder(rest) && BeforeRest(rest, keys - {key})
    requires forall i :: 0 <= i < |rest| ==> rest[i] in keys - {key}
    ensures InOrder([key] + rest) && BeforeRest([key] + rest, keys)
  {
    var r := [key] + rest;
    forall i, k | 0 <= i < |r| && k in keys && k !in r ensures Less(r[i], k) {
      assert r[0] == key && k != key && k !in rest;
      if i > 0 {
        assert r[i] == rest[i - 1];
      }
    }
  }

  lemma AllInRange(db: Db)
    requires KeyedDb(db)
    ensures RangeKeys(db) == db.Keys
  {
    forall k | k in db ensures InRange(k) {
      KeysInRange(db[k], k);
    }
  }

  /** peek(n) returns the n oldest pending candles, or all of them if there are fewer. */
  lemma PeekReturnsOldest(db: Db, limit: Number)
    requires KeyedDb(db)
    ensures AreOldest(db, Peeked(db, limit))
    ensures |Peeked(db, limit)| == |KeySet(Keys(Peeked(db, limit)))|
            == if Wanted(limit) <= |db| then Wanted(limit) else |db|
  {
    AllInRange(db);
    var batch := Peeked(db, limit);
    ScanOrdered(db, db.Keys, Wanted(limit));
    OrderedAreOldest(db, batch);
    DistinctKeys(Keys(batch));
  }

  lemma OrderedAreOldest(db: Db, batch: seq<Entry>)
    requires KeyedDb(db) && InOrder(Keys(batch)) && BeforeRest(Keys(batch), db.Keys)
    requires forall i :: 0 <= i < |batch| ==> batch[i].key in db && db[batch[i].key] == batch[i].candle
    ensures AreOldest(db, batch)
  {
    var keys := Keys(batch);
    forall i, j | 0 <= i < j < |batch| ensures Older(batch[i].candle, batch[j].candle) {
      KeyOrder(batch[i].candle, batch[j].candle, keys[i], keys[j]);
    }
    forall i, k | 0 <= i < |batch| && k in db && k !in keys ensures Older(batch[i].candle, db[k]) {
      KeyOrder(batch[i].candle, db[k], keys[i], k);
    }
  }

  lemma {:induction false} DistinctKeys(keys: seq<string>)
    requires InOrder(keys)
    ensures |KeySet(keys)| == |keys|
    decreases |keys|
  {
    if keys != [] {
      var n := |keys| - 1;
      DistinctKeys(keys[..n]);
      LessTotal(keys[n], keys[n]);
      assert keys[n] !in keys[..n];
      assert KeySet(keys) == KeySet(keys[..n]) + {keys[n]};
    }
  }
}
