// The resources of an epoch against the ticks in flight: a journal interleaves
// the entries of the runtime's ledger with the steps of each epoch's feed.
module EpochShutdown {
  import opened ElectionCluster
  import opened IngestionRuntime
  import Feeds = RealtimeStream

  datatype Act = Note(entry: Entry) | FeedStep(epoch: nat, step: Feeds.Step)

  type Journal = seq<Act>

  /** The ledger within the journal. */
  function Notes(journal: Journal): seq<Entry> {
    if journal == [] then []
    else
      var rest, act := Notes(journal[..|journal| - 1]), journal[|journal| - 1];
      if act.Note? then rest + [act.entry] else rest
  }

  /** The steps of the feed of epoch `e`. */
  function StepsOf(journal: Journal, e: nat): seq<Feeds.Step> {
    if journal == [] then []
    else
      var rest, act := StepsOf(journal[..|journal| - 1], e), journal[|journal| - 1];
      if act.FeedStep? && act.epoch == e then rest + [act.step] else rest
  }

  function FeedOf(symbols: set<string>, journal: Journal, e: nat): Feeds.Stream {
    Feeds.Run(symbols, StepsOf(journal, e))
  }

  /** A feed takes steps only once it has been made. */
  ghost predicate FeedsExist(journal: Journal) {
    forall x :: 0 <= x < |journal| && journal[x].FeedStep? ==> Note(Opened(Feed, journal[x].epoch)) in journal[..x]
  }

  /** The stop() of a feed is awaited: unless it rejects, it has resolved when the ledger notes it. */
  ghost predicate StopsAwaited(symbols: set<string>, journal: Journal, rejected: set<nat>) {
    forall x, e :: 0 <= x < |journal| && journal[x] == Note(Closed(Feed, e)) && e !in rejected
                   ==> FeedOf(symbols, journal[..x], e).stopResolved
  }

  lemma {:induction false} NotesPrefix(journal: Journal, x: nat)
    requires x <= |journal|
    ensures Notes(journal[..x]) <= Notes(journal)
    decreases |journal|
  {
    if x == |journal| {
      assert journal[..x] == journal;
    } else {
      var shorter := journal[..|journal| - 1];
      NotesPrefix(shorter, x);
      assert shorter[..x] == journal[..x];
    }
  }

  /** A note stands in the ledger after all notes before it. */
  lemma NotePosition(journal: Journal, x: nat)
    requires x < |journal| && journal[x].Note?
    ensures var p := |Notes(journal[..x])|; p < |Notes(journal)| && Notes(journal)[p] == journal[x].entry
  {
    assert journal[..x + 1][..x] == journal[..x];
    NotesPrefix(journal, x + 1);
  }

  lemma {:induction false} FindNote(journal: Journal, entry: Entry) returns (x: nat)
    requires entry in Notes(journal)
    ensures x < |journal| && journal[x] == Note(entry)
    decreases |journal|
  {
    var n := |journal| - 1;
    if journal[n] == Note(entry) {
      x := n;
    } else {
      x := FindNote(journal[..n], entry);
    }
  }

  lemma {:induction false} StepsPrefix(journal: Journal, x: nat, e: nat)
    requires x <= |journal|
    ensures StepsOf(journal[..x], e) <= StepsOf(journal, e)
    decreases |journal|
  {
    if x == |journal| {
      assert journal[..x] == journal;
    } else {
      var shorter := journal[..|journal| - 1];
      StepsPrefix(shorter, x, e);
      assert shorter[..x] == journal[..x];
    }
  }

  lemma {:induction false} NoFeedNoSteps(journal: Journal, e: nat)
    requires FeedsExist(journal) && Note(Opened(Feed, e)) !in journal
    ensures StepsOf(journal, e) == []
    decreases |journal|
  {
    if journal != [] {
      var shorter := journal[..|journal| - 1];
      assert forall x :: 0 <= x < |shorter| ==> shorter[..x] == journal[..x];
      NoFeedNoSteps(shorter, e);
    }
  }

  lemma {:induction false} CountedIsIn(ledger: seq<Entry>, entry: Entry)
    ensures Count(ledger, entry) > 0 <==> entry in ledger
    decreases |ledger|
  {
    if ledger != [] {
      CountedIsIn(ledger[..|ledger| - 1], entry);
    }
  }

  /** Notes that are out of order in the journal are out of order in the ledger. */
  lemma NotesInOrder(journal: Journal, x: nat, y: nat, to: nat)
    requires x < y < |journal| && journal[x].Note? && journal[y].Note?
    requires InOrder(Notes(journal), 0, to)
    ensures Due(journal[x].entry) < Due(journal[y].entry)
  {
    NotePosition(journal, x);
    NotePosition(journal, y);
    assert journal[..x + 1][..x] == journal[..x];
    NotesPrefix(journal[..y], x + 1);
    assert journal[..y][..x + 1] == journal[..x + 1];
  }

  /** An epoch that had a feed and has stopped its producer has stopped its feed. */
  lemma FeedIsClosed(r: Runtime, e: nat)
    requires LatestOpen(r) || AllClosed(r)
    requires Opened(Feed, e) in r.ledger && Closed(Producer, e) in r.ledger
    ensures Closed(Feed, e) in r.ledger
  {
    LedgerCounts(r, Feed, e);
    LedgerCounts(r, Producer, e);
    CountedIsIn(r.ledger, Opened(Feed, e));
    CountedIsIn(r.ledger, Closed(Producer, e));
    CountedIsIn(r.ledger, Closed(Feed, e));
  }

  /** If epoch `e` had a feed, its stop is noted before the producer's. */
  lemma FeedClosedFirst(journal: Journal, r: Runtime, y: nat, e: nat) returns (x: nat)
    requires (LatestOpen(r) || AllClosed(r)) && Notes(journal) == r.ledger
    requires y < |journal| && journal[y] == Note(Closed(Producer, e)) && Note(Opened(Feed, e)) in journal
    ensures x < y && journal[x] == Note(Closed(Feed, e))
  {
    var o :| 0 <= o < |journal| && journal[o] == Note(Opened(Feed, e));
    NotePosition(journal, o);
    NotePosition(journal, y);
    FeedIsClosed(r, e);
    x := FindNote(journal, Closed(Feed, e));
    LedgerInOrder(r);
    FeedBeforeProducer(journal, x, y, e, 6 * r.epoch);
  }

  lemma FeedBeforeProducer(journal: Journal, x: nat, y: nat, e: nat, to: nat)
    requires x < |journal| && y < |journal| && InOrder(Notes(journal), 0, to)
    requires journal[x] == Note(Closed(Feed, e)) && journal[y] == Note(Closed(Producer, e))
    ensures x < y
  {
    if y < x {
      NotesInOrder(journal, y, x, to);
    }
  }

  /** A feed whose stop has resolved after `x` acts has no send in flight after `z` acts, and has sent nothing since. */
  lemma ResolvedFeedIsQuiet(symbols: set<string>, journal: Journal, x: nat, z: nat, e: nat)
    requires x <= z <= |journal| && FeedOf(symbols, journal[..x], e).stopResolved
    ensures FeedOf(symbols, journal[..z], e).sends == FeedOf(symbols, journal[..x], e).sends
    ensures NoSendInFlight(FeedOf(symbols, journal[..z], e))
  {
    assert journal[..z][..x] == journal[..x];
    StepsPrefix(journal[..z], x, e);
    var before, all := StepsOf(journal[..x], e), StepsOf(journal[..z], e);
    assert all == before + all[|before|..];
    Feeds.StoppedStreamIsQuiet(symbols, before, all[|before|..]);
  }

  predicate NoSendInFlight(s: Feeds.Stream) {
    forall k :: 0 <= k < |s.handlers| ==> s.handlers[k].admission != Feeds.InFlight
  }

  // -------------------------------------------------------------- main results

  /**
   * In every reachable cluster, for every interleaving of a service's ledger with
   * the steps of its feeds: unless the stop of the epoch's feed rejected, no Kafka
   * send is in flight when the producer is stopped, and none is started after.
   */
  lemma NoSendAtDisconnect(size: nat, moves: seq<Move>, i: nat, faults: seq<Faults>,
                           symbols: set<string>, journal: Journal, rejected: set<nat>, y: nat, z: nat, e: nat)
    requires i < |Run(size, moves).services|
    requires var trace := Run(size, moves).services[i].trace;
      |faults| == |trace| && OutcomesMatch(trace, faults) && Notes(journal) == RuntimeAfter(trace, faults).ledger
    requires FeedsExist(journal) && StopsAwaited(symbols, journal, rejected)
    requires y < z <= |journal| && journal[y] == Note(Closed(Producer, e)) && e !in rejected
    ensures NoSendInFlight(FeedOf(symbols, journal[..y], e))
    ensures FeedOf(symbols, journal[..z], e).sends == FeedOf(symbols, journal[..y], e).sends
  {
    EpochTeardown(size, moves, i, faults, Producer, e);
    var r := RuntimeAfter(Run(size, moves).services[i].trace, faults);
    if Note(Opened(Feed, e)) in journal {
      var x := FeedClosedFirst(journal, r, y, e);
      ResolvedFeedIsQuiet(symbols, journal, x, y, e);
      ResolvedFeedIsQuiet(symbols, journal, x, z, e);
    } else {
      NeverOpened(journal, y, e);
      NeverOpened(journal, z, e);
    }
  }

  lemma NeverOpened(journal: Journal, z: nat, e: nat)
    requires z <= |journal| && FeedsExist(journal) && Note(Opened(Feed, e)) !in journal
    ensures StepsOf(journal[..z], e) == []
  {
    assert forall x :: 0 <= x < z ==> journal[..z][..x] == journal[..x];
    NoFeedNoSteps(journal[..z], e);
  }
}
