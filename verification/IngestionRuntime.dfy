// The resources of one leadership epoch (active-ingestion.runtime.ts), and what
// becomes of them when start() and stop() are the election's callbacks.
module IngestionRuntime {
  import opened Basics
  import opened LeaderElection
  import opened LeadershipInvariant
  import opened ElectionCluster
  import opened ElectionSafety

  datatype Resource = Publisher | Producer | Feed

  datatype Entry = Opened(resource: Resource, epoch: nat) | Closed(resource: Resource, epoch: nat)

  // Where a start() throws, if it does.
  datatype Fault =
    | NoFault
    | PublisherConstruction | ProducerConstruction | ProducerStart
    | FeedConstruction | FeedStart

  // Which of the three stops of a stop() reject.
  datatype StopFaults = StopFaults(feed: bool, producer: bool, publisher: bool)

  // Resources are named by the epoch, the number of the start() that made them.
  datatype Runtime = Runtime(
    publisher: Option<nat>,
    producer: Option<nat>,
    feed: Option<nat>,
    running: bool,
    epoch: nat,
    ledger: seq<Entry>)

  const NEW_RUNTIME := Runtime(None, None, None, false, 0, [])

  /** How many resources a start() has made when it throws or finishes. */
  function Made(f: Fault): nat {
    match f
    case PublisherConstruction => 0
    case ProducerConstruction => 1
    case ProducerStart => 2
    case FeedConstruction => 2
    case FeedStart => 3
    case NoFault => 3
  }

  function Opens(epoch: nat, made: nat): seq<Entry>
    requires made <= 3
  {
    if made == 0 then []
    else if made == 1 then [Opened(Publisher, epoch)]
    else if made == 2 then [Opened(Publisher, epoch), Opened(Producer, epoch)]
    else [Opened(Publisher, epoch), Opened(Producer, epoch), Opened(Feed, epoch)]
  }

  /** Feed, producer, publisher: the reverse of the order in which they were made. */
  function Closes(epoch: nat, made: nat): seq<Entry>
    requires made <= 3
  {
    if made == 0 then []
    else if made == 1 then [Closed(Publisher, epoch)]
    else if made == 2 then [Closed(Producer, epoch), Closed(Publisher, epoch)]
    else [Closed(Feed, epoch), Closed(Producer, epoch), Closed(Publisher, epoch)]
  }

  class ActiveIngestionRuntime {
    var publisher: Option<nat>
    var rawTickPublisher: Option<nat>
    var twelveDataStream: Option<nat>
    var running: bool
    var epoch: nat
    var ledger: seq<Entry>

    ghost function Now(): Runtime
      reads this
    {
      Runtime(publisher, rawTickPublisher, twelveDataStream, running, epoch, ledger)
    }

    constructor ()
      ensures Now() == NEW_RUNTIME
    {
      publisher, rawTickPublisher, twelveDataStream, running, epoch, ledger := None, None, None, false, 0, [];
    }

    method Open(resource: Resource, made: nat)
      modifies this`ledger
      ensures ledger == old(ledger) + [Opened(resource, made)]
    {
      ledger := ledger + [Opened(resource, made)];
    }

    /** Stops `resource` if there is one; the attempt is recorded whether or not it succeeds. */
    method Close(resource: Resource, handle: Option<nat>)
      modifies this`ledger
      ensures ledger == Noted(old(ledger), resource, handle)
    {
      if handle.Some? {
        ledger := ledger + [Closed(resource, handle.value)];
      }
    }

    method Start(fault: Fault) returns (ok: bool)
      modifies this
      ensures (Now(), ok) == Started(old(Now()), fault)
    {
      if running {
        return true;
      }
      var e := epoch;
      epoch := epoch + 1;
      if fault == PublisherConstruction {
        assert ledger == old(ledger) + Opens(e, 0);
        return false;
      }
      Open(Publisher, e);
      publisher := Some(e);
      assert ledger == old(ledger) + Opens(e, 1);
      if fault == ProducerConstruction {
        CleanupAfterStartFailure(Some(e));
        return false;
      }
      Open(Producer, e);
      rawTickPublisher := Some(e);
      assert ledger == old(ledger) + Opens(e, 2);
      if fault == ProducerStart || fault == FeedConstruction {
        CleanupAfterStartFailure(Some(e));
        return false;
      }
      Open(Feed, e);
      twelveDataStream := Some(e);
      assert ledger == old(ledger) + Opens(e, 3);
      if fault == FeedStart {
        CleanupAfterStartFailure(Some(e));
        return false;
      }
      running := true;
      ok := true;
    }

    method CleanupAfterStartFailure(startedPublisher: Option<nat>)
      modifies this
      ensures Now() == CleanedUp(old(Now()), startedPublisher)
    {
      running := false;
      var stream, producer := twelveDataStream, rawTickPublisher;
      twelveDataStream, rawTickPublisher, publisher := None, None, None;
      Close(Feed, stream);
      Close(Producer, producer);
      Close(Publisher, startedPublisher);
    }

    method Stop(faults: StopFaults) returns (ok: bool)
      modifies this
      ensures (Now(), ok) == TornDown(old(Now()), faults)
    {
      if !running && publisher == None && rawTickPublisher == None && twelveDataStream == None {
        return true;
      }
      running := false;
      var stream, producer, startedPublisher := twelveDataStream, rawTickPublisher, publisher;
      twelveDataStream, rawTickPublisher, publisher := None, None, None;
      var failed := false;
      if stream.Some? {
        Close(Feed, stream);
        failed := failed || faults.feed;
      }
      if producer.Some? {
        Close(Producer, producer);
        failed := failed || faults.producer;
      }
      if startedPublisher.Some? {
        Close(Publisher, startedPublisher);
        failed := failed || faults.publisher;
      }
      ok := !failed;
    }
  }

  // ------------------------------------------------------------- specification

  function Noted(ledger: seq<Entry>, resource: Resource, handle: Option<nat>): seq<Entry> {
    if handle.Some? then ledger + [Closed(resource, handle.value)] else ledger
  }

  function CleanedUp(r: Runtime, startedPublisher: Option<nat>): Runtime {
    Runtime(None, None, None, false, r.epoch,
            Noted(Noted(Noted(r.ledger, Feed, r.feed), Producer, r.producer), Publisher, startedPublisher))
  }

  function Started(r: Runtime, fault: Fault): (Runtime, bool) {
    if r.running then (r, true)
    else
      var e := r.epoch;
      var entries := r.ledger + Opens(e, Made(fault));
      var r' := Runtime(
        if Made(fault) >= 1 then Some(e) else r.publisher,
        if Made(fault) >= 2 then Some(e) else r.producer,
        if Made(fault) >= 3 then Some(e) else r.feed,
        fault == NoFault, e + 1, entries);
      if fault == NoFault then (r', true)
      else if fault == PublisherConstruction then (r', false)
      else (CleanedUp(r', Some(e)), false)
  }

  function TornDown(r: Runtime, f: StopFaults): (Runtime, bool) {
    if !r.running && r.publisher == None && r.producer == None && r.feed == None then (r, true)
    else (CleanedUp(r, r.publisher),
          !((r.feed.Some? && f.feed) || (r.producer.Some? && f.producer) || (r.publisher.Some? && f.publisher)))
  }

  // ------------------------------------------------ driven by the election

  // What the outside world does to the callback that settles at a history event.
  datatype Faults = Faults(start: Fault, stop: StopFaults)

  /** The runtime after a history of callbacks. */
  function RuntimeAfter(trace: seq<Event>, faults: seq<Faults>): Runtime
    requires |faults| == |trace|
  {
    if trace == [] then NEW_RUNTIME
    else
      var n := |trace| - 1;
      var r := RuntimeAfter(trace[..n], faults[..n]);
      match trace[n]
      case ActivationSettled(_, _) => Started(r, faults[n].start).0
      case DeactivationSettled(_, _) => TornDown(r, faults[n].stop).0
      case _ => r
  }

  /** The outcomes in the history are those of start() and stop(). */
  predicate OutcomesMatch(trace: seq<Event>, faults: seq<Faults>)
    requires |faults| == |trace|
  {
    trace == [] ||
    var n := |trace| - 1;
    var r := RuntimeAfter(trace[..n], faults[..n]);
    && OutcomesMatch(trace[..n], faults[..n])
    && match trace[n]
       case ActivationSettled(_, ok) => ok == Started(r, faults[n].start).1
       case DeactivationSettled(_, ok) => ok == TornDown(r, faults[n].stop).1
       case _ => true
  }

  ghost predicate Within(made: seq<nat>) {
    forall i :: 0 <= i < |made| ==> made[i] <= 3
  }

  /** The ledger of finished epochs: each opens some resources and then closes exactly those. */
  ghost function Epochs(made: seq<nat>): seq<Entry>
    requires Within(made)
  {
    if made == [] then []
    else
      var n := |made| - 1;
      Epochs(made[..n]) + Opens(n, made[n]) + Closes(n, made[n])
  }

  /** The ledger is that of `epoch` finished epochs, which made that many resources each. */
  ghost predicate Finished(ledger: seq<Entry>, epoch: nat, made: seq<nat>) {
    Within(made) && |made| == epoch && ledger == Epochs(made)
  }

  /** Nothing is open, and every epoch so far has been torn down. */
  ghost predicate AllClosed(r: Runtime) {
    && r.publisher == None && r.producer == None && r.feed == None && !r.running
    && exists made :: Finished(r.ledger, r.epoch, made)
  }

  /** The ledger is that of `epoch` epochs, all finished but the last, which has everything open. */
  ghost predicate FinishedButLast(ledger: seq<Entry>, epoch: nat, made: seq<nat>) {
    epoch > 0 && Within(made) && |made| == epoch - 1 && ledger == Epochs(made) + Opens(epoch - 1, 3)
  }

  /** The latest epoch has everything open, and every epoch before it has been torn down. */
  ghost predicate LatestOpen(r: Runtime) {
    && r.epoch > 0 && r.running
    && r.publisher == Some(r.epoch - 1) && r.producer == Some(r.epoch - 1) && r.feed == Some(r.epoch - 1)
    && exists made :: FinishedButLast(r.ledger, r.epoch, made)
  }

  lemma OneMore(made: seq<nat>, k: nat)
    requires Within(made) && k <= 3
    ensures Within(made + [k])
    ensures Epochs(made + [k]) == Epochs(made) + Opens(|made|, k) + Closes(|made|, k)
  {
    assert (made + [k])[..|made|] == made;
  }

  /** A start() that fails closes what it made, in reverse order. */
  lemma FailedStart(r: Runtime, fault: Fault)
    requires r.publisher == None && r.producer == None && r.feed == None && !r.running && fault != NoFault
    ensures var r' := Started(r, fault).0;
      && r'.publisher == None && r'.producer == None && r'.feed == None && !r'.running
      && r'.epoch == r.epoch + 1
      && r'.ledger == r.ledger + Opens(r.epoch, Made(fault)) + Closes(r.epoch, Made(fault))
  {
    match fault
    case PublisherConstruction =>
    case ProducerConstruction =>
    case ProducerStart =>
    case FeedConstruction =>
    case FeedStart =>
  }

  lemma CleanStart(r: Runtime)
    requires AllClosed(r)
    ensures var e := r.epoch;
      Started(r, NoFault) == (Runtime(Some(e), Some(e), Some(e), true, e + 1, r.ledger + Opens(e, 3)), true)
  {
  }

  lemma CleanStartOpens(r: Runtime)
    requires AllClosed(r)
    ensures LatestOpen(Started(r, NoFault).0)
  {
    var made :| Finished(r.ledger, r.epoch, made);
    CleanStart(r);
    assert FinishedButLast(r.ledger + Opens(r.epoch, 3), r.epoch + 1, made);
  }

  lemma FailedStartCloses(r: Runtime, fault: Fault)
    requires AllClosed(r) && fault != NoFault
    ensures AllClosed(Started(r, fault).0)
  {
    var made :| Finished(r.ledger, r.epoch, made);
    FailedStart(r, fault);
    OneMore(made, Made(fault));
    assert Finished(Started(r, fault).0.ledger, r.epoch + 1, made + [Made(fault)]);
  }

  lemma StartFromClosed(r: Runtime, fault: Fault)
    requires AllClosed(r)
    ensures var (r', ok) := Started(r, fault); if ok then LatestOpen(r') else AllClosed(r')
  {
    if fault == NoFault { CleanStartOpens(r); } else { FailedStartCloses(r, fault); }
  }

  lemma StopFromOpen(r: Runtime, f: StopFaults)
    requires LatestOpen(r)
    ensures AllClosed(TornDown(r, f).0)
  {
    var n := r.epoch - 1;
    var made :| FinishedButLast(r.ledger, r.epoch, made);
    OneMore(made, 3);
    assert TornDown(r, f).0.ledger == Epochs(made) + Opens(n, 3) + Closes(n, 3);
    assert Finished(TornDown(r, f).0.ledger, r.epoch, made + [3]);
  }

  /** The workload of the history is active exactly while the latest epoch is open. */
  lemma {:induction false} HistoryDrivesEpochs(trace: seq<Event>, faults: seq<Faults>)
    requires |faults| == |trace| && Legal(trace) && OutcomesMatch(trace, faults)
    ensures var w, r := PhaseOf(trace).work, RuntimeAfter(trace, faults);
      if w.Active? || (w.Halting? && w.wasActive) then LatestOpen(r) else AllClosed(r)
    decreases |trace|
  {
    if trace == [] {
      assert Finished(NEW_RUNTIME.ledger, 0, []);
    } else {
      var n := |trace| - 1;
      HistoryDrivesEpochs(trace[..n], faults[..n]);
      var r := RuntimeAfter(trace[..n], faults[..n]);
      match trace[n]
      case ActivationSettled(_, _) => StartFromClosed(r, faults[n].start);
      case DeactivationSettled(_, _) =>
        if r.running {
          StopFromOpen(r, faults[n].stop);
        }
      case _ =>
    }
  }

  // -------------------------------------------------------------- main results

  /** How often `entry` occurs in the ledger. */
  function Count(ledger: seq<Entry>, entry: Entry): nat {
    if ledger == [] then 0
    else Count(ledger[..|ledger| - 1], entry) + (if ledger[|ledger| - 1] == entry then 1 else 0)
  }

  /** Resources are made in the order publisher, producer, feed. */
  function Rank(resource: Resource): nat {
    match resource
    case Publisher => 0
    case Producer => 1
    case Feed => 2
  }

  lemma {:induction false} CountConcat(a: seq<Entry>, b: seq<Entry>, entry: Entry)
    ensures Count(a + b, entry) == Count(a, entry) + Count(b, entry)
    decreases |b|
  {
    if b == [] {
      assert a + b == a;
    } else {
      assert (a + b)[..|a + b| - 1] == a + b[..|b| - 1];
      CountConcat(a, b[..|b| - 1], entry);
    }
  }

  lemma CountShort(x: Entry, y: Entry, z: Entry, entry: Entry)
    ensures Count([x], entry) == Count([], entry) + if x == entry then 1 else 0
    ensures Count([x, y], entry) == Count([x], entry) + if y == entry then 1 else 0
    ensures Count([x, y, z], entry) == Count([x, y], entry) + if z == entry then 1 else 0
  {
    assert [x][..0] == [] && [x, y][..1] == [x] && [x, y, z][..2] == [x, y];
  }

  lemma OneEpoch(n: nat, made: nat, entry: Entry)
    requires made <= 3
    ensures var here := if entry.epoch == n && Rank(entry.resource) < made then 1 else 0;
      && Count(Opens(n, made), entry) == (if entry.Opened? then here else 0)
      && Count(Closes(n, made), entry) == (if entry.Closed? then here else 0)
  {
    CountShort(Opened(Publisher, n), Opened(Producer, n), Opened(Feed, n), entry);
    CountShort(Closed(Feed, n), Closed(Producer, n), Closed(Publisher, n), entry);
    CountShort(Closed(Producer, n), Closed(Publisher, n), Closed(Publisher, n), entry);
    CountShort(Closed(Publisher, n), Closed(Publisher, n), Closed(Publisher, n), entry);
  }

  /** One more epoch adds one entry for each of its resources made, and another for its stop. */
  lemma EpochAdds(before: seq<Entry>, n: nat, made: nat, resource: Resource, e: nat)
    requires made <= 3
    ensures var here := if e == n && Rank(resource) < made then 1 else 0;
      var after := before + Opens(n, made) + Closes(n, made);
      && Count(after, Opened(resource, e)) == Count(before, Opened(resource, e)) + here
      && Count(after, Closed(resource, e)) == Count(before, Closed(resource, e)) + here
  {
    var opens, closes := Opens(n, made), Closes(n, made);
    CountConcat(before, opens, Opened(resource, e));
    CountConcat(before, opens, Closed(resource, e));
    CountConcat(before + opens, closes, Opened(resource, e));
    CountConcat(before + opens, closes, Closed(resource, e));
    OneEpoch(n, made, Opened(resource, e));
    OneEpoch(n, made, Closed(resource, e));
  }

  /** In the ledger of finished epochs every resource made is opened once and closed once; no other occurs. */
  lemma {:induction false} EpochCounts(made: seq<nat>, resource: Resource, e: nat)
    requires Within(made)
    ensures var times := if e < |made| && Rank(resource) < made[e] then 1 else 0;
      Count(Epochs(made), Opened(resource, e)) == times && Count(Epochs(made), Closed(resource, e)) == times
    decreases |made|
  {
    if made != [] {
      var n := |made| - 1;
      EpochCounts(made[..n], resource, e);
      EpochAdds(Epochs(made[..n]), n, made[n], resource, e);
    }
  }

  /** What the ledger of the runtime holds of one resource of one epoch. */
  lemma LedgerCounts(r: Runtime, resource: Resource, e: nat)
    requires LatestOpen(r) || AllClosed(r)
    ensures Count(r.ledger, Opened(resource, e)) <= 1
    ensures Count(r.ledger, Closed(resource, e))
            == if LatestOpen(r) && e == r.epoch - 1 then 0 else Count(r.ledger, Opened(resource, e))
  {
    if LatestOpen(r) {
      var n := r.epoch - 1;
      var made :| FinishedButLast(r.ledger, r.epoch, made);
      EpochCounts(made, resource, e);
      OneEpoch(n, 3, Opened(resource, e));
      OneEpoch(n, 3, Closed(resource, e));
      CountConcat(Epochs(made), Opens(n, 3), Opened(resource, e));
      CountConcat(Epochs(made), Opens(n, 3), Closed(resource, e));
    } else {
      var made :| Finished(r.ledger, r.epoch, made);
      EpochCounts(made, resource, e);
    }
  }

  /**
   * When an entry is due: epochs follow each other; each opens publisher, producer,
   * feed and closes them in reverse.
   */
  function Due(entry: Entry): nat {
    6 * entry.epoch + if entry.Opened? then Rank(entry.resource) else 5 - Rank(entry.resource)
  }

  ghost predicate InOrder(ledger: seq<Entry>, from: nat, to: nat) {
    && (forall x :: 0 <= x < |ledger| ==> from <= Due(ledger[x]) < to)
    && (forall x, y :: 0 <= x < y < |ledger| ==> Due(ledger[x]) < Due(ledger[y]))
  }

  lemma InOrderConcat(a: seq<Entry>, b: seq<Entry>, from: nat, mid: nat, to: nat)
    requires InOrder(a, from, mid) && InOrder(b, mid, to) && from <= mid <= to
    ensures InOrder(a + b, from, to)
  {
  }

  lemma OpensInOrder(n: nat, made: nat)
    requires made <= 3
    ensures InOrder(Opens(n, made), 6 * n, 6 * n + 3)
  {
  }

  lemma ClosesInOrder(n: nat, made: nat)
    requires made <= 3
    ensures InOrder(Closes(n, made), 6 * n + 3, 6 * n + 6)
  {
  }

  lemma {:induction false} EpochsInOrder(made: seq<nat>)
    requires Within(made)
    ensures InOrder(Epochs(made), 0, 6 * |made|)
    decreases |made|
  {
    if made != [] {
      var n := |made| - 1;
      EpochsInOrder(made[..n]);
      OpensInOrder(n, made[n]);
      ClosesInOrder(n, made[n]);
      InOrderConcat(Epochs(made[..n]), Opens(n, made[n]), 0, 6 * n, 6 * n + 3);
      InOrderConcat(Epochs(made[..n]) + Opens(n, made[n]), Closes(n, made[n]), 0, 6 * n + 3, 6 * n + 6);
    }
  }

  lemma LatestInOrder(made: seq<nat>)
    requires Within(made)
    ensures InOrder(Epochs(made) + Opens(|made|, 3), 0, 6 * |made| + 6)
  {
    var n := |made|;
    EpochsInOrder(made);
    OpensInOrder(n, 3);
    InOrderConcat(Epochs(made), Opens(n, 3), 0, 6 * n, 6 * n + 3);
  }

  lemma LedgerInOrder(r: Runtime)
    requires LatestOpen(r) || AllClosed(r)
    ensures InOrder(r.ledger, 0, 6 * r.epoch)
  {
    if LatestOpen(r) {
      var made :| FinishedButLast(r.ledger, r.epoch, made);
      LatestInOrder(made);
    } else {
      var made :| Finished(r.ledger, r.epoch, made);
      EpochsInOrder(made);
    }
  }

  /**
   * In every reachable cluster, whatever the faults of a service's start() and
   * stop() calls: while its workload is active all resources of the latest epoch
   * are open, and otherwise none is. Every resource made is stopped exactly once,
   * in the order feed, producer, publisher, and before the next epoch makes any.
   */
  lemma EpochTeardown(size: nat, moves: seq<Move>, i: nat, faults: seq<Faults>, resource: Resource, e: nat)
    requires i < |Run(size, moves).services|
    requires |faults| == |Run(size, moves).services[i].trace|
    requires OutcomesMatch(Run(size, moves).services[i].trace, faults)
    ensures var n := Run(size, moves).services[i];
      var w, r := PhaseOf(n.trace).work, RuntimeAfter(n.trace, faults);
      var open := w.Active? || (w.Halting? && w.wasActive);
      && (if open then LatestOpen(r) else AllClosed(r))
      && InOrder(r.ledger, 0, 6 * r.epoch)
      && Count(r.ledger, Opened(resource, e)) <= 1
      && Count(r.ledger, Closed(resource, e)) ==
         (if open && e == r.epoch - 1 then 0 else Count(r.ledger, Opened(resource, e)))
  {
    ReachableInv(size, moves);
    var n := Run(size, moves).services[i];
    assert MemberInv(i, n, Run(size, moves).database);
    HistoryDrivesEpochs(n.trace, faults);
    LedgerCounts(RuntimeAfter(n.trace, faults), resource, e);
    LedgerInOrder(RuntimeAfter(n.trace, faults));
  }

  // ------------------------------------------------------------------ outcomes

  lemma {:induction false} OutcomeAt(trace: seq<Event>, faults: seq<Faults>, k: nat)
    requires |faults| == |trace| && OutcomesMatch(trace, faults) && k < |trace|
    ensures var r := RuntimeAfter(trace[..k], faults[..k]);
      && (trace[k].ActivationSettled? ==> trace[k].ok == Started(r, faults[k].start).1)
      && (trace[k].DeactivationSettled? ==> trace[k].ok == TornDown(r, faults[k].stop).1)
    ensures OutcomesMatch(trace[..k], faults[..k])
    decreases |trace|
  {
    var n := |trace| - 1;
    if k < n {
      OutcomeAt(trace[..n], faults[..n], k);
      assert trace[..n][..k] == trace[..k] && faults[..n][..k] == faults[..k];
    }
  }

  lemma {:induction false} LegalUpTo(trace: seq<Event>, k: nat)
    requires Legal(trace) && k < |trace|
    ensures Legal(trace[..k]) && Allowed(PhaseOf(trace[..k]), trace[k])
    decreases |trace|
  {
    var n := |trace| - 1;
    if k < n {
      LegalUpTo(trace[..n], k);
      assert trace[..n][..k] == trace[..k];
    }
  }

  /** A workload that was active is on its way down. */
  predicate HaltsActive(w: Work) {
    w.Halting? && w.wasActive
  }

  /** Some of the three stops rejects. */
  predicate AnyRejects(f: StopFaults) {
    f.feed || f.producer || f.publisher
  }

  /**
   * stop() of a workload that was active reports a failure exactly if one of the
   * three stops rejects; of one that was not, never.
   */
  lemma StopOutcome(trace: seq<Event>, faults: seq<Faults>, k: nat)
    requires |faults| == |trace| && Legal(trace) && OutcomesMatch(trace, faults)
    requires k < |trace| && trace[k].DeactivationSettled?
    ensures trace[k].ok <==> !(HaltsActive(PhaseOf(trace[..k]).work) && AnyRejects(faults[k].stop))
  {
    OutcomeAt(trace, faults, k);
    LegalUpTo(trace, k);
    HistoryDrivesEpochs(trace[..k], faults[..k]);
  }

  /** start() succeeds exactly if nothing throws. */
  lemma StartOutcome(trace: seq<Event>, faults: seq<Faults>, k: nat)
    requires |faults| == |trace| && Legal(trace) && OutcomesMatch(trace, faults)
    requires k < |trace| && trace[k].ActivationSettled?
    ensures trace[k].ok <==> faults[k].start == NoFault
  {
    OutcomeAt(trace, faults, k);
    LegalUpTo(trace, k);
    HistoryDrivesEpochs(trace[..k], faults[..k]);
  }

  /** The resource has been made by the time start() throws, if it does. */
  predicate MadeBefore(resource: Resource, f: Fault) {
    match resource
    case Publisher => f != PublisherConstruction
    case Producer => f != PublisherConstruction && f != ProducerConstruction
    case Feed => f == FeedStart || f == NoFault
  }

  lemma NoneYet(r: Runtime, resource: Resource)
    requires AllClosed(r)
    ensures Count(r.ledger, Opened(resource, r.epoch)) == 0
  {
    var made :| Finished(r.ledger, r.epoch, made);
    EpochCounts(made, resource, r.epoch);
  }

  lemma OpensAdd(ledger: seq<Entry>, n: nat, made: nat, resource: Resource)
    requires made <= 3 && Count(ledger, Opened(resource, n)) == 0
    ensures Count(ledger + Opens(n, made), Opened(resource, n)) == if Rank(resource) < made then 1 else 0
  {
    CountConcat(ledger, Opens(n, made), Opened(resource, n));
    OneEpoch(n, made, Opened(resource, n));
  }

  /** Every start() makes its resources in order, up to the point where it throws, and no others. */
  lemma StartMakes(r: Runtime, fault: Fault, resource: Resource)
    requires AllClosed(r)
    ensures Count(Started(r, fault).0.ledger, Opened(resource, r.epoch)) == if MadeBefore(resource, fault) then 1 else 0
    ensures Started(r, fault).0.epoch == r.epoch + 1
  {
    NoneYet(r, resource);
    if fault == NoFault {
      CleanStart(r);
      OpensAdd(r.ledger, r.epoch, 3, resource);
    } else {
      FailedStart(r, fault);
      EpochAdds(r.ledger, r.epoch, Made(fault), resource, r.epoch);
    }
  }

  /** start() of what runs and stop() of what does not change nothing and succeed. */
  lemma RepeatedCallsAreHarmless(r: Runtime, fault: Fault, f: StopFaults)
    ensures LatestOpen(r) ==> Started(r, fault) == (r, true)
    ensures AllClosed(r) ==> TornDown(r, f) == (r, true)
  {
  }

  /**
   * A failed teardown is never taken for a clean one: in every reachable cluster,
   * stop() of an active workload settles as failed exactly if one of the three
   * stops rejects, and after that the service asks for no lock and calls nothing.
   */
  lemma FailedTeardownFailsClosed(size: nat, moves: seq<Move>, i: nat, faults: seq<Faults>, k: nat, j: nat)
    requires i < |Run(size, moves).services|
    requires var trace := Run(size, moves).services[i].trace;
      && |faults| == |trace| && OutcomesMatch(trace, faults)
      && k < j < |trace| && trace[k].DeactivationSettled? && HaltsActive(PhaseOf(trace[..k]).work)
    ensures var trace := Run(size, moves).services[i].trace;
      && (trace[k].ok <==> !AnyRejects(faults[k].stop))
      && (AnyRejects(faults[k].stop) ==>
            !trace[j].LockRequested? && !trace[j].ActivationStarted? && !trace[j].DeactivationStarted?)
  {
    var trace := Run(size, moves).services[i].trace;
    ReachableInv(size, moves);
    assert MemberInv(i, Run(size, moves).services[i], Run(size, moves).database);
    StopOutcome(trace, faults, k);
    if AnyRejects(faults[k].stop) {
      FailsClosed(trace, k, j);
    }
  }
}
