// Where the election can go when nothing more fails: a standby service becomes
// leader, a refused one asks again on the same session, a failed activation gives
// the lock back, and a lost leadership comes to its end.
module ElectionProgress {
  import opened Basics
  import opened LeaderElection
  import opened LeadershipInvariant
  import opened ElectionCluster
  import opened ElectionEngagement
  import opened ElectionLimits

  // -------------------------------------------------------------- refused lock

  /** The service stands by on its session, and its next retry is set. */
  predicate Resting(n: Service, c: Session) {
    StandsBy(n) && n.client == Some(c) && n.acquisition == Idle && n.retryTimer
  }

  lemma RefusalRests(n: Service, c: Session)
    requires ServiceInv(n) && StandsBy(n) && n.client == Some(c) && n.acquisition == Locking(c)
    ensures Resting(OnLockReply(n, false), c)
    ensures OnLockReply(n, false).trace == n.trace && OnLockReply(n, false).created == n.created
  {
  }

  lemma RestingRetries(n: Service, c: Session)
    requires ServiceInv(n) && Resting(n, c)
    ensures var n' := OnRetry(n);
      && StandsBy(n') && n'.client == Some(c) && n'.acquisition == Ensured(c)
      && n'.trace == n.trace && n'.created == n.created
  {
  }

  /**
   * A service whose lock request is refused keeps its session: its next retry asks
   * again on that session, with no other created or ended in between.
   */
  lemma RefusedAsksAgain(size: nat, moves: seq<Move>, j: nat, c: Session) returns (more: seq<Move>)
    requires j < |Run(size, moves).services|
    requires var w := Run(size, moves); var n := w.services[j];
      && StandsBy(n) && n.client == Some(c) && n.acquisition == Locking(c)
      && c in w.database.replies && !w.database.replies[c]
    ensures Resting(OnLockReply(Run(size, moves).services[j], false), c)
    ensures |Run(size, more).services| == |Run(size, moves).services|
    ensures var n, n' := Run(size, moves).services[j], Run(size, more).services[j];
      && n'.client == Some(c) && n'.acquisition == Locking(c) && n'.created == n.created
      && n'.trace == n.trace + [LockRequested(c)]
  {
    ServiceHolds(size, moves, j);
    RefusalRests(Run(size, moves).services[j], c);
    more := NextAside(size, moves, j, LockReply);
    ServiceHolds(size, more, j);
    RestingRetries(Run(size, more).services[j], c);
    more := NextAside(size, more, j, Retry);
    more := NextAside(size, more, j, RequestLock);
  }

  // ---------------------------------------------------------------- leadership

  /** The activation of the service on this session is running, and comes next to settle. */
  predicate ActivationRuns(n: Service, c: Session) {
    && !n.stopped && n.state == Activating && n.client == Some(c) && n.acquisition == AwaitingActivation(c)
    && n.queue != [] && n.queue[0] == Activate(c) && n.running
  }

  lemma ActivationBegins(size: nat, moves: seq<Move>, j: nat, c: Session) returns (more: seq<Move>)
    requires var w := Run(size, moves); j < |w.services| && Queued(w.services[j], w.database, c)
    ensures var w, w' := Run(size, moves), Run(size, more);
      && Aside(w, w', j) && w'.database == w.database
      && ActivationRuns(w'.services[j], c) && !w'.services[j].retryDisabled
  {
    ServiceHolds(size, moves, j);
    QueuedIsNext(Run(size, moves).services[j], c);
    NotDisabled(Run(size, moves).services[j]);
    more := moves;
    if !Run(size, moves).services[j].running {
      more := NextAside(size, moves, j, TransitionStarts);
    }
  }

  lemma NotDisabled(n: Service)
    requires ServiceInv(n) && n.state == Activating
    ensures !n.retryDisabled
  {
  }

  lemma ActivationSucceeds(n: Service, c: Session)
    requires ActivationRuns(n, c) && !n.retryDisabled
    ensures var n' := OnTransitionSettles(n, true);
      && n'.acquisition == ActivationDone(c, true)
      && OnActivationDone(n').state == Leader && OnActivationDone(n').client == Some(c)
      && !OnActivationDone(n').stopped
  {
  }

  /**
   * A service that runs and stands by while the lock is free can become leader on a
   * session that holds the lock, with no step of any other service.
   */
  lemma StandbyBecomesLeader(size: nat, moves: seq<Move>, j: nat) returns (more: seq<Move>, c: Session)
    requires var w := Run(size, moves); j < |w.services| && StandsBy(w.services[j]) && w.database.holder == None
    ensures var w, w' := Run(size, moves), Run(size, more);
      && |w'.services| == |w.services|
      && (forall x :: 0 <= x < |w.services| && x != j ==> w'.services[x] == w.services[x])
      && w'.services[j].state == Leader && w'.services[j].client == Some(c) && !w'.services[j].stopped
      && w'.database.holder == Some(c) && c in w'.database.open
  {
    more, c := StandbyGetsFreeLock(size, moves, j);
    more := ActivationBegins(size, more, j, c);
    ActivationSucceeds(Run(size, more).services[j], c);
    more := NextAside(size, more, j, TransitionSettles(true));
    more := NextAside(size, more, j, ActivationResumes);
  }

  // -------------------------------------------------------- failed activations

  lemma ActivationFails(n: Service, c: Session)
    requires ActivationRuns(n, c) && !n.retryDisabled
    ensures var n' := OnActivationDone(OnTransitionSettles(n, false).(acquisition := ActivationDone(c, false)));
      && OnTransitionSettles(n, false).acquisition == ActivationDone(c, false)
      && n'.acquisition == Unlocking(c) && n'.state == Activating && n'.client == Some(c)
      && !n'.stopped && !n'.retryDisabled
  {
  }

  lemma UnlockedRests(n: Service, c: Session)
    requires ServiceInv(n) && n.acquisition == Unlocking(c) && n.state == Activating && n.client == Some(c)
    requires !n.stopped && !n.retryDisabled
    ensures var n' := OnUnlockReply(n, true);
      && Resting(n', c) && n'.trace == n.trace
  {
  }

  /** The release after a failed activation is in flight. */
  predicate IsUnlocking(n: Service, c: Session) {
    n.acquisition == Unlocking(c) && n.state == Activating && n.client == Some(c) && !n.stopped && !n.retryDisabled
  }

  lemma FailureUnlocks(size: nat, moves: seq<Move>, j: nat, c: Session) returns (more: seq<Move>)
    requires j < |Run(size, moves).services|
    requires ActivationRuns(Run(size, moves).services[j], c) && !Run(size, moves).services[j].retryDisabled
    ensures var w, w' := Run(size, moves), Run(size, more);
      Aside(w, w', j) && w'.database == w.database && IsUnlocking(w'.services[j], c)
  {
    ActivationFails(Run(size, moves).services[j], c);
    more := NextAside(size, moves, j, TransitionSettles(false));
    more := NextAside(size, more, j, ActivationResumes);
  }

  lemma UnlockRests(size: nat, moves: seq<Move>, j: nat, c: Session) returns (more: seq<Move>)
    requires var w := Run(size, moves);
      && j < |w.services| && IsUnlocking(w.services[j], c)
      && w.database.holder == Some(c) && c in w.database.open
    ensures var w, w' := Run(size, moves), Run(size, more);
      && |w'.services| == |w.services|
      && (forall x :: 0 <= x < |w.services| && x != j ==> w'.services[x] == w.services[x])
      && Resting(w'.services[j], c) && w'.database.holder == None && c in w'.database.open
  {
    ServiceHolds(size, moves, j);
    UnlockedRests(Run(size, moves).services[j], c);
    more := Next(size, moves, j, ServerUnlocks(c));
    more := NextAside(size, more, j, UnlockReply(true));
  }

  /** A service whose activation fails can give the lock back and stand by on the same session. */
  lemma FailedActivationUnlocks(size: nat, moves: seq<Move>, j: nat, c: Session) returns (more: seq<Move>)
    requires var w := Run(size, moves); j < |w.services| && Queued(w.services[j], w.database, c)
    ensures var w, w' := Run(size, moves), Run(size, more);
      && |w'.services| == |w.services|
      && (forall x :: 0 <= x < |w.services| && x != j ==> w'.services[x] == w.services[x])
      && Resting(w'.services[j], c) && w'.database.holder == None && c in w'.database.open
  {
    var begun := ActivationBegins(size, moves, j, c);
    var failed := FailureUnlocks(size, begun, j, c);
    more := UnlockRests(size, failed, j, c);
  }

  // ------------------------------------------------------------ lost leadership

  /** The service activates or leads on this session. */
  predicate LeadsOn(n: Service, c: Session) {
    !n.stopped && (n.state == Activating || n.state == Leader) && n.client == Some(c)
  }

  /** Its activation is still queued or running. */
  predicate ActivationPending(n: Service, c: Session) {
    n.queue == [Activate(c)] && n.acquisition == AwaitingActivation(c)
  }

  lemma LeadingIsQuiet(n: Service, c: Session)
    requires ServiceInv(n) && LeadsOn(n, c)
    ensures n.leaderLosses == [] && c !in n.closedClients && !n.retryDisabled
    ensures ActivationPending(n, c) || (n.queue == [] && !n.running)
  {
  }

  /** What the history gains before the deactivation can start: the end of a pending activation. */
  function ActivationEvents(n: Service, c: Session, activated: bool): seq<Event> {
    if n.queue == [] then []
    else (if n.running then [] else [ActivationStarted(c)]) + [ActivationSettled(c, activated)]
  }

  /** What it gains when the deactivation settles like this. */
  function DeactivationEvents(c: Session, ok: bool): seq<Event> {
    [DeactivationStarted(c), DeactivationSettled(c, ok), SessionEnded(c)] + if ok then [] else [FatalReported]
  }

  /** The session is gone, and its deactivation comes next; `trace` is the history. */
  predicate AwaitsDeactivation(n: Service, c: Session, trace: seq<Event>) {
    && n.queue == [Deactivate(c)] && !n.running && n.leaderLosses == [LeaderLoss(c, AwaitingDeactivation)]
    && n.client == None && c !in n.closedClients && !n.stopped && !n.retryDisabled && n.trace == trace
  }

  /** A session lost while activating or leading is dropped at once, and a deactivation queued. */
  lemma LossQueuesDeactivation(n: Service, c: Session)
    requires ServiceInv(n) && LeadsOn(n, c)
    ensures var n' := OnConnectionLost(n, c);
      && n'.queue == n.queue + [Deactivate(c)] && n'.leaderLosses == [LeaderLoss(c, AwaitingDeactivation)]
      && n' == n.(client := None, state := Deactivating, queue := n'.queue, leaderLosses := n'.leaderLosses,
                  trace := n.trace + [SessionLost(c)])
  {
    LeadingIsQuiet(n, c);
  }

  /** A session lost in standby is dropped and ended at once, whatever the acquisition is doing. */
  lemma StandbyLossEnds(n: Service, c: Session)
    requires ServiceInv(n) && StandsBy(n) && n.client == Some(c)
    ensures var n' := OnConnectionLost(n, c);
      && StandsBy(n') && n'.client == None && c in n'.closedClients && c in n'.standbyLosses
      && n'.acquisition == n.acquisition && n'.trace == n.trace + [SessionLost(c)] + [SessionEnded(c)]
  {
  }

  lemma LostActivationSettles(n: Service, c: Session, activated: bool, trace: seq<Event>)
    requires n.queue == [Activate(c), Deactivate(c)] && n.running
    requires AwaitsDeactivation(n.(queue := [Deactivate(c)], running := false), c, trace)
    ensures AwaitsDeactivation(OnTransitionSettles(n, activated), c, trace + [ActivationSettled(c, activated)])
  {
  }

  lemma LossAwaitsDeactivation(size: nat, moves: seq<Move>, i: nat, c: Session, activated: bool)
    returns (more: seq<Move>)
    requires i < |Run(size, moves).services| && LeadsOn(Run(size, moves).services[i], c)
    ensures Aside(Run(size, moves), Run(size, more), i)
    ensures var n := Run(size, moves).services[i];
      AwaitsDeactivation(Run(size, more).services[i], c,
                         n.trace + [SessionLost(c)] + ActivationEvents(n, c, activated))
  {
    var n := Run(size, moves).services[i];
    ServiceHolds(size, moves, i);
    LeadingIsQuiet(n, c);
    LossQueuesDeactivation(n, c);
    more := NextAside(size, moves, i, ConnectionLost(c));
    if n.queue != [] {
      more := LostActivationEnds(size, more, i, c, activated, n.trace + [SessionLost(c)]);
    }
  }

  lemma LostActivationEnds(size: nat, moves: seq<Move>, i: nat, c: Session, activated: bool, trace: seq<Event>)
    returns (more: seq<Move>)
    requires i < |Run(size, moves).services|
    requires var n := Run(size, moves).services[i];
      && n.queue == [Activate(c), Deactivate(c)]
      && AwaitsDeactivation(n.(queue := [Deactivate(c)], running := false), c, trace)
    ensures Aside(Run(size, moves), Run(size, more), i)
    ensures AwaitsDeactivation(Run(size, more).services[i], c,
                               trace + ActivationEvents(Run(size, moves).services[i], c, activated))
  {
    var n := Run(size, moves).services[i];
    more := moves;
    if !n.running {
      more := NextAside(size, more, i, TransitionStarts);
      LostActivationSettles(Run(size, more).services[i], c, activated, trace + [ActivationStarted(c)]);
    } else {
      LostActivationSettles(n, c, activated, trace);
    }
    more := NextAside(size, more, i, TransitionSettles(activated));
  }

  lemma LossDeactivates(n: Service, c: Session, ok: bool)
    requires n.queue == [Deactivate(c)] && !n.running && n.leaderLosses == [LeaderLoss(c, AwaitingDeactivation)]
    ensures OnTransitionStarts(n) == n.(running := true, trace := n.trace + [DeactivationStarted(c)])
    ensures var n' := OnTransitionSettles(n.(running := true, trace := n.trace + [DeactivationStarted(c)]), ok);
      && n'.leaderLosses == [LeaderLoss(c, DeactivationDone(ok))]
      && n' == n.(queue := [], leaderLosses := n'.leaderLosses,
                  trace := n.trace + [DeactivationStarted(c)] + [DeactivationSettled(c, ok)])
  {
  }

  lemma LossEnds(n: Service, c: Session, ok: bool)
    requires n.leaderLosses == [LeaderLoss(c, DeactivationDone(ok))] && c !in n.closedClients
    requires !n.stopped && !n.retryDisabled
    ensures var n' := OnDeactivationDone(n, 0);
      && n'.leaderLosses == [LeaderLoss(c, ClosingAfterLoss(ok))] && n'.trace == n.trace + [SessionEnded(c)]
      && n'.stopped == n.stopped && n'.retryDisabled == n.retryDisabled
      && var n'' := OnLossClosed(n', 0);
      && n''.trace == n'.trace + (if ok then [] else [FatalReported]) && n''.client == n.client
      && if ok then StandsBy(n''.(started := true)) && n''.retryTimer && !n''.retryDisabled
         else n''.state == Failed && n''.retryDisabled
  {
  }

  /** The deactivation on `c` has settled, and its session is still to be ended. */
  predicate Deactivated(n: Service, c: Session, ok: bool) {
    && n.leaderLosses == [LeaderLoss(c, DeactivationDone(ok))] && n.client == None
    && c !in n.closedClients && !n.stopped && !n.retryDisabled
  }

  lemma LossIsDeactivated(size: nat, moves: seq<Move>, i: nat, c: Session, ok: bool, trace: seq<Event>)
    returns (more: seq<Move>)
    requires i < |Run(size, moves).services| && AwaitsDeactivation(Run(size, moves).services[i], c, trace)
    ensures Aside(Run(size, moves), Run(size, more), i)
    ensures Deactivated(Run(size, more).services[i], c, ok)
    ensures Run(size, more).services[i].trace == trace + [DeactivationStarted(c)] + [DeactivationSettled(c, ok)]
  {
    LossDeactivates(Run(size, moves).services[i], c, ok);
    more := NextAside(size, moves, i, TransitionStarts);
    more := NextAside(size, more, i, TransitionSettles(ok));
  }

  /** The service stands by with its retry set, or is out, as the deactivation went. */
  predicate RanDown(n: Service, ok: bool) {
    && n.client == None
    && if ok then n.state == Standby && n.retryTimer && !n.retryDisabled else n.state == Failed && n.retryDisabled
  }

  lemma LossIsClosed(size: nat, moves: seq<Move>, i: nat, c: Session, ok: bool) returns (more: seq<Move>)
    requires i < |Run(size, moves).services| && Deactivated(Run(size, moves).services[i], c, ok)
    ensures |Run(size, more).services| == |Run(size, moves).services|
    ensures RanDown(Run(size, more).services[i], ok)
    ensures Run(size, more).services[i].trace
            == Run(size, moves).services[i].trace + [SessionEnded(c)] + if ok then [] else [FatalReported]
  {
    LossEnds(Run(size, moves).services[i], c, ok);
    more := NextAside(size, moves, i, DeactivationResumes(0));
    more := NextAside(size, more, i, LossClosed(0));
  }

  /**
   * From every reachable state in which a service activates or leads: when its
   * session is lost, a pending activation can settle, then the deactivation, and
   * then the session is ended. After a successful deactivation the service stands
   * by with its retry set; after a failed one it reports this and stays out.
   */
  lemma LossRunsDown(size: nat, moves: seq<Move>, i: nat, c: Session, activated: bool, ok: bool)
    returns (more: seq<Move>)
    requires i < |Run(size, moves).services| && LeadsOn(Run(size, moves).services[i], c)
    ensures |Run(size, more).services| == |Run(size, moves).services|
    ensures RanDown(Run(size, more).services[i], ok)
    ensures var n, n' := Run(size, moves).services[i], Run(size, more).services[i];
      n'.trace == n.trace + [SessionLost(c)] + ActivationEvents(n, c, activated) + DeactivationEvents(c, ok)
  {
    var n := Run(size, moves).services[i];
    var trace := n.trace + [SessionLost(c)] + ActivationEvents(n, c, activated);
    var lost := LossAwaitsDeactivation(size, moves, i, c, activated);
    var settled := LossIsDeactivated(size, lost, i, c, ok, trace);
    more := LossIsClosed(size, settled, i, c, ok);
    DeactivationJoins(trace, c, ok);
  }

  lemma DeactivationJoins(trace: seq<Event>, c: Session, ok: bool)
    ensures trace + [DeactivationStarted(c)] + [DeactivationSettled(c, ok)] + [SessionEnded(c)]
            + (if ok then [] else [FatalReported])
            == trace + DeactivationEvents(c, ok)
  {
  }

  // --------------------------------------------------------------------- stop()

  lemma StopClears(n: Service)
    requires ServiceInv(n) && n.started && !n.stopped
    ensures var n' := OnStop(n);
      && n'.stopped && n'.client == None && !n'.retryTimer && n'.state == State.Stopped
      && (n.client.Some? && (n.state == Activating || n.state == Leader) ==>
            n'.stopping == Releasing(n.client.value) && n'.trace == n.trace + [StopRequested(true)]
            && n.client.value !in n'.closedClients)
      && (n.client.Some? && n.state != Activating && n.state != Leader ==>
            n'.stopping == ClosingForStop(n.client.value)
            && n'.trace == n.trace + [StopRequested(false)] + [SessionEnded(n.client.value)])
      && (n.client == None ==>
            n'.stopping == NotStopping
            && n'.trace == n.trace + [StopRequested(n.state == Activating || n.state == Leader)])
  {
  }

  /** What a service's history gains from stop(). */
  function StopEvents(n: Service): seq<Event> {
    [StopRequested(n.state == Activating || n.state == Leader)]
    + match n.client case None => [] case Some(c) => [SessionEnded(c)]
  }

  /** The stop() of a service can end its session, if it has not, and finish. */
  lemma StopCloses(size: nat, moves: seq<Move>, i: nat, c: Session) returns (more: seq<Move>)
    requires i < |Run(size, moves).services|
    requires var n := Run(size, moves).services[i];
      && n.stopped && n.client == None && !n.retryTimer
      && (n.stopping == ClosingForStop(c) || (n.stopping == Releasing(c) && c !in n.closedClients))
    ensures |Run(size, more).services| == |Run(size, moves).services|
    ensures var n, n' := Run(size, moves).services[i], Run(size, more).services[i];
      && n'.stopped && n'.stopping == NotStopping && n'.client == None && !n'.retryTimer
      && n'.trace == n.trace + if n.stopping.Releasing? then [SessionEnded(c)] else []
  {
    more := moves;
    if Run(size, moves).services[i].stopping.Releasing? {
      more := NextAside(size, more, i, ReleasedForStop);
    }
    more := NextAside(size, more, i, ClosedForStop);
  }

  /** From every reachable state, stop() can run to its end, and then it has ended the current session. */
  lemma StopRunsDown(size: nat, moves: seq<Move>, i: nat) returns (more: seq<Move>)
    requires i < |Run(size, moves).services|
    requires Run(size, moves).services[i].started && !Run(size, moves).services[i].stopped
    ensures |Run(size, more).services| == |Run(size, moves).services|
    ensures var n, n' := Run(size, moves).services[i], Run(size, more).services[i];
      && n'.stopped && n'.stopping == NotStopping && n'.client == None && !n'.retryTimer
      && n'.trace == n.trace + StopEvents(n)
  {
    var n := Run(size, moves).services[i];
    ServiceHolds(size, moves, i);
    StopClears(n);
    more := NextAside(size, moves, i, Stop);
    if n.client.Some? {
      more := StopCloses(size, more, i, n.client.value);
    }
  }
}
