// What every reachable state can still reach: a standby service can get the free
// lock, and the exceptions of the safety results are exact.
module ElectionLimits {
  import opened Basics
  import opened LeaderElection
  import opened LeadershipInvariant
  import opened ElectionCluster
  import opened ElectionEngagement

  // --------------------------------------------------------------------- steps

  predicate IsServerStep(s: Step) {
    s.ServerLocks? || s.ServerUnlocks? || s.ServerDrops?
  }

  /** Between the two clusters only service j has moved, and neither the lock nor any open session is gone. */
  ghost predicate Aside(w: Cluster, w': Cluster, j: nat) {
    && |w'.services| == |w.services|
    && (forall x :: 0 <= x < |w.services| && x != j ==> w'.services[x] == w.services[x])
    && w.database.open <= w'.database.open
    && w'.database.holder == w.database.holder
  }

  lemma Next(size: nat, moves: seq<Move>, j: nat, s: Step) returns (more: seq<Move>)
    requires var w := Run(size, moves); j < |w.services| && Enabled(w.services[j], w.database, s)
    ensures var w := Run(size, moves);
      Run(size, more) == Cluster(w.services[j := ServiceAfter(w.services[j], w.database, s)],
                                 DatabaseAfter(w.services[j], w.database, s))
  {
    more := moves + [Move(j, s)];
    assert more[..|moves|] == moves;
  }

  lemma OwnStepKeepsLock(n: Service, d: Postgres, s: Step)
    requires Enabled(n, d, s) && !IsServerStep(s)
    ensures d.open <= DatabaseAfter(n, d, s).open && DatabaseAfter(n, d, s).holder == d.holder
  {
  }

  lemma NextAside(size: nat, moves: seq<Move>, j: nat, s: Step) returns (more: seq<Move>)
    requires var w := Run(size, moves);
      j < |w.services| && Enabled(w.services[j], w.database, s) && !IsServerStep(s)
    ensures var w, w' := Run(size, moves), Run(size, more);
      && Aside(w, w', j)
      && w'.services[j] == ServiceAfter(w.services[j], w.database, s)
      && w'.database == DatabaseAfter(w.services[j], w.database, s)
  {
    more := Next(size, moves, j, s);
    OwnStepKeepsLock(Run(size, moves).services[j], Run(size, moves).database, s);
  }

  lemma ServiceHolds(size: nat, moves: seq<Move>, j: nat)
    requires j < |Run(size, moves).services|
    ensures var w := Run(size, moves); var n := w.services[j];
      n.id == j && ServiceInv(n) && HoldInv(n, w.database) && EngagedInv(n, w.database) && DatabaseInv(w.database)
  {
    ReachableInv(size, moves);
    ReachableEngaged(size, moves, j);
    assert MemberInv(j, Run(size, moves).services[j], Run(size, moves).database);
  }

  // ------------------------------------------- a standby service gets the lock

  /** The service runs and stands by. */
  predicate StandsBy(n: Service) {
    n.started && !n.stopped && n.state == Standby
  }

  /** The step that takes a pending acquisition closer to its end. */
  function WayOut(a: Acquisition): Step {
    match a
    case Connecting(_) => ConnectFailed
    case AbortedConnect(_) => AbortedConnectClosed
    case Ensured(_) => RequestLock
    case Locking(_) => LockFailed
    case ActivationDone(_, _) => ActivationResumes
    case Unlocking(_) => UnlockFailed
    case ClosingAfterRelease(_) => ReleaseClosed
    case ClosingAfterError(_) => ErrorClosed
    case _ => Retry
  }

  function Distance(a: Acquisition): nat {
    match a
    case Idle => 0
    case Ensured(_) => 3
    case Locking(_) => 2
    case Connecting(_) => 2
    case Unlocking(_) => 2
    case _ => 1
  }

  /** A standby service that has lost its client mid-way has no other. */
  lemma StandbyFacts(n: Service)
    requires ServiceInv(n) && StandsBy(n)
    ensures !n.retryDisabled && !n.acquisition.AwaitingActivation? && n.queue == [] && n.leaderLosses == []
    ensures n.client.Some? ==> n.acquisition.Idle? || n.acquisition.Ensured? || n.acquisition.Locking?
    ensures n.client.Some? && !n.acquisition.Idle? ==> n.acquisition.session == n.client.value
    ensures n.acquisition.Idle? ==> n.retryTimer || n.standbyLosses != {}
  {
  }

  lemma EarlyWayOut(n: Service, d: Postgres)
    requires StandsBy(n) && !n.retryDisabled && (n.client.Some? ==> n.acquisition.Ensured? || n.acquisition.Locking?)
    requires n.acquisition.Connecting? || n.acquisition.AbortedConnect?
             || n.acquisition.Ensured? || n.acquisition.Locking?
    ensures var n' := ServiceAfter(n, d, WayOut(n.acquisition));
      StandsBy(n') && Distance(n'.acquisition) < Distance(n.acquisition)
  {
  }

  lemma LateWayOut(n: Service, d: Postgres)
    requires StandsBy(n) && !n.retryDisabled && n.client == None
    requires || n.acquisition.ActivationDone? || n.acquisition.Unlocking?
             || n.acquisition.ClosingAfterRelease? || n.acquisition.ClosingAfterError?
    ensures var n' := ServiceAfter(n, d, WayOut(n.acquisition));
      StandsBy(n') && Distance(n'.acquisition) < Distance(n.acquisition)
  {
  }

  /** Whatever a standby service is doing, it can come to an end without leaving standby. */
  lemma {:induction false} BecomesIdle(size: nat, moves: seq<Move>, j: nat) returns (more: seq<Move>)
    requires j < |Run(size, moves).services| && StandsBy(Run(size, moves).services[j])
    ensures var w, w' := Run(size, moves), Run(size, more);
      Aside(w, w', j) && StandsBy(w'.services[j]) && w'.services[j].acquisition == Idle
    decreases Distance(Run(size, moves).services[j].acquisition)
  {
    var n, d := Run(size, moves).services[j], Run(size, moves).database;
    more := moves;
    if n.acquisition != Idle {
      ServiceHolds(size, moves, j);
      StandbyFacts(n);
      if n.acquisition.Connecting? || n.acquisition.AbortedConnect?
         || n.acquisition.Ensured? || n.acquisition.Locking? {
        EarlyWayOut(n, d);
      } else {
        LateWayOut(n, d);
      }
      var once := NextAside(size, moves, j, WayOut(n.acquisition));
      more := BecomesIdle(size, once, j);
    }
  }

  /** An idle standby service can come to a retry without a client. */
  lemma BecomesReady(size: nat, moves: seq<Move>, j: nat) returns (more: seq<Move>)
    requires j < |Run(size, moves).services|
    requires StandsBy(Run(size, moves).services[j]) && Run(size, moves).services[j].acquisition == Idle
    ensures var w, w' := Run(size, moves), Run(size, more);
      Aside(w, w', j) && ReadyToRetry(w'.services[j])
  {
    more := DropsClient(size, moves, j);
    more := SetsTimer(size, more, j);
  }

  predicate ReadyToRetry(n: Service) {
    StandsBy(n) && n.acquisition == Idle && n.client == None && n.retryTimer
  }

  lemma DropsClient(size: nat, moves: seq<Move>, j: nat) returns (more: seq<Move>)
    requires j < |Run(size, moves).services|
    requires StandsBy(Run(size, moves).services[j]) && Run(size, moves).services[j].acquisition == Idle
    ensures var w, w' := Run(size, moves), Run(size, more);
      && Aside(w, w', j)
      && StandsBy(w'.services[j]) && w'.services[j].acquisition == Idle && w'.services[j].client == None
  {
    more := moves;
    var n := Run(size, moves).services[j];
    if n.client.Some? {
      more := NextAside(size, moves, j, ConnectionLost(n.client.value));
    }
  }

  lemma SetsTimer(size: nat, moves: seq<Move>, j: nat) returns (more: seq<Move>)
    requires j < |Run(size, moves).services|
    requires var n := Run(size, moves).services[j]; StandsBy(n) && n.acquisition == Idle && n.client == None
    ensures var w, w' := Run(size, moves), Run(size, more);
      Aside(w, w', j) && ReadyToRetry(w'.services[j])
  {
    more := moves;
    var n := Run(size, moves).services[j];
    ServiceHolds(size, moves, j);
    StandbyFacts(n);
    if !n.retryTimer {
      var c :| c in n.standbyLosses;
      more := NextAside(size, moves, j, StandbyLossClosed(c));
    }
  }

  predicate HasSession(n: Service, d: Postgres, c: Session) {
    && StandsBy(n) && n.client == Some(c) && n.acquisition == Ensured(c)
    && c in d.open && c.owner == n.id
  }

  lemma Reconnects(size: nat, moves: seq<Move>, j: nat) returns (more: seq<Move>, c: Session)
    requires j < |Run(size, moves).services| && ReadyToRetry(Run(size, moves).services[j])
    ensures var w, w' := Run(size, moves), Run(size, more);
      Aside(w, w', j) && HasSession(w'.services[j], w'.database, c)
  {
    ServiceHolds(size, moves, j);
    StandbyFacts(Run(size, moves).services[j]);
    c := Session(j, Run(size, moves).services[j].created);
    more := NextAside(size, moves, j, Retry);
    more := NextAside(size, more, j, Connected);
  }

  /** The service has the lock and has queued its activation. */
  predicate Queued(n: Service, d: Postgres, c: Session) {
    && !n.stopped && n.state == Activating && n.client == Some(c) && n.acquisition == AwaitingActivation(c)
    && d.holder == Some(c) && c in d.open
  }

  /** The session of a standby service is granted the free lock. */
  lemma IsGranted(size: nat, moves: seq<Move>, j: nat, c: Session) returns (more: seq<Move>)
    requires var w := Run(size, moves);
      j < |w.services| && HasSession(w.services[j], w.database, c) && w.database.holder == None
    ensures var w, w' := Run(size, moves), Run(size, more);
      && |w'.services| == |w.services|
      && (forall x :: 0 <= x < |w.services| && x != j ==> w'.services[x] == w.services[x])
      && w.database.open <= w'.database.open
      && Queued(w'.services[j], w'.database, c)
  {
    ServiceHolds(size, moves, j);
    StandbyFacts(Run(size, moves).services[j]);
    more := NextAside(size, moves, j, RequestLock);
    more := Next(size, more, j, ServerLocks(c));
    more := Next(size, more, j, LockReply);
  }

  /**
   * Progress: from every reachable state in which the lock is free, a service that
   * runs and stands by can get the lock and queue its activation, with no step of
   * any other service.
   */
  lemma StandbyGetsFreeLock(size: nat, moves: seq<Move>, j: nat) returns (more: seq<Move>, c: Session)
    requires var w := Run(size, moves); j < |w.services| && StandsBy(w.services[j]) && w.database.holder == None
    ensures var w, w' := Run(size, moves), Run(size, more);
      && |w'.services| == |w.services|
      && (forall x :: 0 <= x < |w.services| && x != j ==> w'.services[x] == w.services[x])
      && w.database.open <= w'.database.open
      && Queued(w'.services[j], w'.database, c)
  {
    var idle := BecomesIdle(size, moves, j);
    var ready := BecomesReady(size, idle, j);
    var connected;
    connected, c := Reconnects(size, ready, j);
    more := IsGranted(size, connected, j, c);
  }

  // ------------------------------------------------------------- stop() leading

  /** A service that activates or leads on a session that is still open can be stopped and give its lock back. */
  lemma StopReleases(size: nat, moves: seq<Move>, i: nat, c: Session) returns (more: seq<Move>)
    requires i < |Run(size, moves).services|
    requires var w := Run(size, moves); var n := w.services[i];
      && !n.stopped && n.started && (n.state == Activating || n.state == Leader)
      && n.client == Some(c) && w.database.holder == Some(c)
    requires Run(size, moves).database.depth == 1
    ensures var w, w' := Run(size, moves), Run(size, more);
      && |w'.services| == |w.services|
      && (forall x :: 0 <= x < |w.services| && x != i ==> w'.services[x] == w.services[x])
      && w'.services[i] == OnStop(w.services[i])
      && w'.database == w.database.(holder := None, depth := 0)
  {
    more := Next(size, moves, i, Stop);
    ServiceHolds(size, moves, i);
    more := Next(size, more, i, ServerUnlocks(c));
  }

  lemma StopKeepsWork(n: Service, c: Session)
    requires Legal(n.trace) && Engaged(n, c)
    ensures Engaged(OnStop(n), c)
  {
    Extended(n.trace, StopRequested(n.state == Activating || n.state == Leader));
    if n.client.Some? {
      Extended(n.trace + [StopRequested(n.state == Activating || n.state == Leader)], SessionEnded(n.client.value));
    }
  }

  /** A service that is at work as activating or leader works on its current session, for which it holds the lock. */
  lemma LeadsOnClient(n: Service, d: Postgres, c: Session)
    requires ServiceInv(n) && DatabaseInv(d) && EngagedInv(n, d)
    requires !n.stopped && (n.state == Activating || n.state == Leader) && AtWork(n, d, c)
    ensures n.started && n.client == Some(c) && d.holder == Some(c) && d.depth == 1
  {
    NotStoppedLeading(n);
  }

  lemma NotStoppedLeading(n: Service)
    requires ServiceInv(n) && !n.stopped
    ensures !StoppedLeading(n)
  {
    StoppedLeadingIsStopped(n.trace);
  }

  /**
   * The exemption for services stopped while leading is exact: from every
   * reachable state in which service i is at work as activating or leader, stop()
   * lets any service that runs and stands by get to work beside it.
   */
  lemma StopWhileLeadingOverlaps(size: nat, moves: seq<Move>, i: nat, c: Session, j: nat)
    returns (more: seq<Move>, c': Session)
    requires i < |Run(size, moves).services| && j < |Run(size, moves).services| && i != j
    requires var w := Run(size, moves); var n := w.services[i];
      && !n.stopped && (n.state == Activating || n.state == Leader) && AtWork(n, w.database, c)
      && StandsBy(w.services[j])
    ensures |Run(size, more).services| == |Run(size, moves).services|
    ensures var w := Run(size, more);
      && AtWork(w.services[i], w.database, c) && AtWork(w.services[j], w.database, c')
      && w.services[i].stopped && !w.services[j].stopped
  {
    var w := Run(size, moves);
    ServiceHolds(size, moves, i);
    LeadsOnClient(w.services[i], w.database, c);
    var stopped := StopReleases(size, moves, i, c);
    StopKeepsWork(w.services[i], c);
    more, c' := StandbyGetsFreeLock(size, stopped, j);
  }

  /**
   * Likewise for the end of a session: stop() while activating or leader ends the
   * session while the workload is still on it.
   */
  lemma StopWhileLeadingEndsEarly(size: nat, moves: seq<Move>, i: nat, c: Session) returns (more: seq<Move>)
    requires i < |Run(size, moves).services|
    requires var w := Run(size, moves); var n := w.services[i];
      !n.stopped && (n.state == Activating || n.state == Leader) && AtWork(n, w.database, c)
    ensures |Run(size, more).services| == |Run(size, moves).services|
    ensures var n, n' := Run(size, moves).services[i], Run(size, more).services[i];
      Engaged(n', c) && n'.trace == n.trace + [StopRequested(true)] + [SessionEnded(c)]
  {
    var w := Run(size, moves);
    var n := w.services[i];
    ServiceHolds(size, moves, i);
    LeadsOnClient(n, w.database, c);
    CurrentIsNotClosed(n, c);
    var stopped := StopReleases(size, moves, i, c);
    StopKeepsWork(n, c);
    more := Next(size, stopped, i, ReleasedForStop);
    ServiceHolds(size, stopped, i);
    EndKeepsWork(OnStop(n), c, c);
  }

  lemma CurrentIsNotClosed(n: Service, c: Session)
    requires ServiceInv(n) && n.client == Some(c)
    ensures c !in n.closedClients
  {
  }

  lemma EndKeepsWork(n: Service, c: Session, ended: Session)
    requires Engaged(n, c)
    ensures Engaged(n.(closedClients := n.closedClients + {ended}, trace := n.trace + [SessionEnded(ended)],
                       stopping := ClosingForStop(ended)), c)
  {
    Extended(n.trace, SessionEnded(ended));
  }

  // --------------------------------------------------- refused activations

  /**
   * The exception of LostSessionEndsAfterDeactivation is real: whenever the
   * release after a failed activation is in flight, the session can be lost and
   * ended while the callback for its loss still runs.
   */
  lemma RefusedActivationEndsEarly(size: nat, moves: seq<Move>, i: nat, c: Session) returns (more: seq<Move>)
    requires i < |Run(size, moves).services|
    requires var n := Run(size, moves).services[i]; n.acquisition == Unlocking(c) && n.client == Some(c)
    ensures |Run(size, more).services| == |Run(size, moves).services|
    ensures var n, n' := Run(size, moves).services[i], Run(size, more).services[i];
      && !n'.stopped && n'.queue == [Deactivate(c)] && n'.running
      && n'.trace == n.trace + [SessionLost(c)] + [DeactivationStarted(c)] + [SessionEnded(c)]
  {
    ServiceHolds(size, moves, i);
    RefusedIsQuiet(Run(size, moves).services[i], c);
    more := Next(size, moves, i, ConnectionLost(c));
    more := Next(size, more, i, TransitionStarts);
    more := Next(size, more, i, UnlockFailed);
  }

  lemma RefusedIsQuiet(n: Service, c: Session)
    requires ServiceInv(n) && n.acquisition == Unlocking(c) && n.client == Some(c)
    ensures !n.stopped && n.state == Activating && n.queue == [] && n.leaderLosses == [] && !n.running
    ensures c !in n.closedClients
  {
  }

  /** Such states occur: whenever the lock is free, a standby service can get there by an activation that fails. */
  lemma RefusalOccurs(size: nat, moves: seq<Move>, j: nat) returns (more: seq<Move>, c: Session)
    requires var w := Run(size, moves); j < |w.services| && StandsBy(w.services[j]) && w.database.holder == None
    ensures var w, w' := Run(size, moves), Run(size, more);
      && |w'.services| == |w.services|
      && w'.services[j].acquisition == Unlocking(c) && w'.services[j].client == Some(c)
  {
    more, c := StandbyGetsFreeLock(size, moves, j);
    ServiceHolds(size, more, j);
    QueuedIsNext(Run(size, more).services[j], c);
    if !Run(size, more).services[j].running {
      more := Next(size, more, j, TransitionStarts);
    }
    more := Next(size, more, j, TransitionSettles(false));
    more := Next(size, more, j, ActivationResumes);
  }

  lemma QueuedIsNext(n: Service, c: Session)
    requires ServiceInv(n) && n.acquisition == AwaitingActivation(c)
    ensures n.queue != [] && n.queue[0] == Activate(c)
  {
  }
}
