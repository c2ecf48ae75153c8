// Which services of the cluster are at work on a session, and that the server
// holds the advisory lock for each of them.
module ElectionEngagement {
  import opened Basics
  import opened LeaderElection
  import opened LeadershipInvariant
  import opened ElectionCluster

  /** The workload is starting, active, or on its way down, on session `c`. */
  predicate WorksOn(w: Work, c: Session) {
    w == Starting(c) || w == Active(c) || w == Halting(c, true)
  }

  /** The service works on session `c`, or has queued the activation that will. */
  predicate Engaged(n: Service, c: Session) {
    n.acquisition == AwaitingActivation(c) || WorksOn(PhaseOf(n.trace).work, c)
  }

  /** stop() was called while the service was activating or leader. */
  predicate StoppedLeading(n: Service) {
    PhaseOf(n.trace).stoppedLeading
  }

  /**
   * The service has not been stopped while leading: it is engaged only on sessions
   * for which the server holds the lock.
   */
  ghost predicate EngagedInv(n: Service, d: Postgres) {
    !StoppedLeading(n) ==> forall c :: Engaged(n, c) ==> Holds(n.id, d, c)
  }

  predicate Holds(id: nat, d: Postgres, c: Session) {
    c.owner == id && Granted(d, c)
  }

  // ------------------------------------------------------- steps of the service

  lemma EarlyIsNotEngaged(n: Service, c: Session)
    requires ServiceInv(n) && Early(n.acquisition)
    ensures !Engaged(n, c)
  {
  }

  predicate Plain(e: Event) {
    !e.ActivationStarted?
  }

  /** The history has grown by plain events only. */
  ghost predicate Adds(trace: seq<Event>, trace': seq<Event>) {
    trace <= trace' && forall k :: |trace| <= k < |trace'| ==> Plain(trace'[k])
  }

  /** The step adds only plain events and queues no activation. */
  ghost predicate Calm(n: Service, n': Service) {
    && Adds(n.trace, n'.trace)
    && (n'.acquisition.AwaitingActivation? ==> n'.acquisition == n.acquisition)
  }

  lemma AttemptIsCalm(n: Service, d: Postgres, s: Step)
    requires Enabled(n, d, s)
    requires s.Start? || s.Retry? || s.Connected? || s.ConnectFailed? || s.AbortedConnectClosed? || s.RequestLock?
    ensures Calm(n, ServiceAfter(n, d, s))
  {
  }

  lemma CloseAdds(n: Service, c: Session)
    ensures Adds(n.trace, CloseCoordinationClient(n, c).trace)
  {
  }

  lemma FinishIsCalm(n: Service)
    ensures FinishAcquisition(n).trace == n.trace && FinishAcquisition(n).acquisition == Idle
  {
  }

  lemma ThrowIsCalm(n: Service, n': Service, c: Session)
    requires n'.trace == n.trace && n'.client == n.client
    ensures Calm(n, CloseCoordinationClient(n', c).(acquisition := ClosingAfterError(c)))
    ensures Calm(n, FinishAcquisition(n'))
  {
    CloseAdds(n', c);
    FinishIsCalm(n');
  }

  lemma LockFailureIsCalm(n: Service)
    requires n.acquisition.Locking?
    ensures Calm(n, OnLockFailed(n))
  {
    ThrowIsCalm(n, if !n.stopped && n.state != Deactivating then n.(state := Standby) else n, n.acquisition.session);
  }

  lemma ErrorEndIsCalm(n: Service)
    requires n.acquisition.ClosingAfterError?
    ensures Calm(n, OnErrorClosed(n))
  {
  }

  lemma ActivationEndIsCalm(n: Service)
    requires n.acquisition.ActivationDone?
    ensures Calm(n, OnActivationDone(n))
  {
  }

  lemma ReleaseIsCalm(n: Service)
    ensures Calm(n, ReleaseFinished(n))
  {
    FinishIsCalm(if !n.stopped && n.state == Activating then n.(state := Standby) else n);
  }

  lemma UnlockFailureIsCalm(n: Service)
    requires n.acquisition.Unlocking?
    ensures Calm(n, OnUnlockFailed(n))
  {
    CloseAdds(n, n.acquisition.session);
  }

  lemma StandbyLossIsCalm(n: Service, n': Service, c: Session)
    requires n'.trace == n.trace + [SessionLost(c)] && n'.acquisition == n.acquisition
    ensures Calm(n, CloseClient(n', c))
  {
  }

  lemma ConnectionLossIsCalm(n: Service, c: Session)
    ensures Calm(n, OnConnectionLost(n, c))
  {
    var lost := n.(client := None, trace := n.trace + [SessionLost(c)]);
    StandbyLossIsCalm(n, lost.(state := Standby, standbyLosses := n.standbyLosses + {c}), c);
  }

  lemma DeactivationEndIsCalm(n: Service, i: nat)
    requires i < |n.leaderLosses| && n.leaderLosses[i].stage.DeactivationDone?
    ensures Calm(n, OnDeactivationDone(n, i))
  {
  }

  lemma LossEndIsCalm(n: Service, i: nat)
    requires i < |n.leaderLosses|
    ensures n.leaderLosses[i].stage.ClosingAfterLoss? ==> Calm(n, OnLossClosed(n, i))
    ensures Calm(n, OnFatalSettled(n, i))
  {
    if n.leaderLosses[i].stage.ClosingAfterLoss? {
      }
  }

  lemma SettlementIsCalm(n: Service, ok: bool)
    requires n.queue != []
    ensures Calm(n, OnTransitionSettles(n, ok))
  {
  }

  lemma StopIsCalm(n: Service)
    ensures Calm(n, OnStop(n))
    ensures n.stopping.Releasing? ==> Calm(n, OnReleasedForStop(n))
  {
  }

  lemma OtherStepIsCalm(n: Service, d: Postgres, s: Step)
    requires Enabled(n, d, s)
    requires s.ClosedForStop? || s.StandbyLossClosed? || s.ServerLocks? || s.ServerUnlocks? || s.ServerDrops?
    ensures Calm(n, ServiceAfter(n, d, s))
  {
  }

  lemma StepIsCalm(n: Service, d: Postgres, s: Step)
    requires Enabled(n, d, s) && !s.TransitionStarts? && !s.LockReply?
    ensures Calm(n, ServiceAfter(n, d, s))
  {
    match s
    case Start => AttemptIsCalm(n, d, s);
    case Retry => AttemptIsCalm(n, d, s);
    case Connected => AttemptIsCalm(n, d, s);
    case ConnectFailed => AttemptIsCalm(n, d, s);
    case AbortedConnectClosed => AttemptIsCalm(n, d, s);
    case RequestLock => AttemptIsCalm(n, d, s);
    case LockFailed => LockFailureIsCalm(n);
    case ErrorClosed => ErrorEndIsCalm(n);
    case ActivationResumes => ActivationEndIsCalm(n);
    case UnlockReply(released) => if released { ReleaseIsCalm(n); } else { UnlockFailureIsCalm(n); }
    case UnlockFailed => UnlockFailureIsCalm(n);
    case ReleaseClosed => ReleaseIsCalm(n);
    case ConnectionLost(c) => ConnectionLossIsCalm(n, c);
    case DeactivationResumes(i) => DeactivationEndIsCalm(n, i);
    case LossClosed(i) => LossEndIsCalm(n, i);
    case FatalSettled(i) => LossEndIsCalm(n, i);
    case TransitionSettles(ok) => SettlementIsCalm(n, ok);
    case Stop => StopIsCalm(n);
    case ReleasedForStop => StopIsCalm(n);
    case _ => OtherStepIsCalm(n, d, s);
  }

  /** Only the start of an activation puts a session to work, and stop() is called once. */
  lemma EventKeepsWork(p: Phase, e: Event, c: Session)
    requires Allowed(p, e) && Plain(e) && (p.stoppedLeading ==> p.stopRequested)
    ensures WorksOn(LeadershipInvariant.After(p, e).work, c) ==> WorksOn(p.work, c)
    ensures p.stoppedLeading ==> LeadershipInvariant.After(p, e).stoppedLeading
    ensures LeadershipInvariant.After(p, e).stoppedLeading ==> LeadershipInvariant.After(p, e).stopRequested
  {
  }

  lemma {:induction false} StoppedLeadingIsStopped(trace: seq<Event>)
    ensures PhaseOf(trace).stoppedLeading ==> PhaseOf(trace).stopRequested
    decreases |trace|
  {
    if trace != [] {
      StoppedLeadingIsStopped(trace[..|trace| - 1]);
    }
  }

  lemma {:induction false} AddedKeepsWork(trace: seq<Event>, trace': seq<Event>, c: Session)
    requires Legal(trace') && Adds(trace, trace')
    ensures WorksOn(PhaseOf(trace').work, c) ==> WorksOn(PhaseOf(trace).work, c)
    ensures PhaseOf(trace).stoppedLeading ==> PhaseOf(trace').stoppedLeading
    decreases |trace'|
  {
    if |trace'| > |trace| {
      var shorter, e := trace'[..|trace'| - 1], trace'[|trace'| - 1];
      AddedKeepsWork(trace, shorter, c);
      StoppedLeadingIsStopped(shorter);
      EventKeepsWork(PhaseOf(shorter), e, c);
    } else {
      assert trace' == trace;
    }
  }

  lemma QueuedActivation(n: Service, a: Session)
    requires QueueInv(n) && n.queue != [] && n.queue[0] == Activate(a)
    ensures n.acquisition == AwaitingActivation(a)
  {
  }

  lemma ActivateKeepsEngaged(n: Service, a: Session, c: Session)
    requires n.queue != [] && n.queue[0] == Activate(a) && n.acquisition == AwaitingActivation(a)
    ensures Engaged(OnTransitionStarts(n), c) ==> Engaged(n, c)
    ensures StoppedLeading(n) ==> StoppedLeading(OnTransitionStarts(n))
  {
    Extended(n.trace, ActivationStarted(a));
  }

  lemma QueuedDeactivation(n: Service, a: Session)
    requires ServiceInv(n) && n.queue != [] && !n.running && n.queue[0] == Deactivate(a)
    ensures PhaseOf(n.trace).work == Inactive || PhaseOf(n.trace).work == Active(a)
  {
  }

  lemma DeactivateKeepsEngaged(n: Service, a: Session, c: Session)
    requires n.queue != [] && n.queue[0] == Deactivate(a)
    requires PhaseOf(n.trace).work == Inactive || PhaseOf(n.trace).work == Active(a)
    ensures Engaged(OnTransitionStarts(n), c) ==> Engaged(n, c)
    ensures StoppedLeading(n) ==> StoppedLeading(OnTransitionStarts(n))
  {
    Extended(n.trace, DeactivationStarted(a));
  }

  lemma StartKeepsEngaged(n: Service, c: Session)
    requires ServiceInv(n) && n.queue != [] && !n.running
    ensures Engaged(OnTransitionStarts(n), c) ==> Engaged(n, c)
    ensures StoppedLeading(n) ==> StoppedLeading(OnTransitionStarts(n))
  {
    match n.queue[0]
    case Activate(a) =>
      QueuedActivation(n, a);
      ActivateKeepsEngaged(n, a, c);
    case Deactivate(a) =>
      QueuedDeactivation(n, a);
      DeactivateKeepsEngaged(n, a, c);
  }

  /** Except for the reply to a lock request, no step engages a service. */
  lemma EngagementShrinks(n: Service, d: Postgres, s: Step, c: Session)
    requires ServiceInv(n) && Enabled(n, d, s) && !s.LockReply?
    ensures Engaged(ServiceAfter(n, d, s), c) ==> Engaged(n, c)
    ensures StoppedLeading(n) ==> StoppedLeading(ServiceAfter(n, d, s))
  {
    if s.TransitionStarts? {
      StartKeepsEngaged(n, c);
    } else {
      StepIsCalm(n, d, s);
      StepKeepsService(n, d, s);
      AddedKeepsWork(n.trace, ServiceAfter(n, d, s).trace, c);
    }
  }

  /** The reply engages the service exactly when the lock was granted on its current session. */
  lemma ReplyEngages(n: Service, d: Postgres, c: Session)
    requires ServiceInv(n) && HoldInv(n, d) && n.acquisition.Locking? && n.acquisition.session in d.replies
    ensures var granted, d' := d.replies[n.acquisition.session], d.(replies := d.replies - {n.acquisition.session});
      Engaged(OnLockReply(n, granted), c) ==> Holds(n.id, d', c)
  {
    EarlyIsNotEngaged(n, c);
  }

  // -------------------------------------------------------- steps of the server

  lemma UnlockIsNotEngaged(n: Service, c: Session)
    requires ServiceInv(n) && (n.acquisition == Unlocking(c) || n.stopping == Releasing(c))
    ensures StoppedLeading(n) || !Engaged(n, c)
  {
  }

  /** What a step of a service does to the database keeps the lock of a session it is engaged on. */
  lemma DatabaseKeepsGrant(n: Service, d: Postgres, s: Step, c: Session)
    requires ServiceInv(n) && HoldInv(n, d) && DatabaseInv(d) && Enabled(n, d, s) && !s.LockReply?
    requires Engaged(n, c) && !StoppedLeading(n) && Granted(d, c)
    ensures Granted(DatabaseAfter(n, d, s), c)
  {
    if s.Connected? || s.RequestLock? {
      EarlyIsNotEngaged(n, c);
    } else if s.ServerUnlocks? {
      UnlockIsNotEngaged(n, s.session);
    }
  }

  lemma StepKeepsEngaged(n: Service, d: Postgres, s: Step)
    requires ServiceInv(n) && HoldInv(n, d) && DatabaseInv(d) && Enabled(n, d, s) && EngagedInv(n, d)
    ensures EngagedInv(ServiceAfter(n, d, s), DatabaseAfter(n, d, s))
  {
    StepKeepsService(n, d, s);
    var n', d' := ServiceAfter(n, d, s), DatabaseAfter(n, d, s);
    if !StoppedLeading(n') {
      forall c | Engaged(n', c) ensures Holds(n.id, d', c) {
        EngagedKeepsGrant(n, d, s, c);
      }
    }
  }

  lemma EngagedKeepsGrant(n: Service, d: Postgres, s: Step, c: Session)
    requires ServiceInv(n) && HoldInv(n, d) && DatabaseInv(d) && Enabled(n, d, s) && EngagedInv(n, d)
    requires !StoppedLeading(ServiceAfter(n, d, s)) && Engaged(ServiceAfter(n, d, s), c)
    ensures Holds(n.id, DatabaseAfter(n, d, s), c)
  {
    if s.LockReply? {
      ReplyEngages(n, d, c);
    } else {
      EngagementShrinks(n, d, s, c);
      DatabaseKeepsGrant(n, d, s, c);
    }
  }

  lemma OthersKeepEngaged(n: Service, d: Postgres, d': Postgres)
    requires SameFor(n.id, d, d') && EngagedInv(n, d)
    ensures EngagedInv(n, d')
  {
  }

  lemma ApplyKeepsEngaged(w: Cluster, m: Move, i: nat)
    requires ElectionCluster.Inv(w) && i < |w.services| && EngagedInv(w.services[i], w.database)
    ensures EngagedInv(Apply(w, m).services[i], Apply(w, m).database)
  {
    if m.service < |w.services| && Enabled(w.services[m.service], w.database, m.step) {
      var n, d, s := w.services[m.service], w.database, m.step;
      assert MemberInv(m.service, n, d) && MemberInv(i, w.services[i], d);
      if i == m.service {
        StepKeepsEngaged(n, d, s);
      } else {
        OwnAcquisition(n);
        StepIsLocal(n, d, s, i);
        OthersKeepEngaged(w.services[i], d, DatabaseAfter(n, d, s));
      }
    }
  }

  lemma {:induction false} ReachableEngaged(size: nat, moves: seq<Move>, i: nat)
    requires i < size
    ensures |Run(size, moves).services| == size
    ensures EngagedInv(Run(size, moves).services[i], Run(size, moves).database)
    decreases |moves|
  {
    ReachableInv(size, moves);
    if moves != [] {
      ReachableEngaged(size, moves[..|moves| - 1], i);
      ReachableInv(size, moves[..|moves| - 1]);
      ApplyKeepsEngaged(Run(size, moves[..|moves| - 1]), moves[|moves| - 1], i);
    }
  }

  // -------------------------------------------------------------- main results

  /** The service is engaged on a session that the server still has. */
  predicate AtWork(n: Service, d: Postgres, c: Session) {
    Engaged(n, c) && c in d.open
  }

  /**
   * Leadership safety: among services that were not stopped while activating or
   * leader, at most one is at work, and the server holds the lock for it. This
   * covers queued and running activations, the active workload, and deactivations
   * after a loss, whether reported or not.
   */
  lemma AtMostOneAtWork(size: nat, moves: seq<Move>, i: nat, j: nat, c: Session, c': Session)
    requires i < size && j < size
    ensures |Run(size, moves).services| == size
    ensures var w := Run(size, moves);
      && AtWork(w.services[i], w.database, c) && !StoppedLeading(w.services[i])
      && AtWork(w.services[j], w.database, c') && !StoppedLeading(w.services[j])
      ==> i == j && c == c' && w.database.holder == Some(c)
  {
    ReachableEngaged(size, moves, i);
    ReachableEngaged(size, moves, j);
    ReachableInv(size, moves);
    var w := Run(size, moves);
    assert MemberInv(i, w.services[i], w.database) && MemberInv(j, w.services[j], w.database);
  }
}
