// Any number of election services over one PostgreSQL database: the advisory
// lock, and what every reachable state of the cluster guarantees.
module ElectionCluster {
  import opened Basics
  import opened LeaderElection
  import opened LeadershipInvariant

  datatype Cluster = Cluster(services: seq<Service>, database: Postgres)

  // A step of service `service`, or of the server on that service's sessions.
  datatype Move = Move(service: nat, step: Step)

  function NewCluster(size: nat): Cluster {
    Cluster(seq(size, (i: nat) => NewService(i)), NEW_POSTGRES)
  }

  /** One step; a step that is not enabled changes nothing. */
  function Apply(w: Cluster, m: Move): Cluster {
    if m.service < |w.services| && Enabled(w.services[m.service], w.database, m.step) then
      var n := w.services[m.service];
      Cluster(w.services[m.service := ServiceAfter(n, w.database, m.step)], DatabaseAfter(n, w.database, m.step))
    else w
  }

  function Run(size: nat, moves: seq<Move>): Cluster {
    if moves == [] then NewCluster(size)
    else Apply(Run(size, moves[..|moves| - 1]), moves[|moves| - 1])
  }

  // ----------------------------------------------------------------- invariant

  /** No request or reply is in transit for the session, and it does not hold the lock. */
  predicate Quiet(d: Postgres, c: Session) {
    c !in d.requests && c !in d.replies && d.holder != Some(c)
  }

  /** The session, if the server still has it, holds the lock, and nothing is in transit for it. */
  predicate Granted(d: Postgres, c: Session) {
    c !in d.requests && c !in d.replies && (c in d.open ==> d.holder == Some(c))
  }

  ghost predicate SessionsInv(id: nat, created: nat, d: Postgres) {
    && (forall c :: c in d.open && c.owner == id ==> c.number < created)
    && (forall c :: c in d.requests && c.owner == id ==> c.number < created && c !in d.replies && d.holder != Some(c))
    && (forall c :: c in d.replies && c.owner == id ==> c.number < created)
    && (d.holder.Some? && d.holder.value.owner == id ==> d.holder.value.number < created)
  }

  predicate AcquisitionInv(n: Service, d: Postgres) {
    && (n.acquisition.Connecting? ==> n.acquisition.session !in d.open && Quiet(d, n.acquisition.session))
    && (n.acquisition.Ensured? ==> Quiet(d, n.acquisition.session))
    && (n.acquisition.Locking? && n.acquisition.session in d.replies ==>
          if d.replies[n.acquisition.session]
          then n.acquisition.session in d.open ==> d.holder == Some(n.acquisition.session)
          else d.holder != Some(n.acquisition.session))
  }

  predicate ClientInv(n: Service, d: Postgres) {
    n.client.Some? ==>
      var c := n.client.value;
      && (n.state == Standby && !n.acquisition.Locking? ==> Quiet(d, c))
      && (n.state == Leader ==> Granted(d, c))
      && (n.state == Activating && !n.acquisition.Unlocking? ==> Granted(d, c))
      && (n.state == Activating && n.acquisition.Unlocking? ==> c !in d.requests && c !in d.replies)
  }

  ghost predicate HoldInv(n: Service, d: Postgres) {
    SessionsInv(n.id, n.created, d) && AcquisitionInv(n, d) && ClientInv(n, d)
  }

  predicate DatabaseInv(d: Postgres) {
    && (d.holder == None <==> d.depth == 0)
    && d.depth <= 1
    && (d.holder.Some? ==> d.holder.value in d.open)
  }

  ghost predicate MemberInv(i: nat, n: Service, d: Postgres) {
    n.id == i && ServiceInv(n) && HoldInv(n, d)
  }

  ghost predicate Inv(w: Cluster) {
    && DatabaseInv(w.database)
    && forall i :: 0 <= i < |w.services| ==> MemberInv(i, w.services[i], w.database)
  }

  // -------------------------------------------------------------- preservation

  /** Nothing about the sessions of `id` differs between the two databases. */
  ghost predicate SameFor(id: nat, d: Postgres, d': Postgres) {
    && (forall c: Session :: c.owner == id ==> (c in d.open <==> c in d'.open))
    && (forall c: Session :: c.owner == id ==> (c in d.requests <==> c in d'.requests))
    && (forall c: Session :: c.owner == id ==> (c in d.replies <==> c in d'.replies))
    && (forall c: Session :: c.owner == id && c in d.replies ==> d.replies[c] == d'.replies[c])
    && (forall c: Session :: c.owner == id ==> (d.holder == Some(c) <==> d'.holder == Some(c)))
  }

  /** A step touches only the sessions of its own service. */
  lemma StepIsLocal(n: Service, d: Postgres, s: Step, other: nat)
    requires !n.acquisition.Idle? ==> n.acquisition.session.owner == n.id
    requires Enabled(n, d, s) && other != n.id
    ensures SameFor(other, d, DatabaseAfter(n, d, s))
  {
  }

  lemma OwnAcquisition(n: Service)
    requires ServiceInv(n)
    ensures !n.acquisition.Idle? ==> n.acquisition.session.owner == n.id
  {
  }

  lemma OthersKeep(n: Service, d: Postgres, d': Postgres)
    requires ServiceInv(n) && HoldInv(n, d) && SameFor(n.id, d, d')
    ensures HoldInv(n, d')
  {
  }

  // Server steps keep the invariant of the service whose session they touch.

  lemma GrantKeepsHold(n: Service, d: Postgres, c: Session)
    requires ServiceInv(n) && HoldInv(n, d) && DatabaseInv(d) && c.owner == n.id && c in d.requests
    ensures HoldInv(n, ExecuteLock(d, c)) && DatabaseInv(ExecuteLock(d, c))
  {
  }

  lemma UnlockKeepsHold(n: Service, d: Postgres, c: Session)
    requires ServiceInv(n) && HoldInv(n, d) && DatabaseInv(d)
    requires n.acquisition == Unlocking(c) || n.stopping == Releasing(c)
    ensures HoldInv(n, ExecuteUnlock(d, c)) && DatabaseInv(ExecuteUnlock(d, c))
  {
  }

  lemma DropKeepsHold(n: Service, d: Postgres, c: Session)
    requires HoldInv(n, d) && DatabaseInv(d)
    ensures HoldInv(n, DropSession(d, c)) && DatabaseInv(DropSession(d, c))
  {
  }

  lemma ServerKeepsHold(n: Service, d: Postgres, s: Step)
    requires ServiceInv(n) && HoldInv(n, d) && DatabaseInv(d) && Enabled(n, d, s)
    requires s.ServerLocks? || s.ServerUnlocks? || s.ServerDrops?
    ensures HoldInv(n, DatabaseAfter(n, d, s)) && DatabaseInv(DatabaseAfter(n, d, s))
  {
    match s
    case ServerLocks(c) => GrantKeepsHold(n, d, c);
    case ServerUnlocks(c) => UnlockKeepsHold(n, d, c);
    case ServerDrops(c) => DropKeepsHold(n, d, c);
  }

  // Steps of the acquisition task that concern the database.

  lemma AttemptKeepsHold(n: Service, d: Postgres)
    requires ServiceInv(n) && HoldInv(n, d)
    ensures !n.started ==> HoldInv(OnStart(n), d)
    ensures HoldInv(OnRetry(n), d)
  {
  }

  lemma ConnectKeepsHold(n: Service, d: Postgres)
    requires ServiceInv(n) && HoldInv(n, d) && DatabaseInv(d) && n.acquisition.Connecting?
    ensures HoldInv(OnConnectFailed(n), d)
    ensures var d' := d.(open := d.open + {n.acquisition.session}); HoldInv(OnConnected(n), d') && DatabaseInv(d')
  {
  }

  lemma RequestKeepsHold(n: Service, d: Postgres)
    requires ServiceInv(n) && HoldInv(n, d) && n.acquisition.Ensured?
    ensures HoldInv(OnEnsured(n), d)
    ensures HoldInv(OnEnsured(n), d.(requests := d.requests + {n.acquisition.session}))
  {
  }

  lemma ReplyKeepsHold(n: Service, d: Postgres)
    requires ServiceInv(n) && HoldInv(n, d) && n.acquisition.Locking? && n.acquisition.session in d.replies
    ensures HoldInv(OnLockReply(n, d.replies[n.acquisition.session]),
                    d.(replies := d.replies - {n.acquisition.session}))
  {
  }

  lemma AcquisitionKeepsHold(n: Service, d: Postgres, s: Step)
    requires ServiceInv(n) && HoldInv(n, d) && DatabaseInv(d) && Enabled(n, d, s)
    requires s.Start? || s.Retry? || s.Connected? || s.ConnectFailed? || s.RequestLock? || s.LockReply?
    ensures HoldInv(ServiceAfter(n, d, s), DatabaseAfter(n, d, s)) && DatabaseInv(DatabaseAfter(n, d, s))
  {
    if s.Start? || s.Retry? {
      AttemptKeepsHold(n, d);
    } else if s.RequestLock? {
      RequestKeepsHold(n, d);
    } else if s.LockReply? {
      ReplyKeepsHold(n, d);
    } else {
      ConnectKeepsHold(n, d);
    }
  }

  // Every other step leaves the database alone.

  predicate IsAcquisitionEnd(s: Step) {
    || s.AbortedConnectClosed? || s.LockFailed? || s.ErrorClosed? || s.ActivationResumes?
    || s.UnlockReply? || s.UnlockFailed? || s.ReleaseClosed?
  }

  predicate IsLossStep(s: Step) {
    s.ConnectionLost? || s.StandbyLossClosed? || s.DeactivationResumes? || s.LossClosed? || s.FatalSettled?
  }

  predicate IsDatabaseStep(s: Step) {
    || s.ServerLocks? || s.ServerUnlocks? || s.ServerDrops?
    || s.Start? || s.Retry? || s.Connected? || s.ConnectFailed? || s.RequestLock? || s.LockReply?
  }

  /** Leaving the acquisition, with the client gone or in a state it may be in, keeps the invariant. */
  lemma LeavingKeepsHold(n: Service, n': Service, d: Postgres)
    requires HoldInv(n, d) && n'.id == n.id && n'.created == n.created
    requires || n'.acquisition == n.acquisition
             || !(n'.acquisition.Connecting? || n'.acquisition.Ensured? || n'.acquisition.Locking?)
    requires n'.client == None || ClientInv(n', d)
    ensures HoldInv(n', d)
  {
  }

  lemma AbortKeepsHold(n: Service, d: Postgres)
    requires ServiceInv(n) && HoldInv(n, d) && n.acquisition.AbortedConnect?
    ensures HoldInv(OnAbortedConnectClosed(n), d)
  {
    LeavingKeepsHold(n, OnAbortedConnectClosed(n), d);
  }

  lemma LockFailureKeepsHold(n: Service, d: Postgres)
    requires ServiceInv(n) && HoldInv(n, d) && n.acquisition.Locking?
    ensures HoldInv(OnLockFailed(n), d)
  {
    LeavingKeepsHold(n, OnLockFailed(n), d);
  }

  lemma ErrorEndKeepsHold(n: Service, d: Postgres)
    requires ServiceInv(n) && HoldInv(n, d) && n.acquisition.ClosingAfterError?
    ensures HoldInv(OnErrorClosed(n), d)
  {
    LeavingKeepsHold(n, OnErrorClosed(n), d);
  }

  lemma EarlyEndKeepsHold(n: Service, d: Postgres, s: Step)
    requires ServiceInv(n) && HoldInv(n, d) && Enabled(n, d, s)
    requires s.AbortedConnectClosed? || s.LockFailed? || s.ErrorClosed?
    ensures HoldInv(ServiceAfter(n, d, s), d)
  {
    match s
    case AbortedConnectClosed => AbortKeepsHold(n, d);
    case LockFailed => LockFailureKeepsHold(n, d);
    case ErrorClosed => ErrorEndKeepsHold(n, d);
  }

  lemma ActivationEndKeepsHold(n: Service, d: Postgres)
    requires ServiceInv(n) && HoldInv(n, d) && n.acquisition.ActivationDone?
    ensures HoldInv(OnActivationDone(n), d)
  {
    var n' := OnActivationDone(n);
    if n.client.Some? {
      assert n.state == Activating;
      assert ClientInv(n', d);
    }
    LeavingKeepsHold(n, n', d);
  }

  lemma ReleaseEndKeepsHold(n: Service, d: Postgres)
    requires ServiceInv(n) && HoldInv(n, d) && (n.acquisition.Unlocking? || n.acquisition.ClosingAfterRelease?)
    requires n.acquisition.Unlocking? ==> d.holder != Some(n.acquisition.session)
    ensures HoldInv(ReleaseFinished(n), d)
  {
    var n' := ReleaseFinished(n);
    if n.client.Some? {
      assert n.state == Activating && n.acquisition == Unlocking(n.client.value);
      assert n'.client == n.client && n'.state == Standby;
    }
    LeavingKeepsHold(n, n', d);
  }

  lemma UnlockFailedKeepsHold(n: Service, d: Postgres)
    requires ServiceInv(n) && HoldInv(n, d) && n.acquisition.Unlocking?
    ensures HoldInv(OnUnlockFailed(n), d)
  {
    LeavingKeepsHold(n, OnUnlockFailed(n), d);
  }

  lemma ConnectionLostKeepsHold(n: Service, d: Postgres, c: Session)
    requires HoldInv(n, d)
    ensures HoldInv(OnConnectionLost(n, c), d)
  {
    if !n.stopped && n.client == Some(c) {
      LeavingKeepsHold(n, OnConnectionLost(n, c), d);
    }
  }

  lemma StandbyLossKeepsHold(n: Service, d: Postgres, c: Session)
    requires HoldInv(n, d)
    ensures HoldInv(OnStandbyLossClosed(n, c), d)
  {
    LeavingKeepsHold(n, OnStandbyLossClosed(n, c), d);
  }

  /** A service that has lost its leadership's session has no client until the handler is done. */
  lemma LossHasNoClient(n: Service)
    requires ServiceInv(n) && n.leaderLosses != []
    ensures n.client == None
  {
  }

  lemma DeactivatedKeepsHold(n: Service, d: Postgres, i: nat)
    requires n.client == None && HoldInv(n, d) && i < |n.leaderLosses| && n.leaderLosses[i].stage.DeactivationDone?
    ensures HoldInv(OnDeactivationDone(n, i), d)
  {
    LeavingKeepsHold(n, OnDeactivationDone(n, i), d);
  }

  lemma LossClosedLeaves(n: Service, i: nat)
    requires i < |n.leaderLosses| && n.leaderLosses[i].stage.ClosingAfterLoss?
    ensures var n' := OnLossClosed(n, i);
      n'.id == n.id && n'.created == n.created && n'.acquisition == n.acquisition && n'.client == n.client
  {
  }

  lemma LossClosedKeepsHold(n: Service, d: Postgres, i: nat)
    requires n.client == None && HoldInv(n, d) && i < |n.leaderLosses| && n.leaderLosses[i].stage.ClosingAfterLoss?
    ensures HoldInv(OnLossClosed(n, i), d)
  {
    LossClosedLeaves(n, i);
    LeavingKeepsHold(n, OnLossClosed(n, i), d);
  }

  lemma FatalKeepsHold(n: Service, d: Postgres, i: nat)
    requires n.client == None && HoldInv(n, d) && i < |n.leaderLosses|
    ensures HoldInv(OnFatalSettled(n, i), d)
  {
    LeavingKeepsHold(n, OnFatalSettled(n, i), d);
  }

  lemma LossKeepsHold(n: Service, d: Postgres, s: Step)
    requires ServiceInv(n) && HoldInv(n, d) && Enabled(n, d, s) && IsLossStep(s) && !s.ConnectionLost?
    ensures HoldInv(ServiceAfter(n, d, s), d)
  {
    if !s.StandbyLossClosed? {
      LossHasNoClient(n);
    }
    match s
    case StandbyLossClosed(c) => StandbyLossKeepsHold(n, d, c);
    case DeactivationResumes(i) => DeactivatedKeepsHold(n, d, i);
    case LossClosed(i) => LossClosedKeepsHold(n, d, i);
    case FatalSettled(i) => FatalKeepsHold(n, d, i);
  }

  lemma TransitionKeepsHold(n: Service, d: Postgres, s: Step)
    requires ServiceInv(n) && HoldInv(n, d) && Enabled(n, d, s)
    requires s.TransitionStarts? || s.TransitionSettles?
    ensures HoldInv(ServiceAfter(n, d, s), d)
  {
    LeavingKeepsHold(n, ServiceAfter(n, d, s), d);
  }

  lemma StopKeepsHold(n: Service, d: Postgres, s: Step)
    requires ServiceInv(n) && HoldInv(n, d) && Enabled(n, d, s)
    requires s.Stop? || s.ReleasedForStop? || s.ClosedForStop?
    ensures HoldInv(ServiceAfter(n, d, s), d)
  {
    LeavingKeepsHold(n, ServiceAfter(n, d, s), d);
  }

  lemma QuietStepKeepsHold(n: Service, d: Postgres, s: Step)
    requires ServiceInv(n) && HoldInv(n, d) && Enabled(n, d, s) && !IsDatabaseStep(s)
    ensures HoldInv(ServiceAfter(n, d, s), d)
  {
    if s.ConnectionLost? {
      ConnectionLostKeepsHold(n, d, s.session);
    } else if IsLossStep(s) {
      LossKeepsHold(n, d, s);
    } else if s.ActivationResumes? {
      ActivationEndKeepsHold(n, d);
    } else if s.UnlockFailed? || (s.UnlockReply? && !s.released) {
      UnlockFailedKeepsHold(n, d);
    } else if s.UnlockReply? || s.ReleaseClosed? {
      ReleaseEndKeepsHold(n, d);
    } else if IsAcquisitionEnd(s) {
      EarlyEndKeepsHold(n, d, s);
    } else if s.TransitionStarts? || s.TransitionSettles? {
      TransitionKeepsHold(n, d, s);
    } else {
      StopKeepsHold(n, d, s);
    }
  }

  lemma QuietStepIsQuiet(n: Service, d: Postgres, s: Step)
    requires Enabled(n, d, s)
    ensures !IsDatabaseStep(s) ==> DatabaseAfter(n, d, s) == d
    ensures s.ServerLocks? || s.ServerUnlocks? || s.ServerDrops? ==> ServiceAfter(n, d, s) == n
  {
  }

  lemma StepKeepsHold(n: Service, d: Postgres, s: Step)
    requires ServiceInv(n) && HoldInv(n, d) && DatabaseInv(d) && Enabled(n, d, s)
    ensures HoldInv(ServiceAfter(n, d, s), DatabaseAfter(n, d, s)) && DatabaseInv(DatabaseAfter(n, d, s))
  {
    QuietStepIsQuiet(n, d, s);
    if !IsDatabaseStep(s) {
      QuietStepKeepsHold(n, d, s);
    } else if s.ServerLocks? || s.ServerUnlocks? || s.ServerDrops? {
      ServerKeepsHold(n, d, s);
    } else {
      AcquisitionKeepsHold(n, d, s);
    }
  }

  lemma OthersKeepMember(i: nat, other: Service, n: Service, d: Postgres, s: Step)
    requires MemberInv(i, other, d) && ServiceInv(n) && Enabled(n, d, s) && i != n.id
    ensures MemberInv(i, other, DatabaseAfter(n, d, s))
  {
    OwnAcquisition(n);
    StepIsLocal(n, d, s, i);
    OthersKeep(other, d, DatabaseAfter(n, d, s));
  }

  lemma ApplyKeepsInv(w: Cluster, m: Move)
    requires Inv(w)
    ensures Inv(Apply(w, m))
  {
    if m.service < |w.services| && Enabled(w.services[m.service], w.database, m.step) {
      var n, d, s := w.services[m.service], w.database, m.step;
      assert MemberInv(m.service, n, d);
      StepKeepsService(n, d, s);
      StepKeepsHold(n, d, s);
      forall i | 0 <= i < |w.services| && i != m.service ensures MemberInv(i, w.services[i], DatabaseAfter(n, d, s)) {
        OthersKeepMember(i, w.services[i], n, d, s);
      }
    }
  }

  lemma {:induction false} ReachableInv(size: nat, moves: seq<Move>)
    ensures Inv(Run(size, moves))
    ensures |Run(size, moves).services| == size
    decreases |moves|
  {
    if moves == [] {
      forall i | 0 <= i < size ensures ServiceInv(NewService(i)) {
        NewServiceInv(i);
      }
    } else {
      ReachableInv(size, moves[..|moves| - 1]);
      ApplyKeepsInv(Run(size, moves[..|moves| - 1]), moves[|moves| - 1]);
    }
  }
}
