// The service as an object: its fields, and one method for each stretch of code
// between two awaits, proved to do what the functions of LeaderElection say.
module LeaderElectionObject {
  import opened Basics
  import opened LeaderElection
  import opened LeadershipInvariant

  class LeaderElectionService {
    const id: nat
    var started: bool
    var state: State
    var coordinationClient: Option<Session>
    var retryTimer: bool
    var acquisitionInProgress: bool
    var stopped: bool
    var retryDisabled: bool
    var lifecycleTransition: seq<Transition>
    var running: bool
    var closedClients: set<Session>
    var created: nat
    // suspended tasks
    var acquisition: Acquisition
    var standbyLosses: set<Session>
    var leaderLosses: seq<LeaderLoss>
    var stopping: Stopping
    // what has been done so far
    var trace: seq<Event>

    ghost function Now(): Service
      reads this
    {
      Service(id, started, state, coordinationClient, retryTimer, acquisitionInProgress, stopped, retryDisabled,
              lifecycleTransition, running, closedClients, created, acquisition, standbyLosses,
              leaderLosses, stopping, trace)
    }

    constructor (id: nat)
      ensures Now() == NewService(id)
    {
      this.id := id;
      started, state, coordinationClient, retryTimer, acquisitionInProgress := false, Stopped, None, false, false;
      stopped, retryDisabled, lifecycleTransition, running, closedClients, created := true, false, [], false, {}, 0;
      acquisition, standbyLosses, leaderLosses, stopping, trace := Idle, {}, [], NotStopping, [];
    }

    // ------------------------------------------------------------ shared parts

    method DoScheduleRetry()
      modifies this`retryTimer
      ensures Now() == ScheduleRetry(old(Now()))
    {
      if stopped || retryDisabled || state != Standby || retryTimer {
        return;
      }
      retryTimer := true;
    }

    method DoCloseClient(client: Session)
      modifies this`closedClients, this`trace
      ensures Now() == CloseClient(old(Now()), client)
    {
      if client in closedClients {
        return;
      }
      closedClients := closedClients + {client};
      trace := trace + [SessionEnded(client)];
    }

    method DoCloseCoordinationClient(client: Session)
      modifies this`coordinationClient, this`closedClients, this`trace
      ensures Now() == CloseCoordinationClient(old(Now()), client)
    {
      if coordinationClient == Some(client) {
        coordinationClient := None;
      }
      DoCloseClient(client);
    }

    method TryAcquireLeadership()
      modifies this`acquisitionInProgress, this`acquisition, this`created
      ensures Now() == TryAcquire(old(Now()))
    {
      if stopped || retryDisabled || state != Standby || acquisitionInProgress {
        return;
      }
      acquisitionInProgress := true;
      // ensureCoordinationClient
      if coordinationClient.Some? {
        acquisition := Ensured(coordinationClient.value);
        return;
      }
      acquisition := Connecting(Session(id, created));
      created := created + 1;
    }

    method DoFinishAcquisition()
      modifies this`acquisitionInProgress, this`acquisition, this`retryTimer
      ensures Now() == FinishAcquisition(old(Now()))
    {
      acquisitionInProgress := false;
      acquisition := Idle;
      if !stopped && !retryDisabled && state == Standby {
        DoScheduleRetry();
      }
    }

    method CatchAcquisitionError(client: Option<Session>)
      modifies this
      ensures Now() == AcquisitionThrows(old(Now()), client)
    {
      if !stopped && state != Deactivating {
        state := Standby;
      }
      if client.Some? && coordinationClient == client {
        DoCloseCoordinationClient(client.value);
        acquisition := ClosingAfterError(client.value);
      } else {
        DoFinishAcquisition();
      }
    }

    method RunLifecycleTransition(transition: Transition)
      modifies this`lifecycleTransition
      ensures Now() == Enqueue(old(Now()), transition)
    {
      lifecycleTransition := lifecycleTransition + [transition];
    }

    // ---------------------------------------------------------------- segments

    method Start()
      modifies this
      ensures Now() == OnStart(old(Now()))
    {
      if !stopped {
        return;
      }
      started := true;
      stopped := false;
      retryDisabled := false;
      state := Standby;
      TryAcquireLeadership();
    }

    method RetryTimerFires()
      modifies this
      ensures Now() == OnRetry(old(Now()))
    {
      retryTimer := false;
      TryAcquireLeadership();
    }

    method ConnectResolves()
      requires acquisition.Connecting?
      modifies this
      ensures Now() == OnConnected(old(Now()))
    {
      var client := acquisition.session;
      if stopped || retryDisabled {
        DoCloseClient(client);
        acquisition := AbortedConnect(client);
        return;
      }
      coordinationClient := Some(client);
      acquisition := Ensured(client);
    }

    method ConnectRejects()
      requires acquisition.Connecting?
      modifies this
      ensures Now() == OnConnectFailed(old(Now()))
    {
      var client := acquisition.session;
      DoCloseClient(client);
      acquisition := AbortedConnect(client);
    }

    method RequestLock()
      requires acquisition.Ensured?
      modifies this
      ensures Now() == OnEnsured(old(Now()))
    {
      var client := acquisition.session;
      trace := trace + [LockRequested(client)];
      acquisition := Locking(client);
    }

    method LockQueryResolves(acquired: bool)
      requires acquisition.Locking?
      modifies this
      ensures Now() == OnLockReply(old(Now()), acquired)
    {
      var client := acquisition.session;
      if stopped || retryDisabled || coordinationClient != Some(client) {
        DoFinishAcquisition();
        return;
      }
      if !acquired {
        state := Standby;
        DoFinishAcquisition();
        return;
      }
      state := Activating;
      RunLifecycleTransition(Activate(client));
      acquisition := AwaitingActivation(client);
    }

    method LockQueryRejects()
      requires acquisition.Locking?
      modifies this
      ensures Now() == OnLockFailed(old(Now()))
    {
      CatchAcquisitionError(Some(acquisition.session));
    }

    method TransitionStarts()
      requires lifecycleTransition != []
      modifies this
      ensures Now() == OnTransitionStarts(old(Now()))
    {
      running := true;
      match lifecycleTransition[0]
      case Activate(client) => trace := trace + [ActivationStarted(client)];
      case Deactivate(client) => trace := trace + [DeactivationStarted(client)];
    }

    method TransitionSettles(ok: bool)
      requires lifecycleTransition != []
      modifies this
      ensures Now() == OnTransitionSettles(old(Now()), ok)
    {
      var transition := lifecycleTransition[0];
      running := false;
      lifecycleTransition := lifecycleTransition[1..];
      match transition
      case Activate(client) =>
        acquisition := ActivationDone(client, ok);
        trace := trace + [ActivationSettled(client, ok)];
      case Deactivate(client) =>
        leaderLosses := Settled(leaderLosses, client, ok);
        trace := trace + [DeactivationSettled(client, ok)];
    }

    method ActivationResumes()
      requires acquisition.ActivationDone?
      modifies this
      ensures Now() == OnActivationDone(old(Now()))
    {
      var client := acquisition.session;
      if !acquisition.ok {
        if !stopped && coordinationClient == Some(client) {
          acquisition := Unlocking(client);
        } else {
          DoFinishAcquisition();
        }
        return;
      }
      if stopped || retryDisabled || coordinationClient != Some(client) || state != Activating {
        DoFinishAcquisition();
        return;
      }
      state := Leader;
      DoFinishAcquisition();
    }

    method ReleaseSettles()
      modifies this
      ensures Now() == ReleaseFinished(old(Now()))
    {
      if !stopped && state == Activating {
        state := Standby;
      }
      DoFinishAcquisition();
    }

    method UnlockQueryRejects()
      requires acquisition.Unlocking?
      modifies this
      ensures Now() == OnUnlockFailed(old(Now()))
    {
      var client := acquisition.session;
      DoCloseCoordinationClient(client);
      acquisition := ClosingAfterRelease(client);
    }

    method UnlockQueryResolves(released: bool)
      requires acquisition.Unlocking?
      modifies this
      ensures Now() == OnUnlockReply(old(Now()), released)
    {
      if !released {
        UnlockQueryRejects();
      } else {
        ReleaseSettles();
      }
    }

    method HandleCoordinationConnectionLost(client: Session)
      modifies this
      ensures Now() == OnConnectionLost(old(Now()), client)
    {
      if stopped || coordinationClient != Some(client) {
        return;
      }
      coordinationClient := None;
      trace := trace + [SessionLost(client)];
      var hadLeadership := state == Activating || state == Leader;
      if !hadLeadership {
        LoseStandbySession(client);
        return;
      }
      LoseLeaderSession(client);
    }

    method LoseLeaderSession(client: Session)
      modifies this
      ensures var losses := old(leaderLosses) + [LeaderLoss(client, AwaitingDeactivation)];
        Now() == Enqueue(old(Now()).(state := Deactivating, leaderLosses := losses), Deactivate(client))
    {
      state := Deactivating;
      leaderLosses := leaderLosses + [LeaderLoss(client, AwaitingDeactivation)];
      RunLifecycleTransition(Deactivate(client));
    }

    method LoseStandbySession(client: Session)
      modifies this
      ensures Now() == CloseClient(old(Now()).(state := Standby, standbyLosses := old(standbyLosses) + {client}),
                                 client)
    {
      state := Standby;
      standbyLosses := standbyLosses + {client};
      DoCloseClient(client);
    }

    method StandbyLossCloses(client: Session)
      modifies this
      ensures Now() == OnStandbyLossClosed(old(Now()), client)
    {
      standbyLosses := standbyLosses - {client};
      if !stopped && !retryDisabled {
        DoScheduleRetry();
      }
    }

    method DeactivationResumes(i: nat)
      requires i < |leaderLosses| && leaderLosses[i].stage.DeactivationDone?
      modifies this
      ensures Now() == OnDeactivationDone(old(Now()), i)
    {
      DoCloseClient(leaderLosses[i].session);
      leaderLosses := leaderLosses[i := leaderLosses[i].(stage := ClosingAfterLoss(leaderLosses[i].stage.ok))];
    }

    method LossCloses(i: nat)
      requires i < |leaderLosses| && leaderLosses[i].stage.ClosingAfterLoss?
      modifies this
      ensures Now() == OnLossClosed(old(Now()), i)
    {
      if !leaderLosses[i].stage.ok {
        retryDisabled := true;
        state := Failed;
        trace := trace + [FatalReported];
        leaderLosses := leaderLosses[i := leaderLosses[i].(stage := ReportingFatal)];
        return;
      }
      leaderLosses := leaderLosses[..i] + leaderLosses[i + 1..];
      if stopped {
        return;
      }
      state := Standby;
      if !retryDisabled {
        DoScheduleRetry();
      }
    }

    method Stop()
      modifies this
      ensures Now() == OnStop(old(Now()))
    {
      if stopped {
        return;
      }
      var client := coordinationClient;
      var ownsLeadership := state == Activating || state == Leader;
      ClearForStop(ownsLeadership);
      if client.Some? {
        CloseForStop(client.value, ownsLeadership);
      }
    }

    method ClearForStop(ownsLeadership: bool)
      modifies this
      ensures Now() == old(Now()).(stopped := true, retryDisabled := true, retryTimer := false,
                                   client := None, state := Stopped,
                                   trace := old(trace) + [StopRequested(ownsLeadership)])
    {
      trace := trace + [StopRequested(ownsLeadership)];
      stopped := true;
      retryDisabled := true;
      retryTimer := false;
      coordinationClient := None;
      state := Stopped;
    }

    method CloseForStop(client: Session, ownsLeadership: bool)
      modifies this
      ensures Now() == if ownsLeadership then old(Now()).(stopping := Releasing(client))
                       else CloseClient(old(Now()), client).(stopping := ClosingForStop(client))
    {
      if ownsLeadership {
        stopping := Releasing(client);
      } else {
        DoCloseClient(client);
        stopping := ClosingForStop(client);
      }
    }

    method ReleaseForStopSettles()
      requires stopping.Releasing?
      modifies this
      ensures Now() == OnReleasedForStop(old(Now()))
    {
      var client := stopping.session;
      DoCloseClient(client);
      stopping := ClosingForStop(client);
    }

    // -------------------------------------------------------------- event loop

    /** Whatever the event loop resumes next, the invariant of the service holds again, and its history stays legal. */
    method Take(ghost d: Postgres, s: Step, reply: bool)
      requires ServiceInv(Now()) && IsOwnStep(s) && Enabled(Now(), d, s)
      requires s.LockReply? ==> reply == d.replies[acquisition.session]
      modifies this
      ensures ServiceInv(Now()) && Now() == ServiceAfter(old(Now()), d, s)
    {
      StepKeepsService(Now(), d, s);
      TakeStep(d, s, reply);
    }

    predicate IsOwnStep(s: Step) {
      !s.ServerLocks? && !s.ServerUnlocks? && !s.ServerDrops?
    }

    method TakeStep(ghost d: Postgres, s: Step, reply: bool)
      requires IsOwnStep(s) && Enabled(Now(), d, s)
      requires s.LockReply? ==> reply == d.replies[acquisition.session]
      modifies this
      ensures Now() == ServiceAfter(old(Now()), d, s)
    {
      if s.Start? || s.Retry? || s.Connected? || s.ConnectFailed? || s.AbortedConnectClosed? || s.RequestLock? {
        TakeAttempt(s);
      } else if s.LockReply? {
        LockQueryResolves(reply);
      } else if s.LockFailed? || s.ErrorClosed? || s.ActivationResumes?
                || s.UnlockReply? || s.UnlockFailed? || s.ReleaseClosed? {
        TakeAttemptEnd(s);
      } else {
        TakeOther(s);
      }
    }

    method TakeAttempt(s: Step)
      requires Enabled(Now(), NEW_POSTGRES, s)
      requires s.Start? || s.Retry? || s.Connected? || s.ConnectFailed? || s.AbortedConnectClosed? || s.RequestLock?
      modifies this
      ensures Now() == ServiceAfter(old(Now()), NEW_POSTGRES, s)
    {
      match s
      case Start => Start();
      case Retry => RetryTimerFires();
      case Connected => ConnectResolves();
      case ConnectFailed => ConnectRejects();
      case AbortedConnectClosed => CatchAcquisitionError(None);
      case RequestLock => RequestLock();
    }

    method TakeAttemptEnd(s: Step)
      requires s.LockFailed? || s.ErrorClosed? || s.ActivationResumes?
               || s.UnlockReply? || s.UnlockFailed? || s.ReleaseClosed?
      requires s.LockFailed? ==> acquisition.Locking?
      requires s.ActivationResumes? ==> acquisition.ActivationDone?
      requires s.UnlockReply? || s.UnlockFailed? ==> acquisition.Unlocking?
      modifies this
      ensures s.LockFailed? ==> Now() == OnLockFailed(old(Now()))
      ensures s.ErrorClosed? ==> Now() == OnErrorClosed(old(Now()))
      ensures s.ActivationResumes? ==> Now() == OnActivationDone(old(Now()))
      ensures s.UnlockReply? ==> Now() == OnUnlockReply(old(Now()), s.released)
      ensures s.UnlockFailed? ==> Now() == OnUnlockFailed(old(Now()))
      ensures s.ReleaseClosed? ==> Now() == ReleaseFinished(old(Now()))
    {
      match s
      case LockFailed => LockQueryRejects();
      case ErrorClosed => DoFinishAcquisition();
      case ActivationResumes => ActivationResumes();
      case UnlockReply(released) => UnlockQueryResolves(released);
      case UnlockFailed => UnlockQueryRejects();
      case ReleaseClosed => ReleaseSettles();
    }

    method TakeOther(s: Step)
      requires Enabled(Now(), NEW_POSTGRES, s)
      requires s.TransitionStarts? || s.TransitionSettles? || s.ConnectionLost?
               || s.StandbyLossClosed? || s.DeactivationResumes?
               || s.LossClosed? || s.FatalSettled? || s.Stop? || s.ReleasedForStop? || s.ClosedForStop?
      modifies this
      ensures Now() == ServiceAfter(old(Now()), NEW_POSTGRES, s)
    {
      match s
      case TransitionStarts => TransitionStarts();
      case TransitionSettles(ok) => TransitionSettles(ok);
      case ConnectionLost(c) => HandleCoordinationConnectionLost(c);
      case StandbyLossClosed(c) => StandbyLossCloses(c);
      case DeactivationResumes(i) => DeactivationResumes(i);
      case LossClosed(i) => LossCloses(i);
      case FatalSettled(i) => leaderLosses := leaderLosses[..i] + leaderLosses[i + 1..];
      case Stop => Stop();
      case ReleasedForStop => ReleaseForStopSettles();
      case ClosedForStop => stopping := NotStopping;
    }
  }
}
