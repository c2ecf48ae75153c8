// The leader election service as a set of suspended tasks over one PostgreSQL
// database (postgres-advisory-leader-election.ts). Each function below is the
// synchronous code between two awaits.
module LeaderElection {
  import opened Basics

  // A client connection, named by the service that created it.
  datatype Session = Session(owner: nat, number: nat)

  datatype State = Stopped | Standby | Activating | Leader | Deactivating | Failed

  // An entry of the FIFO lifecycle queue.
  datatype Transition = Activate(session: Session) | Deactivate(session: Session)

  // Where the (only) acquisition task is suspended.
  datatype Acquisition =
    | Idle
    | Connecting(session: Session)
    | AbortedConnect(session: Session)
    | Ensured(session: Session)
    | Locking(session: Session)
    | AwaitingActivation(session: Session)
    | ActivationDone(session: Session, ok: bool)
    | Unlocking(session: Session)
    | ClosingAfterRelease(session: Session)
    | ClosingAfterError(session: Session)

  // Where the handler of a session lost while leading is suspended.
  datatype LossStage =
    | AwaitingDeactivation
    | DeactivationDone(ok: bool)
    | ClosingAfterLoss(ok: bool)
    | ReportingFatal

  datatype LeaderLoss = LeaderLoss(session: Session, stage: LossStage)

  // Where stop() is suspended.
  datatype Stopping = NotStopping | Releasing(session: Session) | ClosingForStop(session: Session)

  // What the service has done, in order.
  datatype Event =
    | StopRequested(leading: bool)
    | LockRequested(session: Session)
    | ActivationStarted(session: Session)
    | ActivationSettled(session: Session, ok: bool)
    | SessionLost(session: Session)
    | DeactivationStarted(session: Session)
    | DeactivationSettled(session: Session, ok: bool)
    | SessionEnded(session: Session)
    | FatalReported

  datatype Service = Service(
    id: nat,
    started: bool,
    state: State,
    client: Option<Session>,
    retryTimer: bool,
    acquisitionInProgress: bool,
    stopped: bool,
    retryDisabled: bool,
    queue: seq<Transition>,
    running: bool,
    closedClients: set<Session>,
    created: nat,
    acquisition: Acquisition,
    standbyLosses: set<Session>, // handlers of sessions lost in standby, all closing them
    leaderLosses: seq<LeaderLoss>,
    stopping: Stopping,
    trace: seq<Event>)

  function NewService(id: nat): Service {
    Service(id, false, Stopped, None, false, false, true, false, [], false, {}, 0, Idle, {}, [], NotStopping, [])
  }

  // --------------------------------------------------------------- shared parts

  function ScheduleRetry(n: Service): Service {
    if n.stopped || n.retryDisabled || n.state != Standby || n.retryTimer then n
    else n.(retryTimer := true)
  }

  function CloseClient(n: Service, c: Session): Service {
    if c in n.closedClients then n
    else n.(closedClients := n.closedClients + {c}, trace := n.trace + [SessionEnded(c)])
  }

  function CloseCoordinationClient(n: Service, c: Session): Service {
    CloseClient(if n.client == Some(c) then n.(client := None) else n, c)
  }

  function TryAcquire(n: Service): Service {
    if n.stopped || n.retryDisabled || n.state != Standby || n.acquisitionInProgress then n
    else
      var n' := n.(acquisitionInProgress := true);
      match n.client
      case Some(c) => n'.(acquisition := Ensured(c))
      case None => n'.(created := n.created + 1, acquisition := Connecting(Session(n.id, n.created)))
  }

  /** The finally block of the acquisition. */
  function FinishAcquisition(n: Service): Service {
    var n' := n.(acquisitionInProgress := false, acquisition := Idle);
    if !n.stopped && !n.retryDisabled && n.state == Standby then ScheduleRetry(n') else n'
  }

  /** The catch block of the acquisition; `client` is the local variable of that name. */
  function AcquisitionThrows(n: Service, client: Option<Session>): Service {
    var n' := if !n.stopped && n.state != Deactivating then n.(state := Standby) else n;
    if client.Some? && n.client == client
    then CloseCoordinationClient(n', client.value).(acquisition := ClosingAfterError(client.value))
    else FinishAcquisition(n')
  }

  function Enqueue(n: Service, t: Transition): Service {
    n.(queue := n.queue + [t])
  }

  // ------------------------------------------------------------------ segments

  function OnStart(n: Service): Service {
    if !n.stopped then n
    else TryAcquire(n.(started := true, stopped := false, retryDisabled := false, state := Standby))
  }

  function OnRetry(n: Service): Service {
    TryAcquire(n.(retryTimer := false))
  }

  function OnConnected(n: Service): Service
    requires n.acquisition.Connecting?
  {
    var c := n.acquisition.session;
    if n.stopped || n.retryDisabled then CloseClient(n, c).(acquisition := AbortedConnect(c))
    else n.(client := Some(c), acquisition := Ensured(c))
  }

  function OnConnectFailed(n: Service): Service
    requires n.acquisition.Connecting?
  {
    CloseClient(n, n.acquisition.session).(acquisition := AbortedConnect(n.acquisition.session))
  }

  function OnAbortedConnectClosed(n: Service): Service {
    AcquisitionThrows(n, None)
  }

  function OnEnsured(n: Service): Service
    requires n.acquisition.Ensured?
  {
    n.(acquisition := Locking(n.acquisition.session), trace := n.trace + [LockRequested(n.acquisition.session)])
  }

  function OnLockReply(n: Service, acquired: bool): Service
    requires n.acquisition.Locking?
  {
    var c := n.acquisition.session;
    if n.stopped || n.retryDisabled || n.client != Some(c) then FinishAcquisition(n)
    else if !acquired then FinishAcquisition(n.(state := Standby))
    else Enqueue(n.(state := Activating, acquisition := AwaitingActivation(c)), Activate(c))
  }

  function OnLockFailed(n: Service): Service
    requires n.acquisition.Locking?
  {
    AcquisitionThrows(n, Some(n.acquisition.session))
  }

  function OnErrorClosed(n: Service): Service {
    FinishAcquisition(n)
  }

  function OnTransitionStarts(n: Service): Service
    requires n.queue != []
  {
    var e := match n.queue[0]
      case Activate(c) => ActivationStarted(c)
      case Deactivate(c) => DeactivationStarted(c);
    n.(running := true, trace := n.trace + [e])
  }

  function OnTransitionSettles(n: Service, ok: bool): Service
    requires n.queue != []
  {
    var n' := n.(running := false, queue := n.queue[1..]);
    match n.queue[0]
    case Activate(c) => n'.(acquisition := ActivationDone(c, ok), trace := n.trace + [ActivationSettled(c, ok)])
    case Deactivate(c) =>
      n'.(leaderLosses := Settled(n.leaderLosses, c, ok), trace := n.trace + [DeactivationSettled(c, ok)])
  }

  /** The handler waiting for the deactivation of `c` has its outcome. */
  function Settled(losses: seq<LeaderLoss>, c: Session, ok: bool): seq<LeaderLoss> {
    seq(|losses|, i requires 0 <= i < |losses| =>
      if losses[i] == LeaderLoss(c, AwaitingDeactivation) then LeaderLoss(c, DeactivationDone(ok)) else losses[i])
  }

  function AtStage(n: Service, i: nat, stage: LossStage): Service
    requires i < |n.leaderLosses|
  {
    n.(leaderLosses := n.leaderLosses[i := n.leaderLosses[i].(stage := stage)])
  }

  function WithoutLoss(n: Service, i: nat): Service
    requires i < |n.leaderLosses|
  {
    n.(leaderLosses := n.leaderLosses[..i] + n.leaderLosses[i + 1..])
  }

  function OnActivationDone(n: Service): Service
    requires n.acquisition.ActivationDone?
  {
    var c := n.acquisition.session;
    if n.acquisition.ok then
      if n.stopped || n.retryDisabled || n.client != Some(c) || n.state != Activating then FinishAcquisition(n)
      else FinishAcquisition(n.(state := Leader))
    else
      if !n.stopped && n.client == Some(c) then n.(acquisition := Unlocking(c))
      else FinishAcquisition(n)
  }

  /** The finally block of the release after a failed activation, and what follows it. */
  function ReleaseFinished(n: Service): Service {
    FinishAcquisition(if !n.stopped && n.state == Activating then n.(state := Standby) else n)
  }

  function OnUnlockReply(n: Service, released: bool): Service
    requires n.acquisition.Unlocking?
  {
    if released then ReleaseFinished(n) else OnUnlockFailed(n)
  }

  function OnUnlockFailed(n: Service): Service
    requires n.acquisition.Unlocking?
  {
    CloseCoordinationClient(n, n.acquisition.session).(acquisition := ClosingAfterRelease(n.acquisition.session))
  }

  function OnConnectionLost(n: Service, c: Session): Service {
    if n.stopped || n.client != Some(c) then n
    else
      var n' := n.(client := None, trace := n.trace + [SessionLost(c)]);
      if n.state != Activating && n.state != Leader then
        CloseClient(n'.(state := Standby, standbyLosses := n.standbyLosses + {c}), c)
      else
        Enqueue(n'.(state := Deactivating, leaderLosses := n.leaderLosses + [LeaderLoss(c, AwaitingDeactivation)]),
                Deactivate(c))
  }

  function OnStandbyLossClosed(n: Service, c: Session): Service {
    var n' := n.(standbyLosses := n.standbyLosses - {c});
    if !n.stopped && !n.retryDisabled then ScheduleRetry(n') else n'
  }

  function OnDeactivationDone(n: Service, i: nat): Service
    requires i < |n.leaderLosses| && n.leaderLosses[i].stage.DeactivationDone?
  {
    AtStage(CloseClient(n, n.leaderLosses[i].session), i, ClosingAfterLoss(n.leaderLosses[i].stage.ok))
  }

  function OnLossClosed(n: Service, i: nat): Service
    requires i < |n.leaderLosses| && n.leaderLosses[i].stage.ClosingAfterLoss?
  {
    if !n.leaderLosses[i].stage.ok then
      AtStage(n.(retryDisabled := true, state := Failed, trace := n.trace + [FatalReported]), i, ReportingFatal)
    else
      var n' := WithoutLoss(n, i);
      if n.stopped then n'
      else if n.retryDisabled then n'.(state := Standby)
      else ScheduleRetry(n'.(state := Standby))
  }

  function OnFatalSettled(n: Service, i: nat): Service
    requires i < |n.leaderLosses|
  {
    WithoutLoss(n, i)
  }

  function OnStop(n: Service): Service {
    if n.stopped then n
    else
      var owns := n.state == Activating || n.state == Leader;
      var n' := n.(stopped := true, retryDisabled := true, retryTimer := false, client := None, state := Stopped,
                   trace := n.trace + [StopRequested(owns)]);
      match n.client
      case None => n'
      case Some(c) =>
        if owns then n'.(stopping := Releasing(c)) else CloseClient(n', c).(stopping := ClosingForStop(c))
  }

  function OnReleasedForStop(n: Service): Service
    requires n.stopping.Releasing?
  {
    CloseClient(n, n.stopping.session).(stopping := ClosingForStop(n.stopping.session))
  }

  function OnClosedForStop(n: Service): Service {
    n.(stopping := NotStopping)
  }

  // ------------------------------------------------------------------ database

  // Sessions the server knows, lock requests on their way to it, lock replies on
  // their way back, and the holder of the advisory lock.
  datatype Postgres = Postgres(
    open: set<Session>,
    requests: set<Session>,
    replies: map<Session, bool>,
    holder: Option<Session>,
    depth: nat)

  const NEW_POSTGRES := Postgres({}, {}, map[], None, 0)

  /** pg_try_advisory_lock: granted when the lock is free, and again to its holder. */
  function ExecuteLock(d: Postgres, c: Session): Postgres {
    var d' := d.(requests := d.requests - {c});
    if c !in d.open then d'
    else if d.holder == None then d'.(holder := Some(c), depth := 1, replies := d.replies[c := true])
    else if d.holder == Some(c) then d'.(depth := d.depth + 1, replies := d.replies[c := true])
    else d'.(replies := d.replies[c := false])
  }

  /** pg_advisory_unlock. */
  function ExecuteUnlock(d: Postgres, c: Session): Postgres {
    if d.holder != Some(c) then d
    else if d.depth <= 1 then d.(holder := None, depth := 0)
    else d.(depth := d.depth - 1)
  }

  /** The server notices that a session is gone, and frees what it held. */
  function DropSession(d: Postgres, c: Session): Postgres {
    var d' := d.(open := d.open - {c});
    if d.holder == Some(c) then d'.(holder := None, depth := 0) else d'
  }

  // --------------------------------------------------------------------- steps

  datatype Step =
    | Start | Retry | Connected | ConnectFailed | AbortedConnectClosed
    | RequestLock | LockReply | LockFailed | ErrorClosed
    | TransitionStarts | TransitionSettles(ok: bool) | ActivationResumes
    | UnlockReply(released: bool) | UnlockFailed | ReleaseClosed
    | ConnectionLost(session: Session) | StandbyLossClosed(session: Session)
    | DeactivationResumes(handler: nat) | LossClosed(handler: nat) | FatalSettled(handler: nat)
    | Stop | ReleasedForStop | ClosedForStop
    // steps of the server on sessions of this service
    | ServerLocks(session: Session) | ServerUnlocks(session: Session) | ServerDrops(session: Session)

  predicate Enabled(n: Service, d: Postgres, s: Step) {
    match s
    case Start => !n.started
    case Retry => n.retryTimer
    case Connected => n.acquisition.Connecting?
    case ConnectFailed => n.acquisition.Connecting?
    case AbortedConnectClosed => n.acquisition.AbortedConnect?
    case RequestLock => n.acquisition.Ensured?
    case LockReply => n.acquisition.Locking? && n.acquisition.session in d.replies
    case LockFailed => n.acquisition.Locking?
    case ErrorClosed => n.acquisition.ClosingAfterError?
    case TransitionStarts => n.queue != [] && !n.running
    case TransitionSettles(_) => n.queue != [] && n.running
    case ActivationResumes => n.acquisition.ActivationDone?
    // a positive reply means that the server has unlocked
    case UnlockReply(released) => n.acquisition.Unlocking? && (released ==> d.holder != Some(n.acquisition.session))
    case UnlockFailed => n.acquisition.Unlocking?
    case ReleaseClosed => n.acquisition.ClosingAfterRelease?
    case ConnectionLost(c) => true
    case StandbyLossClosed(c) => c in n.standbyLosses
    case DeactivationResumes(i) => i < |n.leaderLosses| && n.leaderLosses[i].stage.DeactivationDone?
    case LossClosed(i) => i < |n.leaderLosses| && n.leaderLosses[i].stage.ClosingAfterLoss?
    case FatalSettled(i) => i < |n.leaderLosses| && n.leaderLosses[i].stage == ReportingFatal
    case Stop => n.started
    case ReleasedForStop => n.stopping.Releasing?
    case ClosedForStop => n.stopping.ClosingForStop?
    case ServerLocks(c) => c.owner == n.id && c in d.requests
    case ServerUnlocks(c) => c.owner == n.id && (n.acquisition == Unlocking(c) || n.stopping == Releasing(c))
    case ServerDrops(c) => c.owner == n.id && c in d.open
  }

  function ServiceAfter(n: Service, d: Postgres, s: Step): Service
    requires Enabled(n, d, s)
  {
    match s
    case Start => OnStart(n)
    case Retry => OnRetry(n)
    case Connected => OnConnected(n)
    case ConnectFailed => OnConnectFailed(n)
    case AbortedConnectClosed => OnAbortedConnectClosed(n)
    case RequestLock => OnEnsured(n)
    case LockReply => OnLockReply(n, d.replies[n.acquisition.session])
    case LockFailed => OnLockFailed(n)
    case ErrorClosed => OnErrorClosed(n)
    case TransitionStarts => OnTransitionStarts(n)
    case TransitionSettles(ok) => OnTransitionSettles(n, ok)
    case ActivationResumes => OnActivationDone(n)
    case UnlockReply(released) => OnUnlockReply(n, released)
    case UnlockFailed => OnUnlockFailed(n)
    case ReleaseClosed => ReleaseFinished(n)
    case ConnectionLost(c) => OnConnectionLost(n, c)
    case StandbyLossClosed(c) => OnStandbyLossClosed(n, c)
    case DeactivationResumes(i) => OnDeactivationDone(n, i)
    case LossClosed(i) => OnLossClosed(n, i)
    case FatalSettled(i) => OnFatalSettled(n, i)
    case Stop => OnStop(n)
    case ReleasedForStop => OnReleasedForStop(n)
    case ClosedForStop => OnClosedForStop(n)
    case ServerLocks(_) => n
    case ServerUnlocks(_) => n
    case ServerDrops(_) => n
  }

  function DatabaseAfter(n: Service, d: Postgres, s: Step): Postgres
    requires Enabled(n, d, s)
  {
    match s
    case Connected => d.(open := d.open + {n.acquisition.session})
    // a request made on a client that has been ended is never sent
    case RequestLock =>
      if n.acquisition.session in n.closedClients then d else d.(requests := d.requests + {n.acquisition.session})
    case LockReply => d.(replies := d.replies - {n.acquisition.session})
    case ServerLocks(c) => ExecuteLock(d, c)
    case ServerUnlocks(c) => ExecuteUnlock(d, c)
    case ServerDrops(c) => DropSession(d, c)
    case _ => d
  }
}
