// The inductive invariant of one leader election service, and what a history of
// its callbacks, lock requests and session ends may look like.
module LeadershipInvariant {
  import opened Basics
  import opened LeaderElection

  // ----------------------------------------------------------- legal histories

  // The active workload as its callbacks' history describes it.
  datatype Work =
    | Inactive
    | Starting(session: Session)
    | Active(session: Session)
    | Halting(session: Session, wasActive: bool)
    | Broken

  // `begun` are the sessions whose activation has started, `refused` those whose
  // last activation failed before the session was lost, and `halted` those whose
  // deactivation has settled.
  datatype Phase = Phase(
    work: Work,
    stopRequested: bool,
    stoppedLeading: bool,
    fatal: bool,
    ended: set<Session>,
    lost: set<Session>,
    begun: set<Session>,
    refused: set<Session>,
    halted: set<Session>)

  const NEW_PHASE := Phase(Inactive, false, false, false, {}, {}, {}, {}, {})

  function After(p: Phase, e: Event): Phase {
    match e
    case StopRequested(leading) => p.(stopRequested := true, stoppedLeading := leading)
    case LockRequested(_) => p
    case ActivationStarted(c) => p.(work := Starting(c), begun := p.begun + {c}, refused := p.refused - {c})
    case ActivationSettled(c, ok) =>
      p.(work := if ok then Active(c) else Inactive,
         refused := if ok || c in p.lost then p.refused else p.refused + {c})
    case SessionLost(c) => p.(lost := p.lost + {c})
    case DeactivationStarted(c) => p.(work := Halting(c, p.work.Active?))
    case DeactivationSettled(c, ok) => p.(work := if ok then Inactive else Broken, halted := p.halted + {c})
    case SessionEnded(c) => p.(ended := p.ended + {c})
    case FatalReported => p.(fatal := true)
  }

  /** Which event may follow a history. */
  predicate Allowed(p: Phase, e: Event) {
    match e
    case StopRequested(_) => !p.stopRequested
    case LockRequested(_) => p.work == Inactive
    case ActivationStarted(_) => p.work == Inactive
    case ActivationSettled(c, _) => p.work == Starting(c)
    case SessionLost(c) => c !in p.lost && !p.stopRequested
    case DeactivationStarted(c) => c in p.lost && (p.work == Inactive || p.work == Active(c))
    case DeactivationSettled(c, _) => p.work.Halting? && p.work.session == c
    case SessionEnded(c) =>
      && c !in p.ended
      && (p.stoppedLeading || (p.work != Starting(c) && p.work != Active(c) && p.work != Halting(c, true)))
      && (c !in p.lost || c !in p.begun || c in p.halted || c in p.refused)
    case FatalReported => p.work == Broken && !p.fatal
  }

  function PhaseOf(trace: seq<Event>): Phase {
    if trace == [] then NEW_PHASE
    else After(PhaseOf(trace[..|trace| - 1]), trace[|trace| - 1])
  }

  predicate Legal(trace: seq<Event>) {
    trace == [] || (Legal(trace[..|trace| - 1]) && Allowed(PhaseOf(trace[..|trace| - 1]), trace[|trace| - 1]))
  }

  lemma Extended(trace: seq<Event>, e: Event)
    ensures PhaseOf(trace + [e]) == After(PhaseOf(trace), e)
    ensures Legal(trace + [e]) <==> Legal(trace) && Allowed(PhaseOf(trace), e)
  {
    assert (trace + [e])[..|trace|] == trace;
  }

  // ----------------------------------------------------------------- invariant

  /** The acquisition has not got as far as asking for an activation. */
  predicate Early(a: Acquisition) {
    a.Connecting? || a.AbortedConnect? || a.Ensured? || a.Locking? || a.ClosingAfterError?
  }

  /** The acquisition has no usable client. */
  predicate Clientless(a: Acquisition) {
    a.Connecting? || a.AbortedConnect? || a.ClosingAfterError? || a.ClosingAfterRelease?
  }

  /** The acquisition's activation has been refused. */
  predicate Refused(a: Acquisition) {
    (a.ActivationDone? && !a.ok) || a.Unlocking? || a.ClosingAfterRelease?
  }

  /** The queue holds the transitions that suspended tasks wait for, and no others. */
  predicate QueueInv(n: Service) {
    && |n.leaderLosses| <= 1
    && n.queue == WaitedFor(n)
    && (n.queue == [] ==> !n.running)
  }

  function WaitedFor(n: Service): seq<Transition> {
    var activation := if n.acquisition.AwaitingActivation? then [Activate(n.acquisition.session)] else [];
    if n.leaderLosses != [] && n.leaderLosses[0].stage == AwaitingDeactivation
    then activation + [Deactivate(n.leaderLosses[0].session)]
    else activation
  }

  predicate WorkInv(n: Service, p: Phase) {
    var w := p.work;
    && (n.queue != [] ==>
          match n.queue[0]
          case Activate(c) => w == if n.running then Starting(c) else Inactive
          case Deactivate(c) =>
            if n.running then w.Halting? && w.session == c else w == Inactive || w == Active(c))
    && (!n.running ==> !w.Starting? && !w.Halting?)
    && (Refused(n.acquisition) ==> !w.Starting? && !w.Active? && (w.Halting? ==> !w.wasActive))
    && (Early(n.acquisition) ==> w == Inactive && n.queue == [] && n.leaderLosses == [])
  }

  predicate LossInv(n: Service, p: Phase) {
    && (n.leaderLosses != [] ==>
          var loss := n.leaderLosses[0];
          && (!n.acquisition.Idle? ==> n.acquisition.session == loss.session)
          && match loss.stage
             case AwaitingDeactivation => true
             case DeactivationDone(ok) => n.queue == [] && !p.fatal && p.work == if ok then Inactive else Broken
             case ClosingAfterLoss(ok) => n.queue == [] && !p.fatal && p.work == if ok then Inactive else Broken
             case ReportingFatal => p.fatal)
    && (p.work == Broken ==>
          && n.queue == []
          && (p.fatal || (n.leaderLosses != [] && (n.leaderLosses[0].stage == DeactivationDone(false)
                                                   || n.leaderLosses[0].stage == ClosingAfterLoss(false)))))
    && (p.fatal ==> p.work == Broken && n.retryDisabled && (n.state == Failed || n.state == Stopped))
  }

  predicate StateInv(n: Service, p: Phase) {
    && (n.acquisitionInProgress <==> !n.acquisition.Idle?)
    && (!n.started ==> n == NewService(n.id))
    && (n.client.Some? ==> !n.stopped && (n.acquisition.Idle? || n.acquisition.session == n.client.value))
    && (Clientless(n.acquisition) ==> n.client == None)
    && (n.started && n.stopped ==>
          !n.retryTimer && n.retryDisabled && p.stopRequested && (n.state == Stopped || n.state == Failed))
    && (!n.stopped ==>
          n.started && !p.stopRequested && n.stopping == NotStopping && (n.retryDisabled <==> n.state == Failed))
    && (!n.stopped ==>
          match n.state
          case Stopped => false
          case Standby =>
            && n.leaderLosses == [] && n.queue == [] && p.work == Inactive
            && (n.client.Some? ==> n.acquisition.Idle? || n.acquisition.Ensured? || n.acquisition.Locking?)
          case Activating =>
            && n.leaderLosses == []
            && (n.client == None ==> n.acquisition.ClosingAfterRelease?)
            && (n.acquisition.AwaitingActivation? || n.acquisition.ActivationDone? || Refused(n.acquisition))
            && (n.acquisition.ActivationDone? && n.acquisition.ok ==> p.work == Active(n.acquisition.session))
            && (Refused(n.acquisition) ==> p.work == Inactive)
          case Leader =>
            n.leaderLosses == [] && n.client.Some? && p.work == Active(n.client.value) && n.acquisition.Idle?
          case Deactivating => n.client == None && n.leaderLosses != [] && n.leaderLosses[0].stage != ReportingFatal
          case Failed => n.client == None && p.fatal)
  }

  predicate Created(id: nat, created: nat, c: Session) {
    c.owner == id && c.number < created
  }

  ghost predicate AllCreated(id: nat, created: nat, cs: set<Session>) {
    forall c :: c in cs ==> Created(id, created, c)
  }

  ghost predicate SessionInv(n: Service, p: Phase) {
    && p.ended == n.closedClients
    && AllCreated(n.id, n.created, n.closedClients) && AllCreated(n.id, n.created, p.lost)
    && n.standbyLosses <= n.closedClients
    && (n.client.Some? ==>
          Created(n.id, n.created, n.client.value) && n.client.value !in n.closedClients && n.client.value !in p.lost)
    && (!n.acquisition.Idle? ==> Created(n.id, n.created, n.acquisition.session))
    && (n.acquisition.Connecting? ==> n.acquisition.session !in n.closedClients && n.acquisition.session !in p.lost)
    && (Clientless(n.acquisition) && !n.acquisition.Connecting? ==> n.acquisition.session in n.closedClients)
    && (n.stopping.Releasing? ==>
          && n.stopped && p.stoppedLeading && !Early(n.acquisition)
          && Created(n.id, n.created, n.stopping.session) && n.stopping.session !in p.lost)
    && (n.stopping.ClosingForStop? ==> n.stopping.session in n.closedClients)
    && (n.leaderLosses != [] ==>
          var loss := n.leaderLosses[0];
          && loss.session in p.lost
          && (loss.stage.ClosingAfterLoss? || loss.stage.ReportingFatal? ==> loss.session in n.closedClients))
    && (forall k: nat :: k < n.created ==> Session(n.id, k) in n.closedClients || Owned(n, Session(n.id, k)))
  }

  /** Which sessions have had an activation, and which of those were refused or have been halted. */
  predicate ActivationInv(n: Service, p: Phase) {
    && (n.acquisition.Connecting? ==> n.acquisition.session !in p.begun)
    && (forall c :: c in p.begun ==> Created(n.id, n.created, c))
    && (n.acquisition.ActivationDone? && !n.acquisition.ok ==>
          n.acquisition.session in p.refused || n.acquisition.session in p.lost)
    && (n.acquisition.Unlocking? ==> n.acquisition.session in p.refused)
    && (!n.stopped && n.state == Standby && n.client.Some? && n.client.value in p.begun ==> n.client.value in p.refused)
    && (n.leaderLosses != [] && n.leaderLosses[0].stage.DeactivationDone? ==> n.leaderLosses[0].session in p.halted)
  }

  /** The session is current, or some suspended task has still to close it. */
  predicate Owned(n: Service, c: Session) {
    || n.client == Some(c)
    || n.acquisition == Connecting(c)
    || (n.leaderLosses != [] && n.leaderLosses[0].session == c
          && (n.leaderLosses[0].stage.AwaitingDeactivation? || n.leaderLosses[0].stage.DeactivationDone?))
    || n.stopping == Releasing(c)
  }

  /** Something will still bring a standby service back to an acquisition. */
  predicate StallInv(n: Service) {
    n.state == Standby && !n.stopped && !n.retryDisabled ==>
      !n.acquisition.Idle? || n.retryTimer || n.standbyLosses != {}
  }

  ghost predicate Inv(n: Service, p: Phase) {
    && QueueInv(n) && WorkInv(n, p) && LossInv(n, p) && StateInv(n, p) && SessionInv(n, p)
    && ActivationInv(n, p) && StallInv(n)
  }

  ghost predicate ServiceInv(n: Service) {
    Legal(n.trace) && Inv(n, PhaseOf(n.trace))
  }

  // -------------------------------------------------------------- preservation

  /** From history phase `p`, the service did only what is allowed and the invariant holds again. */
  ghost predicate Keeps(n: Service, p: Phase, n': Service) {
    && n'.id == n.id
    && (|| (n'.trace == n.trace && Inv(n', p))
        || (exists e :: Does(n, p, n', e))
        || (exists e, e' :: DoesBoth(n, p, n', e, e')))
  }

  ghost predicate Does(n: Service, p: Phase, n': Service, e: Event) {
    n'.trace == n.trace + [e] && Allowed(p, e) && Inv(n', After(p, e))
  }

  ghost predicate DoesBoth(n: Service, p: Phase, n': Service, e: Event, e': Event) {
    && n'.trace == (n.trace + [e]) + [e']
    && Allowed(p, e) && Allowed(After(p, e), e')
    && Inv(n', After(After(p, e), e'))
  }

  lemma KeepsService(n: Service, n': Service)
    requires ServiceInv(n) && Keeps(n, PhaseOf(n.trace), n')
    ensures ServiceInv(n')
  {
    var p := PhaseOf(n.trace);
    if e :| Does(n, p, n', e) {
      Extended(n.trace, e);
    } else if e, e' :| DoesBoth(n, p, n', e, e') {
      Extended(n.trace, e);
      Extended(n.trace + [e], e');
    }
  }

  lemma NewServiceInv(id: nat)
    ensures ServiceInv(NewService(id))
  {
  }

  lemma StartKeeps(n: Service, p: Phase)
    requires Inv(n, p) && !n.started
    ensures p == PhaseOf([]) ==> Keeps(n, p, OnStart(n))
  {
  }

  lemma RetryKeeps(n: Service, p: Phase)
    requires Inv(n, p) && n.retryTimer
    ensures Keeps(n, p, OnRetry(n))
  {
    assert Inv(OnRetry(n), p);
  }

  lemma ConnectedKeeps(n: Service, p: Phase)
    requires Inv(n, p) && n.acquisition.Connecting?
    ensures Keeps(n, p, OnConnected(n))
  {
    if n.stopped || n.retryDisabled {
      assert Does(n, p, OnConnected(n), SessionEnded(n.acquisition.session));
    } else {
      assert Inv(OnConnected(n), p);
    }
  }

  lemma ConnectFailedKeeps(n: Service, p: Phase)
    requires Inv(n, p) && n.acquisition.Connecting?
    ensures Keeps(n, p, OnConnectFailed(n))
  {
    assert Does(n, p, OnConnectFailed(n), SessionEnded(n.acquisition.session));
  }

  lemma FinishEarlyKeeps(n: Service, p: Phase)
    requires Inv(n, p) && Early(n.acquisition) && !n.acquisition.Connecting?
    ensures Keeps(n, p, FinishAcquisition(n))
    ensures Keeps(n, p, FinishAcquisition(if !n.stopped && n.state != Deactivating then n.(state := Standby) else n))
  {
    assert Inv(FinishAcquisition(n), p);
  }

  lemma EnsuredKeeps(n: Service, p: Phase)
    requires Inv(n, p) && n.acquisition.Ensured?
    ensures Keeps(n, p, OnEnsured(n))
  {
    assert Does(n, p, OnEnsured(n), LockRequested(n.acquisition.session));
  }

  lemma LockReplyKeeps(n: Service, p: Phase, acquired: bool)
    requires Inv(n, p) && n.acquisition.Locking?
    ensures Keeps(n, p, OnLockReply(n, acquired))
  {
    var c := n.acquisition.session;
    if n.stopped || n.retryDisabled || n.client != Some(c) || !acquired {
      FinishEarlyKeeps(n, p);
      assert n.client == Some(c) ==> n.(state := Standby) == n;
    } else {
      assert Inv(OnLockReply(n, acquired), p);
    }
  }

  lemma LockFailedKeeps(n: Service, p: Phase)
    requires Inv(n, p) && n.acquisition.Locking?
    ensures Keeps(n, p, OnLockFailed(n))
  {
    var c := n.acquisition.session;
    if n.client == Some(c) {
      assert n.(state := Standby) == n;
      assert Does(n, p, OnLockFailed(n), SessionEnded(c));
    } else {
      FinishEarlyKeeps(n, p);
    }
  }

  lemma TransitionStartsKeeps(n: Service, p: Phase)
    requires Inv(n, p) && n.queue != [] && !n.running
    ensures Keeps(n, p, OnTransitionStarts(n))
  {
    match n.queue[0]
    case Activate(c) => assert Does(n, p, OnTransitionStarts(n), ActivationStarted(c));
    case Deactivate(c) => assert Does(n, p, OnTransitionStarts(n), DeactivationStarted(c));
  }

  lemma ActivationSettlesKeeps(n: Service, p: Phase, ok: bool)
    requires Inv(n, p) && n.queue != [] && n.running && n.queue[0].Activate?
    ensures Keeps(n, p, OnTransitionSettles(n, ok))
  {
    assert Does(n, p, OnTransitionSettles(n, ok), ActivationSettled(n.queue[0].session, ok));
  }

  lemma OnlyDeactivation(n: Service, ok: bool)
    requires QueueInv(n) && n.queue != [] && n.queue[0].Deactivate?
    ensures var c := n.queue[0].session;
      && n.queue == [Deactivate(c)] && n.queue[1..] == []
      && n.leaderLosses == [LeaderLoss(c, AwaitingDeactivation)]
      && Settled(n.leaderLosses, c, ok) == [LeaderLoss(c, DeactivationDone(ok))]
  {
  }

  lemma DeactivationSettlesKeeps(n: Service, p: Phase, ok: bool)
    requires Inv(n, p) && n.queue != [] && n.running && n.queue[0].Deactivate?
    ensures Keeps(n, p, OnTransitionSettles(n, ok))
  {
    var c := n.queue[0].session;
    OnlyDeactivation(n, ok);
    assert Does(n, p, OnTransitionSettles(n, ok), DeactivationSettled(c, ok));
  }

  lemma ActivationDoneKeeps(n: Service, p: Phase)
    requires Inv(n, p) && n.acquisition.ActivationDone?
    ensures Keeps(n, p, OnActivationDone(n))
  {
    var c := n.acquisition.session;
    if !n.stopped && n.client == Some(c) {
      if n.acquisition.ok {
        assert Inv(n.(state := Leader, acquisitionInProgress := false, acquisition := Idle), p);
      } else {
        assert Inv(n.(acquisition := Unlocking(c)), p);
      }
    } else {
      LateActivationKeeps(n, p);
    }
  }

  /** An activation that settles after its session was lost or the service stopped leads nowhere. */
  lemma LateActivationKeeps(n: Service, p: Phase)
    requires Inv(n, p) && n.acquisition.ActivationDone? && (n.stopped || n.client != Some(n.acquisition.session))
    ensures Keeps(n, p, FinishAcquisition(n))
  {
    assert Inv(FinishAcquisition(n), p);
  }

  lemma UnlockFailedKeeps(n: Service, p: Phase)
    requires Inv(n, p) && n.acquisition.Unlocking?
    ensures Keeps(n, p, OnUnlockFailed(n))
  {
    var c := n.acquisition.session;
    if c in n.closedClients {
      UnlockFailedOnClosed(n, p);
    } else if n.client == Some(c) {
      assert Does(n, p, OnUnlockFailed(n), SessionEnded(c));
    } else {
      UnlockFailedAfterLoss(n, p);
    }
  }

  lemma UnlockFailedOnClosed(n: Service, p: Phase)
    requires Inv(n, p) && n.acquisition.Unlocking? && n.acquisition.session in n.closedClients
    ensures Keeps(n, p, OnUnlockFailed(n))
  {
    assert Inv(n.(acquisition := ClosingAfterRelease(n.acquisition.session)), p);
  }

  lemma UnlockFailedAfterLoss(n: Service, p: Phase)
    requires Inv(n, p) && n.acquisition.Unlocking?
    requires n.client != Some(n.acquisition.session) && n.acquisition.session !in n.closedClients
    ensures Keeps(n, p, OnUnlockFailed(n))
  {
    assert Does(n, p, OnUnlockFailed(n), SessionEnded(n.acquisition.session));
  }

  lemma ReleaseFinishedKeeps(n: Service, p: Phase)
    requires Inv(n, p) && (n.acquisition.Unlocking? || n.acquisition.ClosingAfterRelease?)
    ensures Keeps(n, p, ReleaseFinished(n))
  {
    if !n.stopped && n.state == Activating {
      assert Inv(n.(state := Standby, acquisitionInProgress := false, acquisition := Idle, retryTimer := true), p);
    } else {
      LateReleaseKeeps(n, p);
    }
  }

  lemma LateReleaseKeeps(n: Service, p: Phase)
    requires Inv(n, p) && (n.acquisition.Unlocking? || n.acquisition.ClosingAfterRelease?)
    requires n.stopped || n.state != Activating
    ensures Keeps(n, p, FinishAcquisition(n))
  {
    assert Inv(FinishAcquisition(n), p);
  }

  lemma ConnectionLostKeeps(n: Service, p: Phase, c: Session)
    requires Inv(n, p)
    ensures Keeps(n, p, OnConnectionLost(n, c))
  {
    if !n.stopped && n.client == Some(c) {
      if n.state == Activating || n.state == Leader {
        LostWhileLeading(n, p, c);
      } else {
        LostInStandby(n, p, c);
      }
    }
  }

  lemma LostWhileLeading(n: Service, p: Phase, c: Session)
    requires Inv(n, p) && !n.stopped && n.client == Some(c) && (n.state == Activating || n.state == Leader)
    ensures Keeps(n, p, OnConnectionLost(n, c))
  {
    assert Does(n, p, OnConnectionLost(n, c), SessionLost(c));
  }

  lemma LostInStandby(n: Service, p: Phase, c: Session)
    requires Inv(n, p) && !n.stopped && n.client == Some(c) && n.state != Activating && n.state != Leader
    ensures Keeps(n, p, OnConnectionLost(n, c))
  {
    assert DoesBoth(n, p, OnConnectionLost(n, c), SessionLost(c), SessionEnded(c));
  }

  lemma StandbyLossClosedKeeps(n: Service, p: Phase, c: Session)
    requires Inv(n, p) && c in n.standbyLosses
    ensures Keeps(n, p, OnStandbyLossClosed(n, c))
  {
    if !n.stopped && !n.retryDisabled && n.state == Standby && !n.retryTimer {
      TimerSetKeeps(n, p, c);
    } else {
      LossForgottenKeeps(n, p, c);
    }
  }

  lemma TimerSetKeeps(n: Service, p: Phase, c: Session)
    requires Inv(n, p) && c in n.standbyLosses && !n.stopped && n.state == Standby
    ensures Inv(n.(standbyLosses := n.standbyLosses - {c}, retryTimer := true), p)
  {
  }

  lemma LossForgottenKeeps(n: Service, p: Phase, c: Session)
    requires Inv(n, p) && c in n.standbyLosses
    requires n.stopped || n.retryDisabled || n.state != Standby || n.retryTimer
    ensures Inv(n.(standbyLosses := n.standbyLosses - {c}), p)
  {
  }

  lemma DeactivationDoneKeeps(n: Service, p: Phase, i: nat)
    requires Inv(n, p) && i < |n.leaderLosses| && n.leaderLosses[i].stage.DeactivationDone?
    ensures Keeps(n, p, OnDeactivationDone(n, i))
  {
    var c := n.leaderLosses[i].session;
    if c in n.closedClients {
      assert Inv(OnDeactivationDone(n, i), p);
    } else {
      assert Does(n, p, OnDeactivationDone(n, i), SessionEnded(c));
    }
  }

  lemma LossClosedKeeps(n: Service, p: Phase, i: nat)
    requires Inv(n, p) && i < |n.leaderLosses| && n.leaderLosses[i].stage.ClosingAfterLoss?
    ensures Keeps(n, p, OnLossClosed(n, i))
  {
    if n.leaderLosses[i].stage.ok {
      assert Inv(OnLossClosed(n, i), p);
    } else {
      assert Does(n, p, OnLossClosed(n, i), FatalReported);
    }
  }

  lemma FatalSettledKeeps(n: Service, p: Phase, i: nat)
    requires Inv(n, p) && i < |n.leaderLosses| && n.leaderLosses[i].stage == ReportingFatal
    ensures Keeps(n, p, OnFatalSettled(n, i))
  {
    assert Inv(OnFatalSettled(n, i), p);
  }

  lemma StopKeeps(n: Service, p: Phase)
    requires Inv(n, p) && n.started
    ensures Keeps(n, p, OnStop(n))
  {
    if !n.stopped {
      if n.client.None? || n.state == Activating || n.state == Leader {
        assert Does(n, p, OnStop(n), StopRequested(n.state == Activating || n.state == Leader));
      } else {
        assert DoesBoth(n, p, OnStop(n), StopRequested(false), SessionEnded(n.client.value));
      }
    }
  }

  lemma ReleasedForStopKeeps(n: Service, p: Phase)
    requires Inv(n, p) && n.stopping.Releasing?
    ensures Keeps(n, p, OnReleasedForStop(n))
  {
    var c := n.stopping.session;
    if c in n.closedClients {
      assert Inv(OnReleasedForStop(n), p);
    } else {
      assert Does(n, p, OnReleasedForStop(n), SessionEnded(c));
    }
  }

  lemma ClosedForStopKeeps(n: Service, p: Phase)
    requires Inv(n, p) && n.stopping.ClosingForStop?
    ensures Keeps(n, p, OnClosedForStop(n))
  {
    assert Inv(OnClosedForStop(n), p);
  }

  predicate IsAttemptStep(s: Step) {
    || s.Start? || s.Retry? || s.Connected? || s.ConnectFailed? || s.AbortedConnectClosed?
    || s.RequestLock? || s.LockReply? || s.LockFailed? || s.ErrorClosed?
  }

  lemma AttemptStepKeeps(n: Service, d: Postgres, s: Step)
    requires ServiceInv(n) && Enabled(n, d, s) && IsAttemptStep(s)
    ensures Keeps(n, PhaseOf(n.trace), ServiceAfter(n, d, s))
  {
    var p := PhaseOf(n.trace);
    match s
    case Start => StartKeeps(n, p);
    case Retry => RetryKeeps(n, p);
    case Connected => ConnectedKeeps(n, p);
    case ConnectFailed => ConnectFailedKeeps(n, p);
    case AbortedConnectClosed => FinishEarlyKeeps(n, p);
    case RequestLock => EnsuredKeeps(n, p);
    case LockReply => LockReplyKeeps(n, p, d.replies[n.acquisition.session]);
    case LockFailed => LockFailedKeeps(n, p);
    case ErrorClosed => FinishEarlyKeeps(n, p);
  }

  lemma OtherStepKeeps(n: Service, d: Postgres, s: Step)
    requires ServiceInv(n) && Enabled(n, d, s) && !IsAttemptStep(s)
    ensures Keeps(n, PhaseOf(n.trace), ServiceAfter(n, d, s))
  {
    var p := PhaseOf(n.trace);
    match s
    case TransitionStarts => TransitionStartsKeeps(n, p);
    case TransitionSettles(ok) =>
      if n.queue[0].Activate? { ActivationSettlesKeeps(n, p, ok); } else { DeactivationSettlesKeeps(n, p, ok); }
    case ActivationResumes => ActivationDoneKeeps(n, p);
    case UnlockReply(released) => if released { ReleaseFinishedKeeps(n, p); } else { UnlockFailedKeeps(n, p); }
    case UnlockFailed => UnlockFailedKeeps(n, p);
    case ReleaseClosed => ReleaseFinishedKeeps(n, p);
    case ConnectionLost(c) => ConnectionLostKeeps(n, p, c);
    case StandbyLossClosed(c) => StandbyLossClosedKeeps(n, p, c);
    case DeactivationResumes(i) => DeactivationDoneKeeps(n, p, i);
    case LossClosed(i) => LossClosedKeeps(n, p, i);
    case FatalSettled(i) => FatalSettledKeeps(n, p, i);
    case Stop => StopKeeps(n, p);
    case ReleasedForStop => ReleasedForStopKeeps(n, p);
    case ClosedForStop => ClosedForStopKeeps(n, p);
    case ServerLocks(_) =>
    case ServerUnlocks(_) =>
    case ServerDrops(_) =>
  }

  /** Every step of a service keeps its invariant and extends its history legally. */
  lemma StepKeepsService(n: Service, d: Postgres, s: Step)
    requires ServiceInv(n) && Enabled(n, d, s)
    ensures ServiceInv(ServiceAfter(n, d, s)) && ServiceAfter(n, d, s).id == n.id
  {
    if IsAttemptStep(s) {
      AttemptStepKeeps(n, d, s);
    } else {
      OtherStepKeeps(n, d, s);
    }
    KeepsService(n, ServiceAfter(n, d, s));
  }
}
