// What every run of a cluster of election services guarantees, and where the
// guarantees stop.
module ElectionSafety {
  import opened Basics
  import opened LeaderElection
  import opened LeadershipInvariant
  import opened ElectionCluster
  import opened ElectionEngagement

  // --------------------------------------------------- reading legal histories

  lemma {:induction false} LegalPrefix(trace: seq<Event>, n: nat)
    requires Legal(trace) && n <= |trace|
    ensures Legal(trace[..n])
    ensures n < |trace| ==>
              && Allowed(PhaseOf(trace[..n]), trace[n])
              && PhaseOf(trace[..n + 1]) == After(PhaseOf(trace[..n]), trace[n])
    decreases |trace|
  {
    if n == |trace| {
      assert trace[..n] == trace;
    } else if n == |trace| - 1 {
      assert trace[..n + 1] == trace;
    } else {
      var shorter := trace[..|trace| - 1];
      LegalPrefix(shorter, n);
      assert shorter[..n] == trace[..n] && shorter[..n + 1] == trace[..n + 1];
    }
  }

  predicate IsStart(e: Event) {
    e.ActivationStarted? || e.DeactivationStarted?
  }

  predicate IsSettle(e: Event) {
    e.ActivationSettled? || e.DeactivationSettled?
  }

  /** The work a history is left with after a callback starts, until one settles. */
  lemma {:induction false} RunningUntilSettled(trace: seq<Event>, i: nat, n: nat)
    requires Legal(trace) && i < n <= |trace| && IsStart(trace[i])
    requires forall k :: i < k < n ==> !IsSettle(trace[k])
    ensures PhaseOf(trace[..n]).work.Starting? || PhaseOf(trace[..n]).work.Halting?
    decreases n
  {
    LegalPrefix(trace, n - 1);
    if i < n - 1 {
      RunningUntilSettled(trace, i, n - 1);
    }
  }

  /** Callbacks never overlap: between two callback starts one has settled. */
  lemma CallbacksNeverOverlap(trace: seq<Event>, i: nat, j: nat)
    requires Legal(trace) && i < j < |trace| && IsStart(trace[i]) && IsStart(trace[j])
    ensures exists k :: i < k < j && IsSettle(trace[k])
  {
    LegalPrefix(trace, j);
    if forall k :: i < k < j ==> !IsSettle(trace[k]) {
      RunningUntilSettled(trace, i, j);
    }
  }

  lemma {:induction false} ActiveUntilDeactivated(trace: seq<Event>, i: nat, n: nat, c: Session)
    requires Legal(trace) && i < n <= |trace| && trace[i] == ActivationSettled(c, true)
    requires forall k :: i < k < n ==> trace[k] != DeactivationSettled(c, true)
    ensures var w := PhaseOf(trace[..n]).work; w == Active(c) || w == Halting(c, true) || w == Broken
    decreases n
  {
    LegalPrefix(trace, n - 1);
    if i < n - 1 {
      ActiveUntilDeactivated(trace, i, n - 1, c);
    }
  }

  /** After a successful activation no other starts before the deactivation of its session has succeeded. */
  lemma DeactivationSeparatesActivations(trace: seq<Event>, i: nat, j: nat, c: Session)
    requires Legal(trace) && i < j < |trace| && trace[i] == ActivationSettled(c, true) && trace[j].ActivationStarted?
    ensures exists k :: i < k < j && trace[k] == DeactivationSettled(c, true)
  {
    LegalPrefix(trace, j);
    if forall k :: i < k < j ==> trace[k] != DeactivationSettled(c, true) {
      ActiveUntilDeactivated(trace, i, j, c);
    }
  }

  lemma {:induction false} BrokenForever(trace: seq<Event>, i: nat, n: nat)
    requires Legal(trace) && i < n <= |trace| && trace[i].DeactivationSettled? && !trace[i].ok
    ensures PhaseOf(trace[..n]).work == Broken
    decreases n
  {
    LegalPrefix(trace, n - 1);
    if i < n - 1 {
      BrokenForever(trace, i, n - 1);
    }
  }

  /** Fail closed: after a failed deactivation there is no lock request and no callback, ever. */
  lemma FailsClosed(trace: seq<Event>, i: nat, j: nat)
    requires Legal(trace) && i < j < |trace| && trace[i].DeactivationSettled? && !trace[i].ok
    ensures !trace[j].LockRequested? && !IsStart(trace[j]) && !IsSettle(trace[j])
  {
    LegalPrefix(trace, j);
    BrokenForever(trace, i, j);
  }

  lemma {:induction false} PhaseRemembers(trace: seq<Event>, i: nat, n: nat)
    requires Legal(trace) && i < n <= |trace|
    ensures trace[i].SessionEnded? ==> trace[i].session in PhaseOf(trace[..n]).ended
    ensures trace[i] == FatalReported ==> PhaseOf(trace[..n]).fatal
    ensures trace[i].StopRequested? ==> PhaseOf(trace[..n]).stopRequested
    decreases n
  {
    LegalPrefix(trace, n - 1);
    if i < n - 1 {
      PhaseRemembers(trace, i, n - 1);
    }
  }

  /** A session is ended at most once, and a fatal error is reported at most once. */
  lemma EndsAndReportsOnce(trace: seq<Event>, i: nat, j: nat)
    requires Legal(trace) && i < j < |trace| && (trace[i].SessionEnded? || trace[i] == FatalReported)
    ensures trace[i] != trace[j]
  {
    LegalPrefix(trace, j);
    PhaseRemembers(trace, i, j);
  }

  lemma {:induction false} StopIsRecorded(trace: seq<Event>, n: nat)
    requires Legal(trace) && n <= |trace| && PhaseOf(trace[..n]).stoppedLeading
    ensures exists k :: 0 <= k < n && trace[k] == StopRequested(true)
    decreases n
  {
    if n > 0 {
      LegalPrefix(trace, n - 1);
      if PhaseOf(trace[..n - 1]).stoppedLeading {
        StopIsRecorded(trace, n - 1);
      } else {
        assert trace[n - 1] == StopRequested(true);
      }
    }
  }

  /**
   * Unless the service is stopped while activating or leader, a session whose
   * activation succeeded is ended only after its deactivation has settled.
   */
  lemma EndedOnlyAfterDeactivation(trace: seq<Event>, i: nat, j: nat, c: Session)
    requires Legal(trace) && i < j < |trace| && trace[i] == ActivationSettled(c, true) && trace[j] == SessionEnded(c)
    requires forall k :: 0 <= k < j ==> trace[k] != StopRequested(true)
    ensures exists k :: i < k < j && trace[k].DeactivationSettled? && trace[k].session == c
  {
    LegalPrefix(trace, j);
    if PhaseOf(trace[..j]).stoppedLeading {
      StopIsRecorded(trace, j);
    }
    if forall k :: i < k < j ==> trace[k] != DeactivationSettled(c, true) && trace[k] != DeactivationSettled(c, false) {
      ActiveUntilSettled(trace, i, j, c);
    }
  }

  lemma {:induction false} ActiveUntilSettled(trace: seq<Event>, i: nat, n: nat, c: Session)
    requires Legal(trace) && i < n <= |trace| && trace[i] == ActivationSettled(c, true)
    requires forall k :: i < k < n ==>
               trace[k] != DeactivationSettled(c, true) && trace[k] != DeactivationSettled(c, false)
    ensures var w := PhaseOf(trace[..n]).work; w == Active(c) || w == Halting(c, true)
    decreases n
  {
    LegalPrefix(trace, n - 1);
    if i < n - 1 {
      ActiveUntilSettled(trace, i, n - 1, c);
    }
  }

  lemma {:induction false} LostAndBegunAreKept(trace: seq<Event>, i: nat, n: nat)
    requires Legal(trace) && i < n <= |trace|
    ensures trace[i].SessionLost? ==> trace[i].session in PhaseOf(trace[..n]).lost
    ensures trace[i].ActivationStarted? ==> trace[i].session in PhaseOf(trace[..n]).begun
    decreases n
  {
    LegalPrefix(trace, n - 1);
    if i < n - 1 {
      LostAndBegunAreKept(trace, i, n - 1);
    }
  }

  /** A session lost before its activation has failed never counts as refused again. */
  lemma {:induction false} NotRefused(trace: seq<Event>, b: nat, l: nat, n: nat, c: Session)
    requires Legal(trace) && b < n <= |trace| && l < |trace|
    requires trace[b] == ActivationStarted(c) && trace[l] == SessionLost(c)
    requires forall k :: b < k < l ==> trace[k] != ActivationSettled(c, false)
    ensures c !in PhaseOf(trace[..n]).refused
    decreases n
  {
    LegalPrefix(trace, n - 1);
    if b < n - 1 {
      NotRefused(trace, b, l, n - 1, c);
      if l < n - 1 {
        LostAndBegunAreKept(trace, l, n - 1);
      }
    }
  }

  lemma {:induction false} HaltingWasLost(trace: seq<Event>)
    requires Legal(trace) && PhaseOf(trace).work.Halting?
    ensures PhaseOf(trace).work.session in PhaseOf(trace).lost
    decreases |trace|
  {
    if trace != [] && !trace[|trace| - 1].DeactivationStarted? {
      HaltingWasLost(trace[..|trace| - 1]);
    }
  }

  lemma {:induction false} HaltedMeansSettled(trace: seq<Event>, n: nat, c: Session) returns (k: nat)
    requires Legal(trace) && n <= |trace| && c in PhaseOf(trace[..n]).halted
    ensures k < n && trace[k].DeactivationSettled? && trace[k].session == c && c in PhaseOf(trace[..k]).lost
    decreases n
  {
    LegalPrefix(trace, n - 1);
    if c in PhaseOf(trace[..n - 1]).halted {
      k := HaltedMeansSettled(trace, n - 1, c);
    } else {
      k := n - 1;
      LegalPrefix(trace, k);
      HaltingWasLost(trace[..k]);
    }
  }

  /**
   * The loss path: a lost session whose activation had begun is ended only after
   * its deactivation has settled, stop() or not, unless that activation had failed
   * before the loss was reported.
   */
  lemma LostSessionEndsAfterDeactivation(trace: seq<Event>, b: nat, l: nat, j: nat, c: Session) returns (k: nat)
    requires Legal(trace) && b < j && l < j < |trace|
    requires trace[b] == ActivationStarted(c) && trace[l] == SessionLost(c) && trace[j] == SessionEnded(c)
    requires forall k :: b < k < l ==> trace[k] != ActivationSettled(c, false)
    ensures l < k < j && trace[k].DeactivationSettled? && trace[k].session == c
  {
    LegalPrefix(trace, j);
    LostAndBegunAreKept(trace, b, j);
    LostAndBegunAreKept(trace, l, j);
    NotRefused(trace, b, l, j, c);
    k := HaltedMeansSettled(trace, j, c);
    if k <= l {
      LostOnce(trace, k, l, c);
    }
  }

  /** A session whose loss is reported at `l` was not lost before. */
  lemma {:induction false} LostOnce(trace: seq<Event>, k: nat, l: nat, c: Session)
    requires Legal(trace) && k <= l < |trace| && trace[l] == SessionLost(c)
    ensures c !in PhaseOf(trace[..k]).lost
    decreases l - k
  {
    LegalPrefix(trace, k);
    if k < l {
      LostOnce(trace, k + 1, l, c);
    }
  }

  // ------------------------------------------------------------- main results

  /** Every history of every service is legal, so all of the above holds of it. */
  lemma HistoriesAreLegal(size: nat, moves: seq<Move>, i: nat)
    requires i < size
    ensures |Run(size, moves).services| == size
    ensures Legal(Run(size, moves).services[i].trace)
  {
    ReachableInv(size, moves);
    assert MemberInv(i, Run(size, moves).services[i], Run(size, moves).database);
  }

  /** A service calls itself leader only on the session it activated, which it has not lost or ended. */
  lemma LeaderNeverStale(size: nat, moves: seq<Move>, i: nat)
    requires i < size
    ensures |Run(size, moves).services| == size
    ensures var n := Run(size, moves).services[i];
      n.state == Leader ==>
        && n.client.Some? && PhaseOf(n.trace).work == Active(n.client.value)
        && n.client.value !in PhaseOf(n.trace).lost && n.client.value !in n.closedClients
  {
    ReachableInv(size, moves);
    assert MemberInv(i, Run(size, moves).services[i], Run(size, moves).database);
  }

  /**
   * The lock is never requested on a session that holds it or has a request in
   * transit, so its depth stays at most one.
   */
  lemma LockDepthAtMostOne(size: nat, moves: seq<Move>, i: nat)
    requires i < size
    ensures Run(size, moves).database.depth <= 1
    ensures |Run(size, moves).services| == size
    ensures var w := Run(size, moves);
      w.services[i].acquisition.Ensured? ==> Quiet(w.database, w.services[i].acquisition.session)
  {
    ReachableInv(size, moves);
    assert MemberInv(i, Run(size, moves).services[i], Run(size, moves).database);
  }

  /** Session conservation: every session created is closed, current, or owned by a task that will close it. */
  lemma SessionsConserved(size: nat, moves: seq<Move>, i: nat, k: nat)
    requires i < |Run(size, moves).services| && k < Run(size, moves).services[i].created
    ensures var n := Run(size, moves).services[i];
      && (Session(i, k) in n.closedClients || Owned(n, Session(i, k)))
      && (n.acquisition.Idle? && n.leaderLosses == [] && n.stopping == NotStopping ==>
            Session(i, k) in n.closedClients || n.client == Some(Session(i, k)))
  {
    ReachableInv(size, moves);
    assert MemberInv(i, Run(size, moves).services[i], Run(size, moves).database);
  }

  /** No state is left without a task that will leave it: standby always leads back to an acquisition. */
  lemma NeverStalls(size: nat, moves: seq<Move>, i: nat)
    requires i < size
    ensures |Run(size, moves).services| == size
    ensures var n := Run(size, moves).services[i];
      !n.stopped ==>
        match n.state
        case Standby => n.acquisitionInProgress || n.retryTimer || n.standbyLosses != {}
        case Activating => n.acquisitionInProgress
        case Leader => n.client.Some?
        case Deactivating => n.leaderLosses != []
        case Failed => n.retryDisabled
        case Stopped => false
  {
    ReachableInv(size, moves);
    assert MemberInv(i, Run(size, moves).services[i], Run(size, moves).database);
  }

  lemma {:induction false} BrokenMeansFailedDeactivation(trace: seq<Event>)
    requires Legal(trace)
    ensures (exists k :: 0 <= k < |trace| && trace[k].DeactivationSettled? && !trace[k].ok)
            <==> PhaseOf(trace).work == Broken
    decreases |trace|
  {
    if trace != [] {
      var n := |trace| - 1;
      BrokenMeansFailedDeactivation(trace[..n]);
      if PhaseOf(trace[..n]).work == Broken {
        var k :| 0 <= k < n && trace[..n][k].DeactivationSettled? && !trace[..n][k].ok;
        assert trace[k].DeactivationSettled? && !trace[k].ok;
      } else if PhaseOf(trace).work == Broken {
        assert trace[n].DeactivationSettled? && !trace[n].ok;
      }
      if k :| 0 <= k < |trace| && trace[k].DeactivationSettled? && !trace[k].ok {
        if k < n {
          assert trace[..n][k] == trace[k];
        }
      }
    }
  }

  /**
   * Once the handler of a failed deactivation is past closing its session, the
   * fatal error has been reported, and the service is out for good.
   */
  lemma FailureIsReported(size: nat, moves: seq<Move>, i: nat)
    requires i < size
    ensures |Run(size, moves).services| == size
    ensures var n := Run(size, moves).services[i];
      (exists k :: 0 <= k < |n.trace| && n.trace[k].DeactivationSettled? && !n.trace[k].ok)
      && (n.leaderLosses == [] || n.leaderLosses[0].stage == ReportingFatal)
      ==> PhaseOf(n.trace).fatal && n.retryDisabled && (n.state == Failed || n.state == Stopped)
  {
    ReachableInv(size, moves);
    var n := Run(size, moves).services[i];
    assert MemberInv(i, n, Run(size, moves).database);
    BrokenMeansFailedDeactivation(n.trace);
  }
}
