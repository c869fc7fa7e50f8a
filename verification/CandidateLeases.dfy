/** What a lease protects, and how long a failed completion waits. */
module CandidateLeases {
  import opened Wrappers
  import opened CandidateStore
  import opened CandidateProtocol
  import opened CandidateInvariant
  import opened CandidateSteps
  import opened CandidateHistory
  import opened CandidateTheorems
  import opened CandidateOutcomes

  // ---------------------------------------------------------------- work leases

  /**
   * The candidate's fence is safe from other claims: its lease has not run out, or it was cancelled and no claim is
   * granted any more.
   */
  predicate Protected(st: Store, c: string, now: int) {
    && c in st.candidates
    && var k := st.candidates[c];
    && k.activeFenceToken.Some?
    && (k.status.Cancelled? || (k.status.Backtesting? && !ExpiredOrAbsent(k.activeLeaseExpiresAt, now)))
  }

  predicate KeepsFence(st: Store, r: Store, c: string) {
    c in st.candidates && c in r.candidates && r.candidates[c].activeFenceToken == st.candidates[c].activeFenceToken
  }

  lemma ClaimsKeepFence(st: Store, d: string, jobId: string, number: int, token: string, now: int, lease: int,
          error: string, c: string)
    requires Protected(st, c, now) && Filed(st, d)
    ensures var r := ClaimWorkerAttempt(st, d, jobId, number, token, now, lease);
      r.Some? ==> KeepsFence(st, r.value.0, c)
    ensures KeepsFence(st, RecoverAbandonedAttempt(st, d, now, error).0, c)
  {
    hide FirstRunning, HasAttempt, SyntheticAttempt, Abort;
  }

  lemma OutcomesKeepFence(st: Store, d: string, id: AttemptId, token: string, trades: seq<Trade>, retrying: bool,
          now: int, error: string, c: string)
    requires c in st.candidates && Filed(st, d) && st.candidates[c].activeFenceToken != Some(token)
    ensures KeepsFence(st, OrElse(PersistWorkerSuccess(st, d, id, token, trades, now), st), c)
    ensures KeepsFence(st, OrElse(FailWorkerAttempt(st, d, id, token, retrying, now, error), st), c)
  {
  }

  lemma RepairKeepsFence(st: Store, d: string, now: int, error: string, c: string)
    requires c in st.candidates && Filed(st, d) && (d != c || st.candidates[c].status.Cancelled?)
    ensures KeepsFence(st, RepairTerminalQueueFailure(st, d, error, now), c)
  {
    hide FirstRunning, HasAttempt, SyntheticAttempt, Abort;
  }

  lemma CancelKeepsFence(st: Store, d: string, now: int, c: string)
    requires Protected(st, c, now) && Filed(st, d)
    ensures KeepsFence(st, CancelCandidate(st, d, now), c)
  {
  }

  lemma ConclusionsKeepFence(st: Store, claim: CompletionClaim, e: string, retryAt: Option<int>, now: int,
          error: string, c: string)
    requires c in st.candidates && Filed(st, claim.candidate.candidateId)
    ensures KeepsFence(st, OrElse(FinalizeCompletion(st, claim, e, now), st), c)
    ensures KeepsFence(st, OrElse(FinalizeTerminalFailure(st, claim, now), st), c)
    ensures KeepsFence(st, OrElse(FailCompletion(st, claim, retryAt, now, error), st), c)
  {
  }

  /** The steps that may take a protected fence away: its own outcome, a repair of a running candidate, a removal. */
  predicate MayTakeFence(s: System, a: Action, c: string) {
    || ((a.Succeed? || a.Fail?) && ActiveFence(s.store, c, a.token))
    || (a.Repair? && a.candidateId == c && c in s.store.candidates && s.store.candidates[c].status.Backtesting?)
    || a.RemoveScope?
  }

  lemma WorkersKeepFence(s: System, a: Action, c: string)
    requires (forall d :: Filed(s.store, d)) && Protected(s.store, c, s.now) && !MayTakeFence(s, a, c)
    requires a.ClaimWork? || a.Succeed? || a.Fail? || a.Recover? || a.Repair?
    ensures KeepsFence(s.store, Act(s, a).store, c)
  {
    hide ClaimWorkerAttempt, PersistWorkerSuccess, FailWorkerAttempt, RecoverAbandonedAttempt,
      RepairTerminalQueueFailure, OrElse, Filed;
    match a
    case ClaimWork(jobId, number, token) =>
      if jobId in s.store.dispatches {
        var job := s.store.dispatches[jobId].job;
        ClaimsKeepFence(s.store, job.candidateId, job.jobId, number, token, s.now, s.now + LEASE_MS, "", c);
      }
    case Succeed(token, trades) =>
      if token in s.claims {
        var w := s.claims[token];
        OutcomesKeepFence(s.store, w.candidate.candidateId, w.attempt.attemptId, token, trades, false, s.now, "", c);
      }
    case Fail(token, error) =>
      if token in s.claims {
        var w := s.claims[token];
        OutcomesKeepFence(s.store, w.candidate.candidateId, w.attempt.attemptId, token, [],
          w.attempt.attemptNumber < w.candidate.maxAttempts, s.now, error, c);
      }
    case Recover(d, error) => ClaimsKeepFence(s.store, d, "", 0, "", s.now, 0, error, c);
    case Repair(d, error) => RepairKeepsFence(s.store, d, s.now, error, c);
  }

  lemma ClaimingKeepsFence(st: Store, d: string, token: string, now: int, lease: int, c: string)
    requires c in st.candidates && Filed(st, d)
    ensures var r := ClaimCompletion(st, d, token, now, lease); r.Some? ==> KeepsFence(st, r.value.0, c)
  {
  }

  lemma PreparationKeepsFence(s: System, a: Action, c: string)
    requires (forall d :: Filed(s.store, d)) && c in s.store.candidates
      && (a.ClaimResult? || a.LoadAttempt? || a.LoadTrades? || a.Stage?)
    ensures KeepsFence(s.store, Act(s, a).store, c)
  {
    hide ClaimCompletion, LatestDone, ListTrades, FindExperiment, Filed;
    if a.ClaimResult? { ClaimingKeepsFence(s.store, a.candidateId, a.token, s.now, s.now + LEASE_MS, c); }
  }

  lemma ConclusionKeepsFence(s: System, a: Action, c: string)
    requires (forall d :: Filed(s.store, d)) && c in s.store.candidates && Concludes(a)
    ensures KeepsFence(s.store, Act(s, a).store, c)
  {
    hide FinalizeCompletion, FinalizeTerminalFailure, FailCompletion, OrElse, Filed;
    if a.token in s.completions {
      var job := s.completions[a.token];
      var e := if job.phase.Staged? then job.phase.experiment.id else "";
      var retryAt, error := if a.GiveUp? then a.retryAt else None, if a.GiveUp? then a.error else "";
      ConclusionsKeepFence(s.store, job.claim, e, retryAt, s.now, error, c);
    }
  }

  lemma UsersKeepFence(s: System, a: Action, c: string)
    requires (forall d :: Filed(s.store, d)) && Protected(s.store, c, s.now) && c in s.used
    requires a.Submit? || a.Cancel? || a.CancelDispatch? || a.DispatchSent? || a.DispatchLost? || a.Rescore?
    ensures KeepsFence(s.store, Act(s, a).store, c)
  {
    hide CancelCandidate, Filed;
    if a.Cancel? { CancelKeepsFence(s.store, a.candidateId, s.now, c); }
  }

  /**
   * A lease that has not run out, or a cancellation, shields the worker: nobody else takes its fence away except a
   * repair or a removal.
   */
  lemma LeaseProtectsFence(s: System, a: Action, c: string, t: string)
    requires IsReachable(s) && ActiveFence(s.store, c, t) && Protected(s.store, c, s.now) && !MayTakeFence(s, a, c)
    ensures ActiveFence(Act(s, a).store, c, t)
  {
    ReachableInv(s);
    RecordsHold(s);
    RecordHolds(s, c);
    assert forall d :: Filed(s.store, d);
    hide Inv, Act, Protected, MayTakeFence;
    if a.ClaimWork? || a.Succeed? || a.Fail? || a.Recover? || a.Repair? {
      WorkersKeepFence(s, a, c);
    } else if Concludes(a) {
      ConclusionKeepsFence(s, a, c);
    } else if a.ClaimResult? || a.LoadAttempt? || a.LoadTrades? || a.Stage? {
      PreparationKeepsFence(s, a, c);
    } else {
      RemovalMayTake(s, a, c);
      UsersKeepFence(s, a, c);
    }
  }

  lemma RemovalMayTake(s: System, a: Action, c: string)
    requires !MayTakeFence(s, a, c)
    ensures !a.RemoveScope?
  {
  }

  // ---------------------------------------------------------------- completion leases

  /** The candidate's completion claim, lease and generation are the same in both stores. */
  predicate KeepsClaim(st: Store, r: Store, c: string) {
    && c in st.candidates && c in r.candidates
    && r.candidates[c].activeCompletionClaimToken == st.candidates[c].activeCompletionClaimToken
    && r.candidates[c].activeCompletionLeaseExpiresAt == st.candidates[c].activeCompletionLeaseExpiresAt
    && r.candidates[c].completionGeneration == st.candidates[c].completionGeneration
  }

  lemma WorkersKeepClaim(st: Store, d: string, id: AttemptId, jobId: string, number: int, token: string,
          trades: seq<Trade>, retrying: bool, now: int, lease: int, error: string, c: string)
    requires c in st.candidates && Filed(st, d)
    ensures var r := ClaimWorkerAttempt(st, d, jobId, number, token, now, lease);
      r.Some? ==> KeepsClaim(st, r.value.0, c)
    ensures KeepsClaim(st, OrElse(PersistWorkerSuccess(st, d, id, token, trades, now), st), c)
    ensures KeepsClaim(st, OrElse(FailWorkerAttempt(st, d, id, token, retrying, now, error), st), c)
  {
  }

  lemma ReconcilersKeepClaim(st: Store, d: string, now: int, error: string, c: string)
    requires c in st.candidates && Filed(st, d)
    ensures KeepsClaim(st, RecoverAbandonedAttempt(st, d, now, error).0, c)
    ensures KeepsClaim(st, RepairTerminalQueueFailure(st, d, error, now), c)
  {
    hide FirstRunning, HasAttempt, SyntheticAttempt, Abort;
  }

  lemma ClaimingKeepsClaim(st: Store, d: string, token: string, now: int, lease: int, c: string)
    requires c in st.candidates && Filed(st, d)
      && !ExpiredOrAbsent(st.candidates[c].activeCompletionLeaseExpiresAt, now)
    ensures var r := ClaimCompletion(st, d, token, now, lease); r.Some? ==> KeepsClaim(st, r.value.0, c)
  {
  }

  lemma ConclusionsKeepClaim(st: Store, claim: CompletionClaim, e: string, retryAt: Option<int>, now: int,
          error: string, c: string)
    requires c in st.candidates && Filed(st, claim.candidate.candidateId)
    requires claim.candidate.candidateId == c ==> !HoldsCompletion(st, claim, now)
    ensures KeepsClaim(st, OrElse(FinalizeCompletion(st, claim, e, now), st), c)
    ensures KeepsClaim(st, OrElse(FinalizeTerminalFailure(st, claim, now), st), c)
    ensures KeepsClaim(st, OrElse(FailCompletion(st, claim, retryAt, now, error), st), c)
  {
  }

  lemma WorkerStepsKeepClaim(s: System, a: Action, c: string)
    requires (forall d :: Filed(s.store, d)) && c in s.store.candidates
      && (a.ClaimWork? || a.Succeed? || a.Fail? || a.Recover? || a.Repair?)
    ensures KeepsClaim(s.store, Act(s, a).store, c)
  {
    hide ClaimWorkerAttempt, PersistWorkerSuccess, FailWorkerAttempt, RecoverAbandonedAttempt,
      RepairTerminalQueueFailure, OrElse, Filed;
    match a
    case ClaimWork(jobId, number, token) =>
      if jobId in s.store.dispatches {
        var job := s.store.dispatches[jobId].job;
        WorkersKeepClaim(s.store, job.candidateId, Recovery(""), job.jobId, number, token, [], false, s.now,
          s.now + LEASE_MS, "", c);
      }
    case Succeed(token, trades) =>
      if token in s.claims {
        var w := s.claims[token];
        WorkersKeepClaim(s.store, w.candidate.candidateId, w.attempt.attemptId, "", 0, token, trades, false, s.now, 0,
          "", c);
      }
    case Fail(token, error) =>
      if token in s.claims {
        var w := s.claims[token];
        WorkersKeepClaim(s.store, w.candidate.candidateId, w.attempt.attemptId, "", 0, token, [],
          w.attempt.attemptNumber < w.candidate.maxAttempts, s.now, 0, error, c);
      }
    case Recover(d, error) => ReconcilersKeepClaim(s.store, d, s.now, error, c);
    case Repair(d, error) => ReconcilersKeepClaim(s.store, d, s.now, error, c);
  }

  lemma ConclusionStepsKeepClaim(s: System, a: Action, c: string)
    requires (forall d :: Filed(s.store, d)) && c in s.store.candidates && Concludes(a)
    requires a.token in s.completions && s.completions[a.token].claim.candidate.candidateId == c ==> !Held(s, a.token)
    ensures KeepsClaim(s.store, Act(s, a).store, c)
  {
    hide FinalizeCompletion, FinalizeTerminalFailure, FailCompletion, OrElse, Filed, HoldsCompletion;
    if a.token in s.completions {
      var job := s.completions[a.token];
      var e := if job.phase.Staged? then job.phase.experiment.id else "";
      var retryAt, error := if a.GiveUp? then a.retryAt else None, if a.GiveUp? then a.error else "";
      ConclusionsKeepClaim(s.store, job.claim, e, retryAt, s.now, error, c);
    }
  }

  lemma PreparationStepsKeepClaim(s: System, a: Action, c: string)
    requires (forall d :: Filed(s.store, d)) && c in s.store.candidates
      && !ExpiredOrAbsent(s.store.candidates[c].activeCompletionLeaseExpiresAt, s.now)
    requires a.ClaimResult? || a.LoadAttempt? || a.LoadTrades? || a.Stage?
    ensures KeepsClaim(s.store, Act(s, a).store, c)
  {
    hide ClaimCompletion, LatestDone, ListTrades, FindExperiment, Filed;
    if a.ClaimResult? { ClaimingKeepsClaim(s.store, a.candidateId, a.token, s.now, s.now + LEASE_MS, c); }
  }

  lemma CancelKeepsClaims(st: Store, d: string, now: int, c: string)
    requires c in st.candidates && Filed(st, d)
    ensures KeepsClaim(st, CancelCandidate(st, d, now), c)
  {
  }

  lemma UserStepsKeepClaim(s: System, a: Action, c: string)
    requires (forall d :: Filed(s.store, d)) && c in s.store.candidates && c in s.used
    requires a.Submit? || a.Cancel? || a.CancelDispatch? || a.DispatchSent? || a.DispatchLost? || a.Rescore?
    ensures KeepsClaim(s.store, Act(s, a).store, c)
  {
    hide CancelCandidate, Filed;
    if a.Cancel? { CancelKeepsClaims(s.store, a.candidateId, s.now, c); }
  }

  /** Only its own conclusion or the removal of its candidate ends a completion claim before its lease runs out. */
  lemma LeaseProtectsClaim(s: System, a: Action, t: string)
    requires IsReachable(s) && Held(s, t) && !(Concludes(a) && a.token == t) && !a.RemoveScope?
    ensures Held(Act(s, a), t)
  {
    var c := s.completions[t].claim.candidate.candidateId;
    ReachableInv(s);
    RecordsHold(s);
    RecordHolds(s, c);
    assert forall d :: Filed(s.store, d);
    ActRemembers(s, a);
    ActKeepsTime(s, a);
    hide Inv, Act, Retains;
    if a.ClaimWork? || a.Succeed? || a.Fail? || a.Recover? || a.Repair? {
      WorkerStepsKeepClaim(s, a, c);
    } else if Concludes(a) {
      if a.token in s.completions && s.completions[a.token].claim.candidate.candidateId == c && Held(s, a.token) {
        OneClaimHolds(s, t, a.token);
      }
      ConclusionStepsKeepClaim(s, a, c);
    } else if a.ClaimResult? || a.LoadAttempt? || a.LoadTrades? || a.Stage? {
      PreparationStepsKeepClaim(s, a, c);
    } else {
      UserStepsKeepClaim(s, a, c);
    }
  }

  // ---------------------------------------------------------------- waiting for a retry

  /** A result whose processing failed waits until `due`; nobody holds it meanwhile. */
  predicate Awaiting(k: Candidate, due: int, generation: nat) {
    k.completionNextRetryAt == Some(due) && k.completionGeneration == generation > 0
      && k.activeCompletionClaimToken.None?
  }

  predicate StillAwaits(r: Store, c: string, due: int, generation: nat) {
    c in r.candidates && Awaiting(r.candidates[c], due, generation)
  }

  lemma WorkersAwait(st: Store, d: string, id: AttemptId, jobId: string, number: int, token: string,
          trades: seq<Trade>, retrying: bool, now: int, lease: int, error: string, c: string, due: int, generation: nat)
    requires StillAwaits(st, c, due, generation) && RecordOk(c, st.candidates[c]) && Filed(st, d)
    ensures var r := ClaimWorkerAttempt(st, d, jobId, number, token, now, lease);
      r.Some? ==> StillAwaits(r.value.0, c, due, generation)
    ensures StillAwaits(OrElse(PersistWorkerSuccess(st, d, id, token, trades, now), st), c, due, generation)
    ensures StillAwaits(OrElse(FailWorkerAttempt(st, d, id, token, retrying, now, error), st), c, due, generation)
  {
  }

  lemma RecoverAwaits(st: Store, d: string, now: int, error: string, c: string, due: int, generation: nat)
    requires StillAwaits(st, c, due, generation) && Filed(st, d)
    ensures StillAwaits(RecoverAbandonedAttempt(st, d, now, error).0, c, due, generation)
  {
    hide FirstRunning, HasAttempt, SyntheticAttempt, Abort;
  }

  lemma RepairAwaits(st: Store, d: string, now: int, error: string, c: string, due: int, generation: nat)
    requires StillAwaits(st, c, due, generation) && Filed(st, d)
    ensures StillAwaits(RepairTerminalQueueFailure(st, d, error, now), c, due, generation)
  {
    hide FirstRunning, HasAttempt, SyntheticAttempt, Abort;
  }

  lemma CancelAwaits(st: Store, d: string, now: int, c: string, due: int, generation: nat)
    requires StillAwaits(st, c, due, generation) && Filed(st, d)
    ensures StillAwaits(CancelCandidate(st, d, now), c, due, generation)
  {
  }

  lemma CompletionsAwait(st: Store, d: string, claim: CompletionClaim, token: string, e: string, retryAt: Option<int>,
          now: int, lease: int, error: string, c: string, due: int, generation: nat)
    requires StillAwaits(st, c, due, generation) && now < due && Filed(st, d) && Filed(st, claim.candidate.candidateId)
    ensures var r := ClaimCompletion(st, d, token, now, lease); r.Some? ==> StillAwaits(r.value.0, c, due, generation)
    ensures StillAwaits(OrElse(FinalizeCompletion(st, claim, e, now), st), c, due, generation)
    ensures StillAwaits(OrElse(FinalizeTerminalFailure(st, claim, now), st), c, due, generation)
    ensures StillAwaits(OrElse(FailCompletion(st, claim, retryAt, now, error), st), c, due, generation)
  {
  }

  lemma WorkerStepsAwait(s: System, a: Action, c: string, due: int, generation: nat)
    requires (forall d :: Filed(s.store, d)) && StillAwaits(s.store, c, due, generation)
      && RecordOk(c, s.store.candidates[c])
    requires a.ClaimWork? || a.Succeed? || a.Fail? || a.Recover? || a.Repair?
    ensures StillAwaits(Act(s, a).store, c, due, generation)
  {
    hide ClaimWorkerAttempt, PersistWorkerSuccess, FailWorkerAttempt, RecoverAbandonedAttempt,
      RepairTerminalQueueFailure, OrElse, Filed, StillAwaits, RecordOk;
    match a
    case ClaimWork(jobId, number, token) =>
      if jobId in s.store.dispatches {
        var job := s.store.dispatches[jobId].job;
        WorkersAwait(s.store, job.candidateId, Recovery(""), job.jobId, number, token, [], false, s.now,
          s.now + LEASE_MS, "", c, due, generation);
      }
    case Succeed(token, trades) =>
      if token in s.claims {
        var w := s.claims[token];
        WorkersAwait(s.store, w.candidate.candidateId, w.attempt.attemptId, "", 0, token, trades, false, s.now, 0, "",
          c, due, generation);
      }
    case Fail(token, error) =>
      if token in s.claims {
        var w := s.claims[token];
        WorkersAwait(s.store, w.candidate.candidateId, w.attempt.attemptId, "", 0, token, [],
          w.attempt.attemptNumber < w.candidate.maxAttempts, s.now, 0, error, c, due, generation);
      }
    case Recover(d, error) => RecoverAwaits(s.store, d, s.now, error, c, due, generation);
    case Repair(d, error) => RepairAwaits(s.store, d, s.now, error, c, due, generation);
  }

  lemma CompletionStepsAwait(s: System, a: Action, c: string, due: int, generation: nat)
    requires (forall d :: Filed(s.store, d)) && StillAwaits(s.store, c, due, generation) && s.now < due
    requires a.ClaimResult? || CompletionStep(a)
    ensures StillAwaits(Act(s, a).store, c, due, generation)
  {
    hide ClaimCompletion, LatestDone, ListTrades, FindExperiment, FinalizeCompletion, FinalizeTerminalFailure,
      FailCompletion, OrElse, Filed, Awaiting;
    if a.ClaimResult? {
      CompletionsAwait(s.store, a.candidateId, CompletionClaim(NewCandidate(a.candidateId, "", 0, 0), ""), a.token, "",
        None, s.now, s.now + LEASE_MS, "", c, due, generation);
    } else if a.token in s.completions && Concludes(a) {
      var job := s.completions[a.token];
      var e := if job.phase.Staged? then job.phase.experiment.id else "";
      var retryAt, error := if a.GiveUp? then a.retryAt else None, if a.GiveUp? then a.error else "";
      CompletionsAwait(s.store, c, job.claim, "", e, retryAt, s.now, 0, error, c, due, generation);
    }
  }

  lemma UserStepsAwait(s: System, a: Action, c: string, due: int, generation: nat)
    requires (forall d :: Filed(s.store, d)) && StillAwaits(s.store, c, due, generation) && c in s.used
    requires a.Submit? || a.Cancel? || a.CancelDispatch? || a.DispatchSent? || a.DispatchLost? || a.RemoveScope?
      || a.Rescore?
    ensures c in Act(s, a).store.candidates ==> StillAwaits(Act(s, a).store, c, due, generation)
  {
    hide CancelCandidate, Filed, Awaiting;
    if a.Cancel? { CancelAwaits(s.store, a.candidateId, s.now, c, due, generation); }
  }

  /** Either the retry time has come, or the candidate still waits for it, or it is gone. */
  predicate Patient(s: System, c: string, due: int, generation: nat) {
    c in s.used && (s.now >= due || (c in s.store.candidates ==> Awaiting(s.store.candidates[c], due, generation)))
  }

  lemma PatientStep(s: System, a: Action, c: string, due: int, generation: nat)
    requires Inv(s) && Patient(s, c, due, generation)
    ensures Patient(Act(s, a), c, due, generation)
  {
    ActRemembers(s, a);
    ActKeepsTime(s, a);
    if s.now < due && c in s.store.candidates {
      RecordsHold(s);
      RecordHolds(s, c);
      assert forall d :: Filed(s.store, d);
      hide Inv, Act, Retains, Filed, Awaiting, RecordOk;
      if a.ClaimWork? || a.Succeed? || a.Fail? || a.Recover? || a.Repair? {
        WorkerStepsAwait(s, a, c, due, generation);
      } else if a.ClaimResult? || CompletionStep(a) {
        CompletionStepsAwait(s, a, c, due, generation);
      } else {
        UserStepsAwait(s, a, c, due, generation);
      }
    } else if s.now < due && c in Act(s, a).store.candidates {
      hide Inv, Act, Retains;
      ActAppears(s, a, c);
    }
  }

  lemma {:induction false} PatientRun(s: System, events: seq<Event>, c: string, due: int, generation: nat)
    requires Inv(s) && Patient(s, c, due, generation)
    ensures Patient(RunFrom(s, events), c, due, generation)
    decreases |events|
  {
    hide Inv, Act, Awaiting;
    if events != [] {
      var m, e := RunFrom(s, events[..|events| - 1]), events[|events| - 1];
      PatientRun(s, events[..|events| - 1], c, due, generation);
      LastStep(s, events);
      if e.at >= m.now { PatientStep(m.(now := e.at), e.action, c, due, generation); }
    }
  }

  /** After a completion failure with attempts left, no run claims the result again before the retry time. */
  lemma RetryNotBeforeDue(s: System, t: string, due: int, error: string, events: seq<Event>)
    requires IsReachable(s) && Held(s, t)
    requires var c := s.completions[t].claim.candidate.candidateId;
      s.store.candidates[c].completionAttemptCount < COMPLETION_MAX_ATTEMPTS
    ensures var c, m := s.completions[t].claim.candidate.candidateId, Act(s, GiveUp(t, Some(due), error));
      var r := RunFrom(m, events);
      var before := s.store.candidates[c].completionGeneration;
      c in r.store.candidates && r.store.candidates[c].completionGeneration > before ==> r.now >= due
  {
    var c, m := s.completions[t].claim.candidate.candidateId, Act(s, GiveUp(t, Some(due), error));
    ReachableInv(s);
    RecordHolds(s, c);
    ActKeeps(s, GiveUp(t, Some(due), error));
    GiveUpAwaits(s, t, due, error);
    hide Inv, RunFrom, Act;
    PatientRun(m, events, c, due, s.store.candidates[c].completionGeneration);
  }

  lemma GiveUpAwaits(s: System, t: string, due: int, error: string)
    requires Held(s, t)
    requires var c := s.completions[t].claim.candidate.candidateId;
      && RecordOk(c, s.store.candidates[c]) && s.store.candidates[c].completionAttemptCount < COMPLETION_MAX_ATTEMPTS
        && c in s.used
    ensures var c := s.completions[t].claim.candidate.candidateId;
      Patient(Act(s, GiveUp(t, Some(due), error)), c, due, s.store.candidates[c].completionGeneration)
  {
  }
}
