/** What the generation counters count, what a cancelled dispatch keeps, and two runs that end badly. */
module CandidateCounters {
  import opened Wrappers
  import opened CandidateStore
  import opened CandidateProtocol
  import opened CandidateInvariant
  import opened CandidateSteps
  import opened CandidateHistory
  import opened CandidateTheorems
  import opened CandidateOutcomes

  // ---------------------------------------------------------------- counting claims

  /** The tokens of all work claims ever granted on a candidate. */
  function WorkTokens(claims: map<string, WorkerClaim>, c: string): set<string> {
    set t | t in claims && claims[t].candidate.candidateId == c
  }

  /** The tokens of all completion claims ever granted on a candidate. */
  function ResultTokens(completions: map<string, CompletionJob>, c: string): set<string> {
    set t | t in completions && completions[t].claim.candidate.candidateId == c
  }

  ghost predicate Counted(s: System) {
    forall c | c in s.store.candidates ::
      && s.store.candidates[c].executionGeneration == |WorkTokens(s.claims, c)|
      && s.store.candidates[c].completionGeneration == |ResultTokens(s.completions, c)|
  }

  lemma AddWorkToken(claims: map<string, WorkerClaim>, t: string, w: WorkerClaim, c: string)
    requires t !in claims
    ensures |WorkTokens(claims[t := w], c)| == |WorkTokens(claims, c)| + if w.candidate.candidateId == c then 1 else 0
  {
    if w.candidate.candidateId == c {
      assert WorkTokens(claims[t := w], c) == WorkTokens(claims, c) + {t};
    } else {
      assert WorkTokens(claims[t := w], c) == WorkTokens(claims, c);
    }
  }

  lemma AddResultToken(completions: map<string, CompletionJob>, t: string, job: CompletionJob, c: string)
    requires t !in completions
    ensures |ResultTokens(completions[t := job], c)| == |ResultTokens(completions, c)|
      + if job.claim.candidate.candidateId == c then 1 else 0
  {
    if job.claim.candidate.candidateId == c {
      assert ResultTokens(completions[t := job], c) == ResultTokens(completions, c) + {t};
    } else {
      assert ResultTokens(completions[t := job], c) == ResultTokens(completions, c);
    }
  }

  lemma WorkTokensStep(s: System, a: Action, c: string)
    requires Inv(s)
    ensures |WorkTokens(Act(s, a).claims, c)| == |WorkTokens(s.claims, c)| + if ClaimsWork(s, a, c) then 1 else 0
  {
    hide Inv, Act, WorkTokens, ClaimWorkerAttempt;
    if a.ClaimWork? {
      var claims := Act(s, a).claims;
      if a.token !in s.used { UnusedUnclaimed(s, a.token); }
      GrantedWork(s, a, c);
      if claims != s.claims { AddWorkToken(s.claims, a.token, claims[a.token], c); }
    } else {
      OtherActsKeepClaims(s, a);
    }
  }

  lemma WorkClaimNames(st: Store, d: string, jobId: string, number: int, token: string, now: int, lease: int)
    requires ClaimWorkerAttempt(st, d, jobId, number, token, now, lease).Some?
      && (d in st.candidates ==> RecordOk(d, st.candidates[d]))
    ensures ClaimWorkerAttempt(st, d, jobId, number, token, now, lease).value.1.candidate.candidateId == d
  {
  }

  /** A work claim either hands out nothing or registers one claim, on the candidate it was granted for. */
  lemma GrantedWork(s: System, a: Action, c: string)
    requires Inv(s) && a.ClaimWork? && (a.token !in s.used ==> a.token !in s.claims)
    ensures var claims := Act(s, a).claims;
      || (claims == s.claims && !ClaimsWork(s, a, c))
      || (a.token !in s.claims && a.token in claims && claims == s.claims[a.token := claims[a.token]]
          && (ClaimsWork(s, a, c) <==> claims[a.token].candidate.candidateId == c))
  {
    RecordsHold(s);
    hide Inv, ClaimWorkerAttempt, RecordOk;
    if a.jobId in s.store.dispatches {
      var job := s.store.dispatches[a.jobId].job;
      if ClaimWorkerAttempt(s.store, job.candidateId, job.jobId, a.number, a.token, s.now, s.now + LEASE_MS).Some? {
        WorkClaimNames(s.store, job.candidateId, job.jobId, a.number, a.token, s.now, s.now + LEASE_MS);
      }
    }
  }

  lemma OtherActsKeepClaims(s: System, a: Action)
    requires !a.ClaimWork?
    ensures Act(s, a).claims == s.claims
  {
    hide PersistWorkerSuccess, FailWorkerAttempt, RecoverAbandonedAttempt, RepairTerminalQueueFailure, CancelCandidate,
      MarkDispatchCancelled,
      MarkDispatched, MarkDispatchFailed, SubmitCandidate, DeleteScope, ClaimCompletion, LatestDone, ListTrades,
        StageExperiment, FinalizeCompletion,
      FinalizeTerminalFailure, FailCompletion, OrElse;
  }

  lemma ResultTokensStep(s: System, a: Action, c: string)
    requires Inv(s)
    ensures |ResultTokens(Act(s, a).completions, c)| == |ResultTokens(s.completions, c)| + if ClaimsResult(s, a, c)
      then 1 else 0
  {
    hide Inv, Act, ClaimCompletion;
    if a.ClaimResult? {
      hide ResultTokens;
      var completions := Act(s, a).completions;
      if a.token !in s.used { UnusedUnclaimed(s, a.token); }
      RecordsHold(s);
      GrantedResult(s, a, c);
      if completions != s.completions { AddResultToken(s.completions, a.token, completions[a.token], c); }
    } else {
      ActRemembers(s, a);
      OtherActsClaimNone(s, a);
      hide Retains;
      assert ResultTokens(Act(s, a).completions, c) == ResultTokens(s.completions, c);
    }
  }

  lemma GrantedResult(s: System, a: Action, c: string)
    requires RecordsOk(s) && a.ClaimResult? && (a.token !in s.used ==> a.token !in s.completions)
    ensures var completions := Act(s, a).completions;
      || (completions == s.completions && !ClaimsResult(s, a, c))
      || (a.token !in s.completions && a.token in completions
        && completions == s.completions[a.token := completions[a.token]]
          && (ClaimsResult(s, a, c) <==> completions[a.token].claim.candidate.candidateId == c))
  {
    hide SetCandidate;
    if a.candidateId in s.store.candidates { assert RecordOk(a.candidateId, s.store.candidates[a.candidateId]); }
  }

  lemma CountedStep(s: System, a: Action)
    requires Inv(s) && Counted(s)
    ensures Counted(Act(s, a))
  {
    hide Inv, Act, ClaimsWork, ClaimsResult, WorkTokens, ResultTokens, Moves;
    forall c | c in Act(s, a).store.candidates
      ensures Act(s, a).store.candidates[c].executionGeneration == |WorkTokens(Act(s, a).claims, c)|
      ensures Act(s, a).store.candidates[c].completionGeneration == |ResultTokens(Act(s, a).completions, c)|
    {
      WorkTokensStep(s, a, c);
      ResultTokensStep(s, a, c);
      if c in s.store.candidates {
        ActMoves(s, a, c);
      } else {
        ActAppears(s, a, c);
        NoTokensYet(s, c);
        NotClaimedBySubmit(s, a, c);
      }
    }
  }

  lemma NotClaimedBySubmit(s: System, a: Action, c: string)
    requires a.Submit?
    ensures !ClaimsWork(s, a, c) && !ClaimsResult(s, a, c)
  {
  }

  lemma NoTokensYet(s: System, c: string)
    requires Inv(s) && c !in s.used
    ensures WorkTokens(s.claims, c) == {} && ResultTokens(s.completions, c) == {}
  {
    FreshUntouched(s, c);
    hide CandidatesOk, AttemptsOk, ExperimentsOk, CompletionsOk;
  }

  lemma {:induction false} RunCounts(s: System, events: seq<Event>)
    requires Inv(s) && Counted(s)
    ensures Counted(RunFrom(s, events))
    decreases |events|
  {
    hide Inv, Act, WorkTokens, ResultTokens;
    if events != [] {
      var m, e := RunFrom(s, events[..|events| - 1]), events[|events| - 1];
      RunCounts(s, events[..|events| - 1]);
      LastStep(s, events);
      if e.at >= m.now { CountedStep(m.(now := e.at), e.action); }
    }
  }

  /** The generations count the claims granted, and completion is claimed at most five times. */
  lemma GenerationsCountClaims(s: System, c: string)
    requires IsReachable(s) && c in s.store.candidates
    ensures var k := s.store.candidates[c];
      && k.executionGeneration == |WorkTokens(s.claims, c)|
      && k.completionAttemptCount == k.completionGeneration == |ResultTokens(s.completions, c)|
      && k.completionGeneration <= k.completionMaxAttempts == COMPLETION_MAX_ATTEMPTS
  {
    ReachableInv(s);
    RecordHolds(s, c);
    hide Inv;
    var events :| s == RunFrom(INITIAL, events);
    InitialInv();
    RunCounts(INITIAL, events);
  }

  // ---------------------------------------------------------------- cancelled dispatches

  /** Every dispatch belongs to a submission, so a later submission cannot overwrite it. */
  ghost predicate DispatchesIssued(s: System) {
    forall d | d in s.store.dispatches :: d in s.used
  }

  predicate DispatchStopped(st: Store, d: string) {
    d in st.dispatches && st.dispatches[d].state.DispatchCancelled?
  }

  lemma DispatchStep(s: System, a: Action, d: string)
    requires Inv(s) && DispatchesIssued(s)
    ensures DispatchesIssued(Act(s, a))
    ensures DispatchStopped(s.store, d) ==> DispatchStopped(Act(s, a).store, d)
  {
    hide Inv, Act, DispatchStopped;
    RecordsHold(s);
    if a.ClaimWork? || a.Succeed? || a.Fail? || a.Recover? || a.Repair? {
      WorkerDispatches(s, a, d);
    } else {
      OtherDispatches(s, a, d);
    }
  }

  lemma WorkerDispatches(s: System, a: Action, d: string)
    requires RecordsOk(s) && DispatchesIssued(s) && (a.ClaimWork? || a.Succeed? || a.Fail? || a.Recover? || a.Repair?)
    ensures DispatchesIssued(Act(s, a))
    ensures DispatchStopped(s.store, d) ==> DispatchStopped(Act(s, a).store, d)
  {
    hide FirstRunning, HasAttempt, Release, Abort, SyntheticAttempt, RecordOk;
  }

  lemma OtherDispatches(s: System, a: Action, d: string)
    requires DispatchesIssued(s) && !(a.ClaimWork? || a.Succeed? || a.Fail? || a.Recover? || a.Repair?)
    ensures DispatchesIssued(Act(s, a))
    ensures DispatchStopped(s.store, d) ==> DispatchStopped(Act(s, a).store, d)
  {
    hide LatestDone, ListTrades, FindExperiment, Unclaim, CancelledCopy, NewCandidate;
  }

  lemma {:induction false} DispatchesRun(s: System, events: seq<Event>, d: string)
    requires Inv(s) && DispatchesIssued(s)
    ensures DispatchesIssued(RunFrom(s, events))
    ensures DispatchStopped(s.store, d) ==> DispatchStopped(RunFrom(s, events).store, d)
    decreases |events|
  {
    hide Inv, Act;
    if events != [] {
      var m, e := RunFrom(s, events[..|events| - 1]), events[|events| - 1];
      DispatchesRun(s, events[..|events| - 1], d);
      LastStep(s, events);
      if e.at >= m.now { DispatchStep(m.(now := e.at), e.action, d); }
    }
  }

  /** A cancelled dispatch is never sent, failed or reopened again, not even by the recovery of its candidate. */
  lemma CancelledDispatchForever(s: System, d: string, events: seq<Event>)
    requires IsReachable(s) && DispatchStopped(s.store, d)
    ensures DispatchStopped(RunFrom(s, events).store, d)
  {
    ReachableInv(s);
    hide Inv;
    var past :| s == RunFrom(INITIAL, past);
    InitialInv();
    DispatchesRun(INITIAL, past, d);
    DispatchesRun(s, events, d);
  }

  // ---------------------------------------------------------------- runs that end badly

  /**
   * Cancelling while a completion claim holds does not stick: the claim's failure report overwrites the cancellation.
   */
  lemma CancelDuringCompletionIsUndone(s: System, c: string, t: string, retryAt: Option<int>, error: string)
    requires IsReachable(s) && Held(s, t) && s.completions[t].claim.candidate.candidateId == c
      && !s.store.candidates[c].status.Cancelled?
    ensures var m := Act(s, Cancel(c)); var r := Act(m, GiveUp(t, retryAt, error));
      && m.store.candidates[c].status.Cancelled?
      && c in r.store.candidates
      && r.store.candidates[c].status
        == (if s.store.candidates[c].completionAttemptCount < COMPLETION_MAX_ATTEMPTS then ProcessingResult
        else FailedStatus)
  {
    ReachableInv(s);
    RecordHolds(s, c);
    hide Inv;
    CancelKeepsClaim(s, c, t);
    GiveUpOverwrites(Act(s, Cancel(c)), c, t, retryAt, error);
  }

  lemma CancelKeepsClaim(s: System, c: string, t: string)
    requires Held(s, t) && s.completions[t].claim.candidate.candidateId == c && RecordOk(c, s.store.candidates[c])
      && !s.store.candidates[c].status.Cancelled?
    ensures var m := Act(s, Cancel(c));
      && Held(m, t) && m.completions == s.completions && m.store.candidates[c].status.Cancelled?
      && m.store.candidates[c].completionAttemptCount == s.store.candidates[c].completionAttemptCount
      && m.store.candidates[c].candidateId == c
        && m.store.candidates[c].completionMaxAttempts == COMPLETION_MAX_ATTEMPTS
  {
  }

  lemma GiveUpOverwrites(s: System, c: string, t: string, retryAt: Option<int>, error: string)
    requires Held(s, t) && s.completions[t].claim.candidate.candidateId == c
    requires s.store.candidates[c].candidateId == c
      && s.store.candidates[c].completionMaxAttempts == COMPLETION_MAX_ATTEMPTS
    ensures var r := Act(s, GiveUp(t, retryAt, error));
      && c in r.store.candidates
      && r.store.candidates[c].status
        == (if s.store.candidates[c].completionAttemptCount < COMPLETION_MAX_ATTEMPTS then ProcessingResult
        else FailedStatus)
  {
  }

  lemma ReachNext(s: System, e: Event)
    requires IsReachable(s)
    ensures IsReachable(Next(s, e))
  {
    hide Next;
    var events :| s == RunFrom(INITIAL, events);
    assert (events + [e])[..|events|] == events;
    assert RunFrom(INITIAL, events + [e]) == Next(s, e);
  }

  predicate Waiting(s: System) {
    && s.now == 0 && "c" in s.store.candidates && s.store.candidates["c"] == NewCandidate("c", "scope", 1, 0)
    && "c" in s.store.dispatches && s.store.dispatches["c"].job == Job("c", "c", 1) && s.store.attempts == map[]
      && s.used == {"c"}
  }

  predicate Working(s: System) {
    && s.now == 0 && "c" in s.store.candidates
    && var k := s.store.candidates["c"];
    && k.status.Backtesting? && k.candidateId == "c" && k.activeFenceToken == Some("worker")
    && k.completionAttemptCount == 0 && k.completionMaxAttempts == 5 && k.activeCompletionLeaseExpiresAt.None?
    && "worker" in s.claims && s.claims["worker"].candidate.candidateId == "c"
      && s.claims["worker"].attempt.attemptId == Delivery("c", 1)
    && Delivery("c", 1) in s.store.attempts && s.store.attempts[Delivery("c", 1)].fenceToken == Some("worker")
      && s.used == {"c", "worker"}
  }

  predicate Finished(s: System) {
    && s.now == 0 && "c" in s.store.candidates
    && var k := s.store.candidates["c"];
    && k.status.ProcessingResult? && k.candidateId == "c" && k.completionNextRetryAt == Some(0)
    && k.completionAttemptCount == 0 && k.completionMaxAttempts == 5 && k.activeCompletionLeaseExpiresAt.None?
      && s.used == {"c", "worker"}
  }

  lemma Submitted()
    ensures Waiting(Next(INITIAL, Event(Submit("c", "scope", 1), 0)))
  {
  }

  lemma Worked(s: System)
    requires Waiting(s)
    ensures Working(Next(s, Event(ClaimWork("c", 1, "worker"), 0)))
  {
  }

  lemma Succeeded(s: System)
    requires Working(s)
    ensures Finished(Next(s, Event(Succeed("worker", []), 0)))
  {
  }

  lemma ResultClaimed(s: System)
    requires Finished(s)
    ensures var r := Next(s, Event(ClaimResult("c", "completion"), 0));
      Held(r, "completion") && r.completions["completion"].claim.candidate.candidateId == "c"
        && !r.store.candidates["c"].status.Cancelled?
  {
  }

  /** Submitting a candidate, running it and reporting its success. */
  lemma FinishedReachable() returns (s: System)
    ensures IsReachable(s) && Finished(s)
  {
    hide IsReachable, Next, Waiting, Working, Finished;
    var e1, e2, e3 := Event(Submit("c", "scope", 1), 0), Event(ClaimWork("c", 1, "worker"), 0),
      Event(Succeed("worker", []), 0);
    InitialReachable();
    var s1 := Next(INITIAL, e1);
    var s2 := Next(s1, e2);
    s := Next(s2, e3);
    ReachNext(INITIAL, e1);
    ReachNext(s1, e2);
    ReachNext(s2, e3);
    Submitted();
    Worked(s1);
    Succeeded(s2);
  }

  lemma InitialReachable()
    ensures IsReachable(INITIAL)
  {
    assert INITIAL == RunFrom(INITIAL, []);
  }

  /** Claiming that result reaches a state in which a cancel would be undone. */
  lemma CompletionClaimReachable()
    ensures exists s: System, t ::
      IsReachable(s) && Held(s, t)
      && !s.store.candidates[s.completions[t].claim.candidate.candidateId].status.Cancelled?
  {
    hide IsReachable, Next, Finished, ExpiredOrAbsent;
    var s := FinishedReachable();
    ResultClaimed(s);
    ReachNext(s, Event(ClaimResult("c", "completion"), 0));
    var r := Next(s, Event(ClaimResult("c", "completion"), 0));
    assert IsReachable(r) && Held(r, "completion");
  }

  lemma Reached(events: seq<Event>)
    ensures IsReachable(RunFrom(INITIAL, events))
  {
    hide RunFrom;
  }

  // ---------------------------------------------------------------- a fifth completion claim that expires

  /** Five completion claims were granted, the last one has run out, and nothing has concluded the candidate. */
  predicate Stranded(s: System, c: string) {
    && c in s.store.candidates
    && var k := s.store.candidates[c];
    && (k.status.ProcessingResult? || k.status.TerminalFailurePending?)
    && k.completionAttemptCount >= k.completionMaxAttempts && ExpiredOrAbsent(k.activeCompletionLeaseExpiresAt, s.now)
  }

  /** The candidate record is the same in both stores. */
  predicate Same(st: Store, r: Store, c: string) {
    c in st.candidates && c in r.candidates && r.candidates[c] == st.candidates[c]
  }

  lemma StrandedWorkers(st: Store, c: string, d: string, id: AttemptId, jobId: string, number: int, token: string,
          trades: seq<Trade>, retrying: bool, now: int, lease: int, error: string)
    requires c in st.candidates && st.candidates[c].activeFenceToken.None? && Filed(st, d)
    requires st.candidates[c].status.ProcessingResult? || st.candidates[c].status.TerminalFailurePending?
    ensures var r := ClaimWorkerAttempt(st, d, jobId, number, token, now, lease); r.Some? ==> Same(st, r.value.0, c)
    ensures Same(st, OrElse(PersistWorkerSuccess(st, d, id, token, trades, now), st), c)
    ensures Same(st, OrElse(FailWorkerAttempt(st, d, id, token, retrying, now, error), st), c)
  {
  }

  lemma StrandedRecovery(st: Store, c: string, d: string, now: int, error: string)
    requires c in st.candidates && Filed(st, d) && !st.candidates[c].status.Backtesting?
    ensures Same(st, RecoverAbandonedAttempt(st, d, now, error).0, c)
  {
    hide FirstRunning, HasAttempt, SyntheticAttempt, Abort;
  }

  lemma StrandedCompletions(st: Store, c: string, claim: CompletionClaim, e: string, retryAt: Option<int>, now: int,
          error: string)
    requires c in st.candidates && Filed(st, claim.candidate.candidateId)
    requires st.candidates[c].completionAttemptCount >= st.candidates[c].completionMaxAttempts
    requires ExpiredOrAbsent(st.candidates[c].activeCompletionLeaseExpiresAt, now)
    ensures Same(st, OrElse(FinalizeCompletion(st, claim, e, now), st), c)
    ensures Same(st, OrElse(FinalizeTerminalFailure(st, claim, now), st), c)
    ensures Same(st, OrElse(FailCompletion(st, claim, retryAt, now, error), st), c)
  {
  }

  /**
   * No worker, reconciler or completion worker changes a stranded candidate; a cancel, a repair or a removal of it can.
   */
  lemma StrandedStep(s: System, a: Action, c: string)
    requires Inv(s) && Stranded(s, c) && !(a.Cancel? && a.candidateId == c) && !(a.Repair? && a.candidateId == c)
      && !a.RemoveScope?
    ensures Same(s.store, Act(s, a).store, c)
  {
    hide Inv, Act, Same;
    RecordsHold(s);
    RecordHolds(s, c);
    if a.ClaimWork? || a.Succeed? || a.Fail? || a.Recover? || a.Repair? {
      StrandedWorkerStep(s, a, c);
    } else if Concludes(a) {
      StrandedConclusionStep(s, a, c);
    } else if a.ClaimResult? || CompletionStep(a) {
      StrandedPreparationStep(s, a, c);
    } else {
      StrandedUserStep(s, a, c);
    }
  }

  lemma StrandedWorkerStep(s: System, a: Action, c: string)
    requires (forall d :: Filed(s.store, d)) && Stranded(s, c) && s.store.candidates[c].activeFenceToken.None?
    requires a.ClaimWork? || a.Succeed? || a.Fail? || a.Recover? || (a.Repair? && a.candidateId != c)
    ensures Same(s.store, Act(s, a).store, c)
  {
    hide ClaimWorkerAttempt, PersistWorkerSuccess, FailWorkerAttempt, RecoverAbandonedAttempt,
      RepairTerminalQueueFailure, OrElse, Filed;
    match a
    case ClaimWork(jobId, number, token) =>
      if jobId in s.store.dispatches {
        var job := s.store.dispatches[jobId].job;
        StrandedWorkers(s.store, c, job.candidateId, Recovery(""), job.jobId, number, token, [], false, s.now,
          s.now + LEASE_MS, "");
      }
    case Succeed(token, trades) =>
      if token in s.claims {
        var w := s.claims[token];
        StrandedWorkers(s.store, c, w.candidate.candidateId, w.attempt.attemptId, "", 0, token, trades, false, s.now,
          0, "");
      }
    case Fail(token, error) =>
      if token in s.claims {
        var w := s.claims[token];
        StrandedWorkers(s.store, c, w.candidate.candidateId, w.attempt.attemptId, "", 0, token, [],
          w.attempt.attemptNumber < w.candidate.maxAttempts, s.now, 0, error);
      }
    case Recover(d, error) => StrandedRecovery(s.store, c, d, s.now, error);
    case Repair(d, error) => RepairElsewhere(s.store, c, d, s.now, error);
  }

  lemma RepairElsewhere(st: Store, c: string, d: string, now: int, error: string)
    requires c in st.candidates && d != c && Filed(st, d)
    ensures Same(st, RepairTerminalQueueFailure(st, d, error, now), c)
  {
    hide FirstRunning, HasAttempt, SyntheticAttempt, Abort;
  }

  lemma StrandedClaim(st: Store, c: string, d: string, token: string, now: int, lease: int)
    requires c in st.candidates && Filed(st, d)
      && st.candidates[c].completionAttemptCount >= st.candidates[c].completionMaxAttempts
    ensures var r := ClaimCompletion(st, d, token, now, lease); r.Some? ==> Same(st, r.value.0, c)
  {
  }

  lemma StrandedPreparationStep(s: System, a: Action, c: string)
    requires (forall d :: Filed(s.store, d)) && Stranded(s, c)
      && (a.ClaimResult? || a.LoadAttempt? || a.LoadTrades? || a.Stage?)
    ensures Same(s.store, Act(s, a).store, c)
  {
    hide LatestDone, ListTrades, FindExperiment, ClaimCompletion, Filed, ExpiredOrAbsent;
    if a.ClaimResult? { StrandedClaim(s.store, c, a.candidateId, a.token, s.now, s.now + LEASE_MS); }
  }

  lemma StrandedConclusionStep(s: System, a: Action, c: string)
    requires (forall d :: Filed(s.store, d)) && Stranded(s, c) && Concludes(a)
    ensures Same(s.store, Act(s, a).store, c)
  {
    hide FinalizeCompletion, FinalizeTerminalFailure, FailCompletion, OrElse, Filed;
    if a.token in s.completions {
      var job := s.completions[a.token];
      var e := if job.phase.Staged? then job.phase.experiment.id else "";
      var retryAt, error := if a.GiveUp? then a.retryAt else None, if a.GiveUp? then a.error else "";
      StrandedCompletions(s.store, c, job.claim, e, retryAt, s.now, error);
    }
  }

  lemma StrandedUserStep(s: System, a: Action, c: string)
    requires Stranded(s, c) && c in s.used && (forall d :: Filed(s.store, d))
    requires a.Submit? || (a.Cancel? && a.candidateId != c) || a.CancelDispatch? || a.DispatchSent? || a.DispatchLost?
      || a.Rescore?
    ensures Same(s.store, Act(s, a).store, c)
  {
    if a.Cancel? { assert Filed(s.store, a.candidateId); }
  }
}
