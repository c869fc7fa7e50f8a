/**
 * The in-memory repository: one object whose methods update its tables in place, each the atomic step its specification
 * names.
 */
module CandidateRepository {
  import opened Wrappers
  import opened CandidateStore

  class InMemoryBacktestingRepository {
    var candidates: map<string, Candidate>
    var attempts: map<AttemptId, Attempt>
    var attemptOrder: seq<AttemptId>
    var trades: map<AttemptId, seq<Trade>>
    var experiments: map<string, Experiment>
    var dispatches: map<string, Dispatch>

    ghost function State(): (st: Store)
      reads this
    {
      Store(candidates, attempts, attemptOrder, trades, experiments, dispatches)
    }

    constructor ()
      ensures State() == Store(map[], map[], [], map[], map[], map[])
    {
      candidates, attempts, attemptOrder, trades, experiments, dispatches := map[], map[], [], map[], map[], map[];
    }

    // ---------------------------------------------------------------- submission, dispatch and removal

    method CreateQueuedSubmission(candidate: Candidate, dispatch: Dispatch)
      modifies this
      ensures State()
        == SetCandidate(old(State()), candidate).(dispatches := old(dispatches)[dispatch.job.jobId := dispatch])
    {
      candidates := candidates[candidate.candidateId := candidate];
      dispatches := dispatches[dispatch.job.jobId := dispatch];
    }

    method MarkDispatchDispatched(jobId: string, at: int)
      modifies this
      ensures State() == MarkDispatched(old(State()), jobId, at)
    {
      if jobId in dispatches && !dispatches[jobId].state.DispatchCancelled? {
        var item := dispatches[jobId];
        dispatches :=
          dispatches[jobId :=
          item.(state := Dispatched, dispatchAttempts := item.dispatchAttempts + 1, lastError := None,
          updatedAt := at)];
      }
    }

    method MarkDispatchFailed(jobId: string, error: string, at: int)
      modifies this
      ensures State() == CandidateStore.MarkDispatchFailed(old(State()), jobId, error, at)
    {
      if jobId in dispatches && !dispatches[jobId].state.DispatchCancelled? {
        var item := dispatches[jobId];
        dispatches :=
          dispatches[jobId :=
          item.(state := Pending, dispatchAttempts := item.dispatchAttempts + 1, lastError := Some(error),
          updatedAt := at)];
      }
    }

    method MarkDispatchCancelled(jobId: string, at: int)
      modifies this
      ensures State() == CandidateStore.MarkDispatchCancelled(old(State()), jobId, at)
    {
      if jobId in dispatches {
        dispatches := dispatches[jobId := dispatches[jobId].(state := DispatchCancelled, updatedAt := at)];
      }
    }

    /** Deletes the candidates of a scope one by one. */
    method DeleteScope(scopeId: string)
      modifies this
      ensures State() == CandidateStore.DeleteScope(old(State()), scopeId)
    {
      var pending := candidates.Keys;
      while pending != {}
        invariant pending <= candidates.Keys <= old(candidates).Keys
        invariant forall c | c in candidates :: candidates[c] == old(candidates)[c]
        invariant forall c | c in old(candidates) && c !in pending :: c in candidates <==>
          old(candidates)[c].leaderboardScopeId != scopeId
        invariant State() == old(State()).(candidates := candidates)
        decreases |pending|
      {
        var c :| c in pending;
        pending := pending - {c};
        if candidates[c].leaderboardScopeId == scopeId {
          candidates := candidates - {c};
        }
      }
    }

    // ---------------------------------------------------------------- worker attempts

    method PutAttempt(a: Attempt)
      modifies this`attempts, this`attemptOrder
      ensures State() == SetAttempt(old(State()), a)
    {
      if a.attemptId !in attempts {
        attemptOrder := attemptOrder + [a.attemptId];
      }
      attempts := attempts[a.attemptId := a];
    }

    /** A scan of the attempt table in insertion order. */
    method FindRunning(c: string, number: Option<int>) returns (r: Option<AttemptId>)
      ensures r == FirstRunning(attempts, attemptOrder, c, number)
    {
      var i := 0;
      while i < |attemptOrder|
        invariant 0 <= i <= |attemptOrder|
        invariant FirstRunning(attempts, attemptOrder, c, number)
          == FirstRunning(attempts, attemptOrder[i..], c, number)
      {
        assert attemptOrder[i..][1..] == attemptOrder[i + 1..];
        if RunningFor(attempts, attemptOrder[i], c, number) {
          return Some(attemptOrder[i]);
        }
        i := i + 1;
      }
      return None;
    }

    method ClaimWorkerAttempt(c: string, jobId: string, number: int, token: string, now: int,
            lease: int) returns (r: Option<WorkerClaim>)
      modifies this
      ensures var spec := CandidateStore.ClaimWorkerAttempt(old(State()), c, jobId, number, token, now, lease);
        && r == (if spec.Some? then Some(spec.value.1) else None)
        && State() == (if spec.Some? then spec.value.0 else old(State()))
    {
      if c !in candidates { return None; }
      var candidate := candidates[c];
      if candidate.queueJobId != jobId || Terminal(candidate.status) || candidate.status.ProcessingResult?
        || candidate.status.TerminalFailurePending? {
        return None;
      }
      var leaseActive := candidate.status.Backtesting? && candidate.activeLeaseExpiresAt.Some?
        && candidate.activeLeaseExpiresAt.value > now;
      if leaseActive { return None; }
      var id := Delivery(c, number);
      var attempt := if id in attempts then attempts[id]
        else Attempt(id, c, number, Running, None, None, now, None, 0, 0, false, None, None);
      var claimed :=
        attempt.(status := Running, completedAt := None, deliveryAttemptCount := number, fenceToken := Some(token),
                              leaseExpiresAt := Some(lease), failureCategory := None, failureCode := None);
      var updated :=
        candidate.(status := Backtesting, activeAttemptNumber := Some(number),
        executionGeneration := candidate.executionGeneration + 1,
                                activeFenceToken := Some(token), activeLeaseExpiresAt := Some(lease), updatedAt := now);
      PutAttempt(claimed);
      candidates := candidates[updated.candidateId := updated];
      return Some(WorkerClaim(updated, claimed, token));
    }

    method FailWorkerAttempt(c: string, id: AttemptId, token: string, retrying: bool, now: int,
            error: string) returns (r: Outcome<StoreError>)
      modifies this
      ensures var spec := CandidateStore.FailWorkerAttempt(old(State()), c, id, token, retrying, now, error);
        && r == (if spec.Success? then Pass else Fail(spec.error))
        && State() == (if spec.Success? then spec.value else old(State()))
    {
      if c !in candidates || id !in attempts || candidates[c].activeFenceToken != Some(token)
        || attempts[id].fenceToken != Some(token) {
        return Fail(FenceLost);
      }
      var candidate := candidates[c];
      var cancelled := candidate.status.Cancelled?;
      var category := if cancelled then CancelledAudit else if retrying then Retryable else InfrastructureFailure;
      var updated := Release(candidate, now);
      if !cancelled {
        updated := updated.(status := if retrying then RetryWait else TerminalFailurePending,
                            failureKind := if retrying then None
                              else Some(RetryExhausted), failureCode := Some(error), lastError := Some(error));
      }
      PutAttempt(Abort(attempts[id], now, category, error));
      candidates := candidates[updated.candidateId := updated];
      return Pass;
    }

    method PersistWorkerSuccess(c: string, id: AttemptId, token: string, result: seq<Trade>,
            completedAt: int) returns (r: Outcome<StoreError>)
      modifies this
      ensures var spec := CandidateStore.PersistWorkerSuccess(old(State()), c, id, token, result, completedAt);
        && r == (if spec.Success? then Pass else Fail(spec.error))
        && State() == (if spec.Success? then spec.value else old(State()))
    {
      if c !in candidates || id !in attempts || candidates[c].activeFenceToken != Some(token)
        || attempts[id].fenceToken != Some(token) {
        return Fail(FenceLost);
      }
      var auditOnly := candidates[c].status.Cancelled?;
      var pending := Release(candidates[c], completedAt);
      if !auditOnly {
        pending := pending.(status := ProcessingResult, completionNextRetryAt := Some(completedAt));
      }
      PutAttempt(attempts[id].(status := Done, completedAt := Some(completedAt), tradeCount := |result|,
        auditOnly := auditOnly, leaseExpiresAt := None));
      trades := trades[id := result];
      candidates := candidates[pending.candidateId := pending];
      return Pass;
    }

    // ---------------------------------------------------------------- recovery and repair

    /** Aborts the running attempt that was found, or records a synthetic one for a candidate without attempts. */
    method AbortOrRecord(c: string, running: Option<AttemptId>, now: int, error: string)
      requires running.Some? ==> running.value in attempts
      modifies this`attempts, this`attemptOrder
      ensures State() ==
        if running.Some?
          then SetAttempt(old(State()), Abort(old(attempts)[running.value], now, InfrastructureFailure, error))
        else if !HasAttempt(old(attempts), c) then SetAttempt(old(State()), SyntheticAttempt(c, now, error))
        else old(State())
    {
      if running.Some? {
        PutAttempt(Abort(attempts[running.value], now, InfrastructureFailure, error));
      } else if !HasAttempt(attempts, c) {
        PutAttempt(SyntheticAttempt(c, now, error));
      }
    }

    method RecoverAbandonedAttempt(c: string, now: int, error: string) returns (recovered: bool)
      modifies this
      ensures (State(), recovered) == CandidateStore.RecoverAbandonedAttempt(old(State()), c, now, error)
    {
      if c !in candidates || !candidates[c].status.Backtesting? || candidates[c].activeLeaseExpiresAt.None?
        || candidates[c].activeLeaseExpiresAt.value > now {
        return false;
      }
      var candidate := candidates[c];
      var anyRunning := FindRunning(c, None);
      var running := anyRunning;
      if candidate.activeAttemptNumber.Some? {
        var active := FindRunning(c, candidate.activeAttemptNumber);
        if active.Some? { running := active; }
      }
      var number := if candidate.activeAttemptNumber.Some? then candidate.activeAttemptNumber.value
                    else if anyRunning.Some? then attempts[anyRunning.value].attemptNumber else candidate.maxAttempts;
      AbortOrRecord(c, running, now, error);
      var retrying := number < candidate.maxAttempts;
      var updated := Release(candidate, now).(status := if retrying then RetryWait else TerminalFailurePending,
                                              failureKind := if retrying then None else Some(Infrastructure),
                                              failureCode := if retrying then None else Some(error),
                                              lastError := if retrying then None else Some(error));
      candidates := candidates[updated.candidateId := updated];
      var jobId := candidate.queueJobId;
      if retrying && jobId in dispatches && !dispatches[jobId].state.DispatchCancelled? {
        dispatches :=
          dispatches[jobId := dispatches[jobId].(state := Pending, lastError := Some(error), updatedAt := now)];
      }
      return true;
    }

    method RepairTerminalQueueFailure(c: string, error: string, now: int)
      modifies this
      ensures State() == CandidateStore.RepairTerminalQueueFailure(old(State()), c, error, now)
    {
      if c !in candidates || Terminal(candidates[c].status) || candidates[c].status.TerminalFailurePending? { return; }
      var running := FindRunning(c, None);
      AbortOrRecord(c, running, now, error);
      var updated := Release(candidates[c], now).(status := TerminalFailurePending, failureKind := Some(Infrastructure),
                                                  failureCode := Some(error), lastError := Some(error));
      candidates := candidates[updated.candidateId := updated];
    }

    /** The cancel of the service, with nothing between its read and its writes. */
    method Cancel(c: string, now: int)
      modifies this
      ensures State() == CancelCandidate(old(State()), c, now)
    {
      if c in candidates && !Terminal(candidates[c].status) {
        var candidate := candidates[c];
        var activeFenceToken := if candidate.status.Backtesting? then candidate.activeFenceToken else None;
        var updated :=
          candidate.(status := Cancelled, activeFenceToken := activeFenceToken, activeLeaseExpiresAt := None,
          updatedAt := now);
        candidates := candidates[updated.candidateId := updated];
        MarkDispatchCancelled(candidate.queueJobId, now);
      }
    }

    // ---------------------------------------------------------------- completion

    method ClaimCompletion(c: string, token: string, now: int, lease: int) returns (r: Option<CompletionClaim>)
      modifies this
      ensures var spec := CandidateStore.ClaimCompletion(old(State()), c, token, now, lease);
        && r == (if spec.Some? then Some(spec.value.1) else None)
        && State() == (if spec.Some? then spec.value.0 else old(State()))
    {
      if c !in candidates { return None; }
      var candidate := candidates[c];
      if !candidate.status.ProcessingResult? && !candidate.status.TerminalFailurePending? { return None; }
      if candidate.completionNextRetryAt.Some? && candidate.completionNextRetryAt.value > now { return None; }
      if candidate.activeCompletionLeaseExpiresAt.Some? && candidate.activeCompletionLeaseExpiresAt.value > now {
        return None;
      }
      if candidate.completionAttemptCount >= candidate.completionMaxAttempts { return None; }
      var claimed :=
        candidate.(completionAttemptCount := candidate.completionAttemptCount + 1,
        completionGeneration := candidate.completionGeneration + 1,
                                activeCompletionClaimToken := Some(token),
                                  activeCompletionLeaseExpiresAt := Some(lease),
                                completionNextRetryAt := None, updatedAt := now);
      candidates := candidates[claimed.candidateId := claimed];
      return Some(CompletionClaim(claimed, token));
    }

    /** The completed attempt with the highest number, the earliest inserted among equals. */
    method ReadLatestCompletedAttempt(c: string) returns (r: Option<AttemptId>)
      ensures r == LatestDone(attempts, attemptOrder, c)
    {
      r := None;
      var i := |attemptOrder|;
      while i > 0
        invariant 0 <= i <= |attemptOrder|
        invariant r == LatestDone(attempts, attemptOrder[i..], c)
      {
        i := i - 1;
        assert attemptOrder[i..][1..] == attemptOrder[i + 1..];
        if DoneFor(attempts, attemptOrder[i], c)
          && (r.None? || attempts[attemptOrder[i]].attemptNumber >= attempts[r.value].attemptNumber) {
          r := Some(attemptOrder[i]);
        }
      }
    }

    /** Keeps an experiment the candidate already has; stores the new one only when there is none. */
    method StageCompletionExperiment(x: Experiment) returns (kept: Experiment)
      modifies this`experiments
      ensures if exists e :: ExperimentFor(old(State()), e, x.candidateId)
              then State() == old(State()) && exists e ::
                ExperimentFor(State(), e, x.candidateId) && kept == experiments[e]
              else kept == x && State() == old(State()).(experiments := old(experiments)[x.id := x])
    {
      var rest := experiments.Keys;
      while rest != {}
        invariant rest <= experiments.Keys
        invariant forall e | e in experiments && e !in rest :: experiments[e].candidateId != x.candidateId
        decreases |rest|
      {
        var e :| e in rest;
        rest := rest - {e};
        if experiments[e].candidateId == x.candidateId {
          assert ExperimentFor(State(), e, x.candidateId);
          return experiments[e];
        }
      }
      experiments := experiments[x.id := x];
      return x;
    }

    method FinalizeCompletion(claim: CompletionClaim, experimentId: string, now: int) returns (r: Outcome<StoreError>)
      modifies this
      ensures var spec := CandidateStore.FinalizeCompletion(old(State()), claim, experimentId, now);
        && r == (if spec.Success? then Pass else Fail(spec.error))
        && State() == (if spec.Success? then spec.value else old(State()))
    {
      var c := claim.candidate.candidateId;
      var held := HoldsClaim(claim, now);
      if !held || !candidates[c].status.ProcessingResult? { return Fail(CompletionFenceLost); }
      var completed :=
        Unclaim(candidates[c], now).(status := CompletedStatus, experimentResultId := Some(experimentId));
      candidates := candidates[completed.candidateId := completed];
      return Pass;
    }

    method FinalizeTerminalFailure(claim: CompletionClaim, now: int) returns (r: Outcome<StoreError>)
      modifies this
      ensures var spec := CandidateStore.FinalizeTerminalFailure(old(State()), claim, now);
        && r == (if spec.Success? then Pass else Fail(spec.error))
        && State() == (if spec.Success? then spec.value else old(State()))
    {
      var c := claim.candidate.candidateId;
      var held := HoldsClaim(claim, now);
      if !held || !candidates[c].status.TerminalFailurePending? { return Fail(CompletionFenceLost); }
      var failed := Unclaim(candidates[c], now).(status := FailedStatus);
      candidates := candidates[failed.candidateId := failed];
      return Pass;
    }

    method FailCompletion(claim: CompletionClaim, retryAt: Option<int>, now: int,
            error: string) returns (r: Outcome<StoreError>)
      modifies this
      ensures var spec := CandidateStore.FailCompletion(old(State()), claim, retryAt, now, error);
        && r == (if spec.Success? then Pass else Fail(spec.error))
        && State() == (if spec.Success? then spec.value else old(State()))
    {
      var c := claim.candidate.candidateId;
      var held := HoldsClaim(claim, now);
      if !held { return Fail(CompletionFenceLost); }
      var candidate := candidates[c];
      var updated := Unclaim(candidate, now);
      if candidate.completionAttemptCount >= candidate.completionMaxAttempts {
        updated :=
          updated.(status := FailedStatus, failureKind := Some(CompletionProcessing),
          failureCode := Some("COMPLETION_PROCESSING_FAILED"));
      } else {
        updated := updated.(status := ProcessingResult, completionNextRetryAt := retryAt);
      }
      updated := updated.(lastError := Some(error));
      candidates := candidates[updated.candidateId := updated];
      return Pass;
    }

    /** Rates a stored experiment anew, or finds none with that identifier. */
    method UpdateExperimentScore(experimentId: string, score: real, eligible: bool) returns (r: Option<Experiment>)
      modifies this`experiments
      ensures State() == CandidateStore.UpdateExperimentScore(old(State()), experimentId, score, eligible)
      ensures r == if experimentId in experiments then Some(experiments[experimentId]) else None
      ensures experiments.Keys == old(experiments.Keys)
      ensures forall e | e in experiments ::
        SameButScore(old(experiments)[e], experiments[e])
        && (e != experimentId ==> experiments[e] == old(experiments)[e])
    {
      if experimentId !in experiments { return None; }
      var updated := experiments[experimentId].(overallScore := score, rankEligible := eligible);
      experiments := experiments[experimentId := updated];
      return Some(updated);
    }

    method HoldsClaim(claim: CompletionClaim, now: int) returns (held: bool)
      ensures held <==> HoldsCompletion(State(), claim, now)
    {
      var c := claim.candidate.candidateId;
      if c !in candidates { return false; }
      var candidate := candidates[c];
      held := && candidate.activeCompletionClaimToken == Some(claim.claimToken)
              && candidate.completionGeneration == claim.candidate.completionGeneration
              && candidate.activeCompletionLeaseExpiresAt.Some? && candidate.activeCompletionLeaseExpiresAt.value > now;
    }
  }
}
