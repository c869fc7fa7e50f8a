/**
 * The backtest candidate protocol: workers, cancels, recovery and completion workers interleave arbitrarily
 * over the store, under a clock that never goes back and identifiers that are never issued twice.
 */
module CandidateProtocol {
  import opened Wrappers
  import opened CandidateStore

  // ---------------------------------------------------------------- the system

  /** How far a completion worker has come; it may die or fail at any point. */
  datatype Phase = Claimed | Loaded(attempt: Attempt) | Listed(attempt: Attempt,
          trades: seq<Trade>) | Staged(experiment: Experiment)

  datatype CompletionJob = CompletionJob(claim: CompletionClaim, phase: Phase)

  /** The store, the clock, every identifier issued so far, and every claim ever handed out, by token. */
  datatype System = System(
    store: Store, now: int, used: set<string>, claims: map<string, WorkerClaim>, completions: map<string,
      CompletionJob>)

  datatype Action =
    | Submit(candidateId: string, scopeId: string, maxAttempts: int)
    | ClaimWork(jobId: string, number: int, token: string)
    | Succeed(token: string, trades: seq<Trade>)
    | Fail(token: string, error: string)
    | Recover(candidateId: string, error: string)
    | Repair(candidateId: string, error: string)
    | Cancel(candidateId: string)
    | CancelDispatch(jobId: string)
    | DispatchSent(jobId: string)
    | DispatchLost(jobId: string, error: string)
    | RemoveScope(scopeId: string)
    | ClaimResult(candidateId: string, token: string)
    | LoadAttempt(token: string)
    | LoadTrades(token: string)
    | Stage(token: string, experimentId: string, score: real, eligible: bool)
    | Finalize(token: string)
    | FinalizeFailure(token: string)
    | GiveUp(token: string, retryAt: Option<int>, error: string)
    | Rescore(experimentId: string, score: real, eligible: bool)

  /** An action and the time at which it takes effect. */
  datatype Event = Event(action: Action, at: int)

  const INITIAL: System := System(Store(map[], map[], [], map[], map[], map[]), 0, {}, map[], map[])

  function OrElse(r: Result<Store, StoreError>, st: Store): Store {
    if r.Success? then r.value else st
  }

  /** The effect of one action at the present time; one that its caller cannot issue changes nothing. */
  ghost function Act(s: System, a: Action): System {
    var st, now := s.store, s.now;
    match a
    case Submit(c, scopeId, maxAttempts) =>
      if c in s.used || maxAttempts < 1 then s
      else s.(store := SubmitCandidate(st, c, scopeId, maxAttempts, now), used := s.used + {c})
    case ClaimWork(jobId, number, token) =>
      if token in s.used || jobId !in st.dispatches then s
      else
        var job := st.dispatches[jobId].job;
        if number < 1 || number > job.maxAttempts then s.(used := s.used + {token})
        else
          var r := ClaimWorkerAttempt(st, job.candidateId, job.jobId, number, token, now, now + LEASE_MS);
          if r.None? then s.(used := s.used + {token})
          else s.(store := r.value.0, used := s.used + {token}, claims := s.claims[token := r.value.1])
    case Succeed(token, trades) =>
      if token !in s.claims then s
      else
        var w := s.claims[token];
        s.(store :=
          OrElse(PersistWorkerSuccess(st, w.candidate.candidateId, w.attempt.attemptId, token, trades, now), st))
    case Fail(token, error) =>
      if token !in s.claims then s
      else
        var w := s.claims[token];
        var retrying := w.attempt.attemptNumber < w.candidate.maxAttempts;
        s.(store :=
          OrElse(FailWorkerAttempt(st, w.candidate.candidateId, w.attempt.attemptId, token, retrying, now, error), st))
    case Recover(c, error) => s.(store := RecoverAbandonedAttempt(st, c, now, error).0)
    case Repair(c, error) => s.(store := RepairTerminalQueueFailure(st, c, error, now))
    case Cancel(c) => s.(store := CancelCandidate(st, c, now))
    case CancelDispatch(jobId) => s.(store := MarkDispatchCancelled(st, jobId, now))
    case DispatchSent(jobId) => s.(store := MarkDispatched(st, jobId, now))
    case DispatchLost(jobId, error) => s.(store := MarkDispatchFailed(st, jobId, error, now))
    case RemoveScope(scopeId) => s.(store := DeleteScope(st, scopeId))
    case ClaimResult(c, token) =>
      if token in s.used then s
      else
        var r := ClaimCompletion(st, c, token, now, now + LEASE_MS);
        if r.None? then s.(used := s.used + {token})
        else s.(store := r.value.0, used := s.used + {token},
          completions := s.completions[token := CompletionJob(r.value.1, Claimed)])
    case LoadAttempt(token) =>
      if token !in s.completions || !s.completions[token].phase.Claimed?
        || !s.completions[token].claim.candidate.status.ProcessingResult? then s
      else
        var id := LatestDone(st.attempts, st.attemptOrder, s.completions[token].claim.candidate.candidateId);
        if id.None? then s
          else s.(completions := s.completions[token := s.completions[token].(phase := Loaded(st.attempts[id.value]))])
    case LoadTrades(token) =>
      if token !in s.completions || !s.completions[token].phase.Loaded? then s
      else
        var attempt := s.completions[token].phase.attempt;
        s.(completions :=
          s.completions[token := s.completions[token].(phase := Listed(attempt, ListTrades(st, attempt.attemptId)))])
    case Stage(token, experimentId, score, eligible) =>
      if experimentId in s.used || token !in s.completions || !s.completions[token].phase.Listed? then s
      else
        var job := s.completions[token];
        var x :=
          Experiment(experimentId, job.claim.candidate.candidateId, job.phase.attempt.attemptId, job.phase.trades,
          score, eligible);
        var staged := StageExperiment(st, x);
        s.(store := staged.0, used := s.used + {experimentId},
          completions := s.completions[token := job.(phase := Staged(staged.1))])
    case Finalize(token) =>
      if token !in s.completions || !s.completions[token].phase.Staged? then s
      else s.(store :=
        OrElse(FinalizeCompletion(st, s.completions[token].claim, s.completions[token].phase.experiment.id, now), st))
    case FinalizeFailure(token) =>
      if token !in s.completions || !s.completions[token].claim.candidate.status.TerminalFailurePending? then s
      else s.(store := OrElse(FinalizeTerminalFailure(st, s.completions[token].claim, now), st))
    case GiveUp(token, retryAt, error) =>
      if token !in s.completions then s
      else s.(store := OrElse(FailCompletion(st, s.completions[token].claim, retryAt, now, error), st))
    case Rescore(experimentId, score, eligible) => s.(store := UpdateExperimentScore(st, experimentId, score, eligible))
  }

  /** Time passes, then the action happens. An event in the past is not a behaviour of the system. */
  ghost function Next(s: System, e: Event): System {
    if e.at < s.now then s else Act(s.(now := e.at), e.action)
  }

  ghost function RunFrom(s: System, events: seq<Event>): System
    decreases |events|
  {
    if events == [] then s else Next(RunFrom(s, events[..|events| - 1]), events[|events| - 1])
  }
}
