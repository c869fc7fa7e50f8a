/** What one action may do to what the system has already recorded, and so what every run preserves. */
module CandidateHistory {
  import opened Wrappers
  import opened CandidateStore
  import opened CandidateProtocol
  import opened CandidateInvariant
  import opened CandidateSteps

  /** The action reports a completion failure under a claim on `c` that still holds. */
  predicate GivesUp(s: System, a: Action, c: string) {
    && a.GiveUp? && a.token in s.completions
    && s.completions[a.token].claim.candidate.candidateId == c
      && HoldsCompletion(s.store, s.completions[a.token].claim, s.now)
  }

  /**
   * How a step may change a candidate record: tokens are kept, cleared or issued afresh; terminal records are frozen.
   */
  ghost predicate Moves(used: set<string>, givesUp: bool, k: Candidate, after: Candidate) {
    && (after.activeFenceToken == k.activeFenceToken || after.activeFenceToken.None?
      || after.activeFenceToken.value !in used)
    && (|| after.activeCompletionClaimToken.None?
        || (after.activeCompletionClaimToken == k.activeCompletionClaimToken
          && after.activeCompletionLeaseExpiresAt == k.activeCompletionLeaseExpiresAt
            && after.completionGeneration == k.completionGeneration)
        || after.activeCompletionClaimToken.value !in used)
    && (k.status.CompletedStatus? || k.status.FailedStatus? ==> after == k)
    && (k.status.Cancelled? ==>
      (after.status.Cancelled? <==> !givesUp) && after.completionGeneration == k.completionGeneration)
    && after.maxAttempts == k.maxAttempts
  }

  ghost predicate RecordsOk(s: System) {
    forall c | c in s.store.candidates :: RecordOk(c, s.store.candidates[c])
  }

  lemma RecordsHold(s: System)
    requires Inv(s)
    ensures RecordsOk(s)
  {
    hide AttemptsOk, ExperimentsOk, CompletionsOk, ClaimsOk, RecordOk, AttemptsFit, CompletionsFit, DispatchFits;
    forall c | c in s.store.candidates
      ensures RecordOk(c, s.store.candidates[c])
    {
      assert CandidateOk(s, c, s.store.candidates[c]);
    }
  }

  /** The generation counters go up by one with a claim of their kind, and never otherwise. */
  predicate Counts(claimed: bool, granted: bool, k: Candidate, after: Candidate) {
    && after.executionGeneration == k.executionGeneration + (if claimed then 1 else 0)
    && after.completionGeneration == k.completionGeneration + (if granted then 1 else 0)
  }

  /** The action is a work claim on `c` that is granted. */
  predicate ClaimsWork(s: System, a: Action, c: string) {
    && a.ClaimWork? && a.token !in s.used && a.jobId in s.store.dispatches
    && var job := s.store.dispatches[a.jobId].job;
    && job.candidateId == c && 1 <= a.number <= job.maxAttempts
    && ClaimWorkerAttempt(s.store, c, job.jobId, a.number, a.token, s.now, s.now + LEASE_MS).Some?
  }

  /** The action is a completion claim on `c` that is granted. */
  predicate ClaimsResult(s: System, a: Action, c: string) {
    a.ClaimResult? && a.token !in s.used && a.candidateId == c
      && ClaimCompletion(s.store, c, a.token, s.now, s.now + LEASE_MS).Some?
  }

  lemma RecordHolds(s: System, c: string)
    requires Inv(s) && c in s.store.candidates
    ensures RecordOk(c, s.store.candidates[c]) && c in s.used
  {
    hide RecordOk, AttemptsFit, CompletionsFit, DispatchFits;
    Registered(s, c);
  }

  lemma ClaimWorkMoves(used: set<string>, st: Store, d: string, jobId: string, number: int, token: string, now: int,
          lease: int, c: string)
    requires c in st.candidates && token !in used && (d in st.candidates ==> RecordOk(d, st.candidates[d]))
    requires ClaimWorkerAttempt(st, d, jobId, number, token, now, lease).Some?
    ensures var r := ClaimWorkerAttempt(st, d, jobId, number, token, now, lease).value.0;
      c in r.candidates && Moves(used, false, st.candidates[c], r.candidates[c])
        && Counts(d == c, false, st.candidates[c], r.candidates[c])
  {
  }

  lemma SucceedMoves(used: set<string>, st: Store, d: string, id: AttemptId, token: string, trades: seq<Trade>,
          now: int, c: string)
    requires c in st.candidates && (d in st.candidates ==> RecordOk(d, st.candidates[d]))
    ensures var r := OrElse(PersistWorkerSuccess(st, d, id, token, trades, now), st);
      c in r.candidates && Moves(used, false, st.candidates[c], r.candidates[c])
        && Counts(false, false, st.candidates[c], r.candidates[c])
  {
  }

  lemma FailMoves(used: set<string>, st: Store, d: string, id: AttemptId, token: string, retrying: bool, now: int,
          error: string, c: string)
    requires c in st.candidates && (d in st.candidates ==> RecordOk(d, st.candidates[d]))
    ensures var r := OrElse(FailWorkerAttempt(st, d, id, token, retrying, now, error), st);
      c in r.candidates && Moves(used, false, st.candidates[c], r.candidates[c])
        && Counts(false, false, st.candidates[c], r.candidates[c])
  {
  }

  lemma RecoverMoves(used: set<string>, st: Store, d: string, now: int, error: string, c: string)
    requires c in st.candidates && (d in st.candidates ==> RecordOk(d, st.candidates[d]))
    ensures var r := RecoverAbandonedAttempt(st, d, now, error).0;
      c in r.candidates && Moves(used, false, st.candidates[c], r.candidates[c])
        && Counts(false, false, st.candidates[c], r.candidates[c])
  {
    hide FirstRunning, HasAttempt, SyntheticAttempt, Abort;
  }

  lemma RepairMoves(used: set<string>, st: Store, d: string, now: int, error: string, c: string)
    requires c in st.candidates && (d in st.candidates ==> RecordOk(d, st.candidates[d]))
    ensures var r := RepairTerminalQueueFailure(st, d, error, now);
      c in r.candidates && Moves(used, false, st.candidates[c], r.candidates[c])
        && Counts(false, false, st.candidates[c], r.candidates[c])
  {
    hide FirstRunning, HasAttempt, SyntheticAttempt, Abort;
  }

  lemma CancelMoves(used: set<string>, st: Store, d: string, now: int, c: string)
    requires c in st.candidates && (d in st.candidates ==> RecordOk(d, st.candidates[d]))
    ensures var r := CancelCandidate(st, d, now);
      c in r.candidates && Moves(used, false, st.candidates[c], r.candidates[c])
        && Counts(false, false, st.candidates[c], r.candidates[c])
  {
  }

  lemma ClaimResultMoves(used: set<string>, st: Store, d: string, token: string, now: int, lease: int, c: string)
    requires c in st.candidates && token !in used && (d in st.candidates ==> RecordOk(d, st.candidates[d]))
    requires ClaimCompletion(st, d, token, now, lease).Some?
    ensures var r := ClaimCompletion(st, d, token, now, lease).value.0;
      c in r.candidates && Moves(used, false, st.candidates[c], r.candidates[c])
        && Counts(false, d == c, st.candidates[c], r.candidates[c])
  {
  }

  lemma FinalizeMoves(used: set<string>, st: Store, claim: CompletionClaim, e: string, now: int, c: string)
    requires var d := claim.candidate.candidateId;
      c in st.candidates && (d in st.candidates ==> RecordOk(d, st.candidates[d]))
    ensures var r := OrElse(FinalizeCompletion(st, claim, e, now), st);
      c in r.candidates && Moves(used, false, st.candidates[c], r.candidates[c])
        && Counts(false, false, st.candidates[c], r.candidates[c])
  {
  }

  lemma FinalizeFailureMoves(used: set<string>, st: Store, claim: CompletionClaim, now: int, c: string)
    requires var d := claim.candidate.candidateId;
      c in st.candidates && (d in st.candidates ==> RecordOk(d, st.candidates[d]))
    ensures var r := OrElse(FinalizeTerminalFailure(st, claim, now), st);
      c in r.candidates && Moves(used, false, st.candidates[c], r.candidates[c])
        && Counts(false, false, st.candidates[c], r.candidates[c])
  {
  }

  lemma GiveUpMoves(used: set<string>, st: Store, claim: CompletionClaim, retryAt: Option<int>, now: int,
          error: string, c: string)
    requires var d := claim.candidate.candidateId;
      c in st.candidates && (d in st.candidates ==> RecordOk(d, st.candidates[d]))
    ensures var r := OrElse(FailCompletion(st, claim, retryAt, now, error), st);
      && c in r.candidates
      && Moves(used, claim.candidate.candidateId == c
        && HoldsCompletion(st, claim, now), st.candidates[c], r.candidates[c])
      && Counts(false, false, st.candidates[c], r.candidates[c])
  {
  }

  lemma StaysPut(used: set<string>, k: Candidate)
    ensures Moves(used, false, k, k) && Counts(false, false, k, k)
  {
  }

  lemma WorkerMoves(s: System, a: Action, c: string)
    requires RecordsOk(s) && c in s.store.candidates && c in s.used
    requires a.ClaimWork? || a.Succeed? || a.Fail? || a.Recover? || a.Repair?
    ensures c in Act(s, a).store.candidates
      && Moves(s.used, false, s.store.candidates[c], Act(s, a).store.candidates[c])
    ensures Counts(ClaimsWork(s, a, c), false, s.store.candidates[c], Act(s, a).store.candidates[c])
  {
    hide ClaimWorkerAttempt, PersistWorkerSuccess, FailWorkerAttempt, RecoverAbandonedAttempt,
      RepairTerminalQueueFailure, RecordOk, Moves, Counts, OrElse;
    StaysPut(s.used, s.store.candidates[c]);
    match a
    case ClaimWork(jobId, number, token) =>
      if token !in s.used && jobId in s.store.dispatches {
        var job := s.store.dispatches[jobId].job;
        if ClaimWorkerAttempt(s.store, job.candidateId, job.jobId, number, token, s.now, s.now + LEASE_MS).Some? {
          ClaimWorkMoves(s.used, s.store, job.candidateId, job.jobId, number, token, s.now, s.now + LEASE_MS, c);
        }
      }
    case Succeed(token, trades) =>
      if token in s.claims {
        var w := s.claims[token];
        SucceedMoves(s.used, s.store, w.candidate.candidateId, w.attempt.attemptId, token, trades, s.now, c);
      }
    case Fail(token, error) =>
      if token in s.claims {
        var w := s.claims[token];
        FailMoves(s.used, s.store, w.candidate.candidateId, w.attempt.attemptId, token,
          w.attempt.attemptNumber < w.candidate.maxAttempts, s.now, error, c);
      }
    case Recover(d, error) => RecoverMoves(s.used, s.store, d, s.now, error, c);
    case Repair(d, error) => RepairMoves(s.used, s.store, d, s.now, error, c);
  }

  predicate Concludes(a: Action) {
    a.Finalize? || a.FinalizeFailure? || a.GiveUp?
  }

  lemma PreparationMoves(s: System, a: Action, c: string)
    requires RecordsOk(s) && c in s.store.candidates && c in s.used
    requires a.ClaimResult? || a.LoadAttempt? || a.LoadTrades? || a.Stage?
    ensures c in Act(s, a).store.candidates
      && Moves(s.used, false, s.store.candidates[c], Act(s, a).store.candidates[c])
    ensures Counts(false, ClaimsResult(s, a, c), s.store.candidates[c], Act(s, a).store.candidates[c])
  {
    hide ClaimCompletion, LatestDone, ListTrades, FindExperiment, RecordOk, Moves, Counts;
    StaysPut(s.used, s.store.candidates[c]);
    if a.ClaimResult? && a.token !in s.used
      && ClaimCompletion(s.store, a.candidateId, a.token, s.now, s.now + LEASE_MS).Some? {
      ClaimResultMoves(s.used, s.store, a.candidateId, a.token, s.now, s.now + LEASE_MS, c);
    }
  }

  lemma ConclusionMoves(s: System, a: Action, c: string)
    requires RecordsOk(s) && c in s.store.candidates && c in s.used && Concludes(a)
    ensures c in Act(s, a).store.candidates
      && Moves(s.used, GivesUp(s, a, c), s.store.candidates[c], Act(s, a).store.candidates[c])
    ensures Counts(false, false, s.store.candidates[c], Act(s, a).store.candidates[c])
  {
    hide FinalizeCompletion, FinalizeTerminalFailure, FailCompletion, RecordOk, Moves, Counts, OrElse, HoldsCompletion;
    StaysPut(s.used, s.store.candidates[c]);
    if a.token in s.completions {
      var job := s.completions[a.token];
      match a
      case Finalize(_) =>
        if job.phase.Staged? {
          FinalizeMoves(s.used, s.store, job.claim, job.phase.experiment.id, s.now, c);
        }
      case FinalizeFailure(_) => FinalizeFailureMoves(s.used, s.store, job.claim, s.now, c);
      case GiveUp(_, retryAt, error) => GiveUpMoves(s.used, s.store, job.claim, retryAt, s.now, error, c);
    }
  }

  lemma UserMoves(s: System, a: Action, c: string)
    requires RecordsOk(s) && c in s.store.candidates && c in s.used
    requires a.Submit? || a.Cancel? || a.CancelDispatch? || a.DispatchSent? || a.DispatchLost? || a.RemoveScope?
      || a.Rescore?
    ensures c in Act(s, a).store.candidates ==>
      Moves(s.used, false, s.store.candidates[c], Act(s, a).store.candidates[c])
    ensures c in Act(s, a).store.candidates ==>
      Counts(false, false, s.store.candidates[c], Act(s, a).store.candidates[c])
    ensures c !in Act(s, a).store.candidates ==> a.RemoveScope?
  {
    hide CancelCandidate, RecordOk, Moves, Counts;
    StaysPut(s.used, s.store.candidates[c]);
    if a.Cancel? { CancelMoves(s.used, s.store, a.candidateId, s.now, c); }
  }

  /** One action's effect on one candidate record; only removal of its scope deletes it. */
  lemma ActMoves(s: System, a: Action, c: string)
    requires Inv(s) && c in s.store.candidates
    ensures c in Act(s, a).store.candidates ==>
      Moves(s.used, GivesUp(s, a, c), s.store.candidates[c], Act(s, a).store.candidates[c])
    ensures c in Act(s, a).store.candidates ==>
      Counts(ClaimsWork(s, a, c), ClaimsResult(s, a, c), s.store.candidates[c], Act(s, a).store.candidates[c])
    ensures c !in Act(s, a).store.candidates ==> a.RemoveScope?
  {
    hide Inv, Act, Moves, Counts, RecordOk, HoldsCompletion;
    RecordsHold(s);
    RecordHolds(s, c);
    if a.ClaimWork? || a.Succeed? || a.Fail? || a.Recover? || a.Repair? {
      WorkerMoves(s, a, c);
    } else if Concludes(a) {
      ConclusionMoves(s, a, c);
    } else if a.ClaimResult? || CompletionStep(a) {
      PreparationMoves(s, a, c);
    } else {
      UserMoves(s, a, c);
    }
  }

  /** A candidate record that was not there before is a fresh submission. */
  lemma ActAppears(s: System, a: Action, c: string)
    requires Inv(s) && c !in s.store.candidates && c in Act(s, a).store.candidates
    ensures a.Submit? && a.candidateId == c && c !in s.used
    ensures Act(s, a).store.candidates[c] == NewCandidate(c, a.scopeId, a.maxAttempts, s.now)
      && Act(s, a).completions == s.completions
  {
    hide Inv, Act;
    RecordsHold(s);
    assert forall d :: Filed(s.store, d);
    if a.ClaimWork? || a.Succeed? || a.Fail? || a.Recover? || a.Repair? {
      WorkerAddsNone(s, a);
    } else if Concludes(a) {
      ConclusionAddsNone(s, a);
    } else if a.ClaimResult? || CompletionStep(a) {
      PreparationAddsNone(s, a);
    } else {
      OnlySubmitAdds(s, a, c);
    }
  }

  /** A record is filed under its own identifier. */
  predicate Filed(st: Store, d: string) {
    d in st.candidates ==> st.candidates[d].candidateId == d
  }

  lemma WorkerKeys(st: Store, d: string, id: AttemptId, jobId: string, number: int, token: string, trades: seq<Trade>,
          retrying: bool, now: int, lease: int, error: string)
    requires Filed(st, d)
    ensures ClaimWorkerAttempt(st, d, jobId, number, token, now, lease).Some? ==>
      ClaimWorkerAttempt(st, d, jobId, number, token, now, lease).value.0.candidates.Keys == st.candidates.Keys
    ensures OrElse(PersistWorkerSuccess(st, d, id, token, trades, now), st).candidates.Keys == st.candidates.Keys
    ensures OrElse(FailWorkerAttempt(st, d, id, token, retrying, now, error), st).candidates.Keys == st.candidates.Keys
  {
  }

  lemma ReconcilerKeys(st: Store, d: string, now: int, error: string)
    requires Filed(st, d)
    ensures RecoverAbandonedAttempt(st, d, now, error).0.candidates.Keys == st.candidates.Keys
    ensures RepairTerminalQueueFailure(st, d, error, now).candidates.Keys == st.candidates.Keys
  {
    hide FirstRunning, HasAttempt, SyntheticAttempt, Abort;
  }

  lemma CompletionKeys(st: Store, claim: CompletionClaim, e: string, retryAt: Option<int>, now: int, error: string)
    requires Filed(st, claim.candidate.candidateId)
    ensures OrElse(FinalizeCompletion(st, claim, e, now), st).candidates.Keys == st.candidates.Keys
    ensures OrElse(FinalizeTerminalFailure(st, claim, now), st).candidates.Keys == st.candidates.Keys
    ensures OrElse(FailCompletion(st, claim, retryAt, now, error), st).candidates.Keys == st.candidates.Keys
  {
  }

  lemma WorkerAddsNone(s: System, a: Action)
    requires (forall d :: Filed(s.store, d)) && (a.ClaimWork? || a.Succeed? || a.Fail? || a.Recover? || a.Repair?)
    ensures Act(s, a).store.candidates.Keys == s.store.candidates.Keys
  {
    hide ClaimWorkerAttempt, PersistWorkerSuccess, FailWorkerAttempt, RecoverAbandonedAttempt,
      RepairTerminalQueueFailure, OrElse, Filed;
    match a
    case ClaimWork(jobId, number, token) =>
      if jobId in s.store.dispatches {
        var job := s.store.dispatches[jobId].job;
        WorkerKeys(s.store, job.candidateId, Recovery(""), job.jobId, number, token, [], false, s.now,
          s.now + LEASE_MS, "");
      }
    case Succeed(token, trades) =>
      if token in s.claims {
        var w := s.claims[token];
        WorkerKeys(s.store, w.candidate.candidateId, w.attempt.attemptId, "", 0, token, trades, false, s.now, 0, "");
      }
    case Fail(token, error) =>
      if token in s.claims {
        var w := s.claims[token];
        WorkerKeys(s.store, w.candidate.candidateId, w.attempt.attemptId, "", 0, token, [],
          w.attempt.attemptNumber < w.candidate.maxAttempts, s.now, 0, error);
      }
    case Recover(d, error) => ReconcilerKeys(s.store, d, s.now, error);
    case Repair(d, error) => ReconcilerKeys(s.store, d, s.now, error);
  }

  lemma PreparationAddsNone(s: System, a: Action)
    requires (forall d :: Filed(s.store, d)) && (a.ClaimResult? || a.LoadAttempt? || a.LoadTrades? || a.Stage?)
    ensures Act(s, a).store.candidates.Keys == s.store.candidates.Keys
  {
    hide LatestDone, ListTrades, FindExperiment;
    if a.ClaimResult? { assert Filed(s.store, a.candidateId); }
  }

  lemma ConclusionAddsNone(s: System, a: Action)
    requires (forall d :: Filed(s.store, d)) && Concludes(a)
    ensures Act(s, a).store.candidates.Keys == s.store.candidates.Keys
  {
    hide FinalizeCompletion, FinalizeTerminalFailure, FailCompletion, OrElse, Filed;
    if a.token in s.completions {
      var job := s.completions[a.token];
      var e := if job.phase.Staged? then job.phase.experiment.id else "";
      var retryAt, error := if a.GiveUp? then a.retryAt else None, if a.GiveUp? then a.error else "";
      CompletionKeys(s.store, job.claim, e, retryAt, s.now, error);
    }
  }

  lemma OnlySubmitAdds(s: System, a: Action, c: string)
    requires a.Submit? || a.Cancel? || a.CancelDispatch? || a.DispatchSent? || a.DispatchLost? || a.RemoveScope?
      || a.Rescore?
    requires c !in s.store.candidates && c in Act(s, a).store.candidates && RecordsOk(s)
    ensures a.Submit? && a.candidateId == c && c !in s.used
    ensures Act(s, a).store.candidates[c] == NewCandidate(c, a.scopeId, a.maxAttempts, s.now)
      && Act(s, a).completions == s.completions
  {
  }

  // ---------------------------------------------------------------- what is never forgotten

  /**
   * Completed attempts with their trades are never changed or dropped; nor are experiments, except that they may be
   * scored anew.
   */
  ghost predicate Retains(st: Store, after: Store) {
    && (forall id | id in st.trades ::
          id in after.trades && after.trades[id] == st.trades[id]
          && (id in st.attempts ==> id in after.attempts && after.attempts[id] == st.attempts[id]))
    && (forall e | e in st.experiments ::
      e in after.experiments && SameButScore(st.experiments[e], after.experiments[e]))
  }

  /** So are the identifiers issued and the claims handed out. */
  ghost predicate Remembers(s: System, r: System) {
    && Retains(s.store, r.store) && s.used <= r.used
    && (forall t | t in s.claims :: t in r.claims && r.claims[t] == s.claims[t])
    && (forall t | t in s.completions :: t in r.completions && r.completions[t].claim == s.completions[t].claim)
  }

  lemma RemembersTransitive(s: System, m: System, r: System)
    requires Remembers(s, m) && Remembers(m, r) && Inv(s)
    ensures Remembers(s, r)
  {
    OnlyAttemptsTrade(s);
    hide Inv;
  }

  /** An attempt that has no trades yet may be rewritten, and may then receive them. */
  lemma RewriteRetains(st: Store, after: Store, id: AttemptId)
    requires id !in st.trades && after.experiments == st.experiments
    requires forall x | x in st.attempts && x != id :: x in after.attempts && after.attempts[x] == st.attempts[x]
    requires forall x | x in st.trades && x != id :: x in after.trades && after.trades[x] == st.trades[x]
    ensures Retains(st, after)
  {
  }

  lemma ClaimWorkRetains(s: System, d: string, number: int, token: string)
    requires Inv(s) && ClaimWorkerAttempt(s.store, d, d, number, token, s.now, s.now + LEASE_MS).Some?
    ensures Retains(s.store, ClaimWorkerAttempt(s.store, d, d, number, token, s.now, s.now + LEASE_MS).value.0)
  {
    hide Inv, RecordOk, Retains;
    BacktestingIsEarly(s.store, d, number, token, s.now);
    Claimable(s, d);
    AttemptOwners(s);
    assert Delivery(d, number) !in s.store.trades;
    RewriteRetains(s.store, ClaimWorkerAttempt(s.store, d, d, number, token, s.now, s.now + LEASE_MS).value.0,
      Delivery(d, number));
  }

  lemma OutcomeRetains(s: System, d: string, id: AttemptId, token: string, trades: seq<Trade>, retrying: bool,
          error: string)
    requires Inv(s)
    ensures Retains(s.store, OrElse(PersistWorkerSuccess(s.store, d, id, token, trades, s.now), s.store))
    ensures Retains(s.store, OrElse(FailWorkerAttempt(s.store, d, id, token, retrying, s.now, error), s.store))
  {
    hide Inv, Leads, AttemptOk;
    if HoldsFence(s.store, d, id, token) {
      FenceHolder(s, d, id, token);
      AttemptOwners(s);
      NotDoneHasNoTrades(s, id);
      RewriteRetains(s.store, PersistWorkerSuccess(s.store, d, id, token, trades, s.now).value, id);
      RewriteRetains(s.store, FailWorkerAttempt(s.store, d, id, token, retrying, s.now, error).value, id);
    }
  }

  lemma NotDoneHasNoTrades(s: System, id: AttemptId)
    requires Inv(s) && (id in s.store.attempts ==> !s.store.attempts[id].status.Done?)
    ensures id !in s.store.trades
  {
    OnlyAttemptsTrade(s);
    hide CandidatesOk, ExperimentsOk, CompletionsOk, ClaimsOk, Compatible;
    if id in s.store.attempts { assert AttemptOk(s.store.trades, s.claims, s.used, id, s.store.attempts[id]); }
  }

  lemma RecoverRetains(s: System, d: string, error: string)
    requires Inv(s)
    ensures Retains(s.store, RecoverAbandonedAttempt(s.store, d, s.now, error).0)
  {
    hide Inv, FirstRunning, HasAttempt, Leads;
    var r := RecoverAbandonedAttempt(s.store, d, s.now, error);
    if r.1 {
      RecoveryFindsActive(s, d);
      var id := Delivery(d, s.store.candidates[d].activeAttemptNumber.value);
      NotDoneHasNoTrades(s, id);
      RunningIsDelivery(s, id, d);
      RewriteRetains(s.store, r.0, id);
    }
  }

  lemma RepairRetains(s: System, d: string, error: string)
    requires Inv(s)
    ensures Retains(s.store, RepairTerminalQueueFailure(s.store, d, error, s.now))
  {
    hide Inv, FirstRunning, AttemptOk;
    var st, r := s.store, RepairTerminalQueueFailure(s.store, d, error, s.now);
    var running := FirstRunning(st.attempts, st.attemptOrder, d, None);
    AttemptOwners(s);
    var id := if running.Some? then running.value else Recovery(d);
    if running.Some? || !HasAttempt(st.attempts, d) {
      NotDoneHasNoTrades(s, id);
      RewriteRetains(st, r, id);
    }
  }

  lemma WorkerRemembers(s: System, a: Action)
    requires Inv(s) && (a.ClaimWork? || a.Succeed? || a.Fail? || a.Recover? || a.Repair?)
    ensures Remembers(s, Act(s, a))
  {
    hide Inv, ClaimWorkerAttempt, PersistWorkerSuccess, FailWorkerAttempt, RecoverAbandonedAttempt,
      RepairTerminalQueueFailure, OrElse;
    match a
    case ClaimWork(jobId, number, token) =>
      if token !in s.used && jobId in s.store.dispatches {
        var job := s.store.dispatches[jobId].job;
        UnusedUnclaimed(s, token);
        JobsNamed(s);
        if ClaimWorkerAttempt(s.store, job.candidateId, jobId, number, token, s.now, s.now + LEASE_MS).Some? {
          JobOfClaim(s, jobId, number, token);
          ClaimWorkRetains(s, jobId, number, token);
        }
      }
    case Succeed(token, trades) =>
      if token in s.claims {
        OutcomeRetains(s, s.claims[token].candidate.candidateId, s.claims[token].attempt.attemptId, token, trades,
          false, "");
      }
    case Fail(token, error) =>
      if token in s.claims {
        var w := s.claims[token];
        OutcomeRetains(s, w.candidate.candidateId, w.attempt.attemptId, token, [],
          w.attempt.attemptNumber < w.candidate.maxAttempts, error);
      }
    case Recover(d, error) => RecoverRetains(s, d, error);
    case Repair(d, error) => RepairRetains(s, d, error);
  }

  lemma StageRetains(st: Store, x: Experiment)
    requires x.id !in st.experiments
    ensures Retains(st, StageExperiment(st, x).0)
  {
    hide FindExperiment;
  }

  lemma StagingRemembers(s: System, a: Action)
    requires Inv(s) && a.Stage?
    ensures Remembers(s, Act(s, a))
  {
    hide Inv, StageExperiment, Retains;
    ExperimentIds(s);
    RetainsItself(s.store);
    if a.experimentId !in s.used && a.token in s.completions && s.completions[a.token].phase.Listed? {
      var job := s.completions[a.token];
      var x :=
        Experiment(a.experimentId, job.claim.candidate.candidateId, job.phase.attempt.attemptId, job.phase.trades,
        a.score, a.eligible);
      StageRetains(s.store, x);
    }
  }

  lemma RetainsItself(st: Store)
    ensures Retains(st, st)
  {
  }

  lemma PreparationRemembers(s: System, a: Action)
    requires Inv(s) && (a.ClaimResult? || a.LoadAttempt? || a.LoadTrades?)
    ensures Remembers(s, Act(s, a))
  {
    hide Inv, LatestDone, ListTrades;
    if a.ClaimResult? && a.token !in s.used { UnusedUnclaimed(s, a.token); }
  }

  lemma ConclusionRemembers(s: System, a: Action)
    requires Concludes(a)
    ensures Remembers(s, Act(s, a))
  {
  }

  /** No action forgets or rewrites a completed attempt, its trades, an experiment, an identifier or a claim. */
  lemma ActRemembers(s: System, a: Action)
    requires Inv(s)
    ensures Remembers(s, Act(s, a))
  {
    if a.ClaimWork? || a.Succeed? || a.Fail? || a.Recover? || a.Repair? {
      hide *;
      WorkerRemembers(s, a);
    } else if Concludes(a) {
      hide *;
      ConclusionRemembers(s, a);
    } else if a.Stage? {
      hide *;
      StagingRemembers(s, a);
    } else if a.ClaimResult? || a.LoadAttempt? || a.LoadTrades? {
      hide *;
      PreparationRemembers(s, a);
    } else {
      hide Inv;
    }
  }
}
