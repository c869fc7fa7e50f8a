/** What the steps of a completion worker do to the stored records. */
module CandidateResults {
  import opened Wrappers
  import opened CandidateStore
  import opened CandidateProtocol
  import opened CandidateInvariant
  import opened CandidateSteps
  import opened CandidateHistory
  import opened CandidateTheorems
  import opened CandidateOutcomes

  /** Exactly this candidate record differs. */
  predicate Rewritten(st: Store, r: Store, c: string, k: Candidate) {
    r == st.(candidates := st.candidates[c := k])
  }

  /** A result, or a failure, awaits completion: it is due, nobody holds it, and a completion attempt is left. */
  predicate AwaitsCompletion(k: Candidate, now: int) {
    && (k.status.ProcessingResult? || k.status.TerminalFailurePending?)
    && (k.completionNextRetryAt.Some? ==> k.completionNextRetryAt.value <= now)
    && (k.activeCompletionLeaseExpiresAt.Some? ==> k.activeCompletionLeaseExpiresAt.value <= now)
    && k.completionAttemptCount < 5
  }

  /** A completion claim is granted exactly then, for one lease. */
  lemma ClaimResultEffect(s: System, c: string, token: string)
    requires IsReachable(s) && token !in s.used
    ensures var st, m := s.store, Act(s, ClaimResult(c, token));
      && (token in m.completions <==> c in st.candidates && AwaitsCompletion(st.candidates[c], s.now))
      && (token !in m.completions ==> m.store == st)
      && (token in m.completions ==>
            var k, job := st.candidates[c], m.completions[token];
            && job.claim.claimToken == token && job.phase.Claimed? && Rewritten(st, m.store, c, job.claim.candidate)
            && job.claim.candidate == k.(
                 completionAttemptCount := k.completionAttemptCount + 1,
                   completionGeneration := k.completionGeneration + 1,
                 activeCompletionClaimToken := Some(token), activeCompletionLeaseExpiresAt := Some(s.now + 60_000),
                 completionNextRetryAt := None, updatedAt := s.now))
  {
    hide Inv, IsReachable, AttemptsFit, CompletionsFit;
    ReachableInv(s);
    UnusedUnclaimed(s, token);
    if c in s.store.candidates { RecordHolds(s, c); }
  }

  /** A candidate record no completion worker holds. */
  function Unheld(k: Candidate, status: Status, now: int): Candidate {
    k.(status := status, activeCompletionClaimToken := None, activeCompletionLeaseExpiresAt := None,
       completionNextRetryAt := None, updatedAt := now)
  }

  lemma HeldRecord(s: System, t: string)
    requires IsReachable(s) && Held(s, t)
    ensures var c := s.completions[t].claim.candidate.candidateId;
      && c in s.store.candidates && s.store.candidates[c].candidateId == c
      && s.store.candidates[c].completionMaxAttempts == 5
      && (var x := s.store.candidates[c].status; x.ProcessingResult? || x.TerminalFailurePending? || x.Cancelled?)
  {
    hide Inv, IsReachable;
    ReachableInv(s);
    var c := s.completions[t].claim.candidate.candidateId;
    RecordHolds(s, c);
  }

  /** A staged result completes its candidate exactly under a claim that holds on a result in processing. */
  lemma FinalizeEffect(s: System, t: string)
    requires IsReachable(s) && t in s.completions
    ensures var st, r, job := s.store, Act(s, Finalize(t)).store, s.completions[t];
      var c := job.claim.candidate.candidateId;
      if Held(s, t) && job.phase.Staged? && st.candidates[c].status.ProcessingResult? then
        Rewritten(st, r, c,
          Unheld(st.candidates[c], CompletedStatus, s.now).(experimentResultId := Some(job.phase.experiment.id)))
      else r == st
  {
    if Held(s, t) { HeldRecord(s, t); }
    hide IsReachable;
  }

  /** A failure is concluded exactly under a claim that holds and was taken on a pending failure. */
  lemma FinalizeFailureEffect(s: System, t: string)
    requires IsReachable(s) && t in s.completions
    ensures var st, r, claim := s.store, Act(s, FinalizeFailure(t)).store, s.completions[t].claim;
      var c := claim.candidate.candidateId;
      if Held(s, t) && claim.candidate.status.TerminalFailurePending?
        && st.candidates[c].status.TerminalFailurePending? then
        Rewritten(st, r, c, Unheld(st.candidates[c], FailedStatus, s.now))
      else r == st
  {
    if Held(s, t) { HeldRecord(s, t); }
    hide IsReachable;
  }

  /**
   * A failure of the fifth completion fails the candidate; an earlier one has the result processed again from the retry
   * time on.
   */
  lemma GiveUpEffect(s: System, t: string, retryAt: Option<int>, error: string)
    requires IsReachable(s) && t in s.completions
    ensures var st, r := s.store, Act(s, GiveUp(t, retryAt, error)).store;
      var c := s.completions[t].claim.candidate.candidateId;
      if !Held(s, t) then r == st
      else if st.candidates[c].completionAttemptCount == 5 then
        Rewritten(st, r, c,
          Unheld(st.candidates[c], FailedStatus, s.now).(
            failureKind := Some(CompletionProcessing), failureCode := Some("COMPLETION_PROCESSING_FAILED"),
              lastError := Some(error)))
      else
        && st.candidates[c].completionAttemptCount < 5
        && Rewritten(st, r, c,
             Unheld(st.candidates[c], ProcessingResult, s.now).(completionNextRetryAt := retryAt,
               lastError := Some(error)))
  {
    if Held(s, t) {
      HeldRecord(s, t);
      ReachableInv(s);
      RecordHolds(s, s.completions[t].claim.candidate.candidateId);
    }
    hide IsReachable, Inv;
  }

  // ---------------------------------------------------------------- reading the result

  /** A worker on a result in processing reads the candidate's completed attempt, if there is one; nothing is stored. */
  lemma LoadAttemptEffect(s: System, t: string)
    requires IsReachable(s) && t in s.completions && s.completions[t].phase.Claimed?
    ensures var c, m := s.completions[t].claim.candidate.candidateId, Act(s, LoadAttempt(t));
      && m.store == s.store && t in m.completions && m.completions[t].claim == s.completions[t].claim
      && (m.completions[t].phase.Loaded? <==>
            s.completions[t].claim.candidate.status.ProcessingResult? && exists id :: DoneFor(s.store.attempts, id, c))
      && (!m.completions[t].phase.Loaded? ==> m.completions[t].phase.Claimed?)
      && (m.completions[t].phase.Loaded? ==>
            forall id :: DoneFor(s.store.attempts, id, c) ==> m.completions[t].phase.attempt == s.store.attempts[id])
  {
    hide Inv, IsReachable, LatestDone, DoneFor;
    ReachableInv(s);
    LatestIsOnly(s, s.completions[t].claim.candidate.candidateId);
  }

  lemma LatestIsOnly(s: System, c: string)
    requires Inv(s)
    ensures var found := LatestDone(s.store.attempts, s.store.attemptOrder, c);
      && (found.Some? <==> exists id :: DoneFor(s.store.attempts, id, c))
      && (found.Some? ==> found.value in s.store.attempts)
      && (forall id :: DoneFor(s.store.attempts, id, c) ==> id in s.store.attempts && found == Some(id))
  {
    AttemptOwners(s);
    AttemptsOrdered(s);
    hide Inv, LatestDone;
    var found := LatestDone(s.store.attempts, s.store.attemptOrder, c);
    forall id | DoneFor(s.store.attempts, id, c)
      ensures found == Some(id)
    {
      OneDone(s, id, found.value);
    }
  }

  lemma AttemptsOrdered(s: System)
    requires Inv(s)
    ensures forall id | id in s.store.attempts :: id in s.store.attemptOrder
  {
    hide CandidatesOk, ExperimentsOk, CompletionsOk, ClaimsOk, AttemptOk, Compatible;
  }

  /** Then it reads the trades stored for that attempt; nothing is stored. */
  lemma LoadTradesEffect(s: System, t: string)
    requires IsReachable(s) && t in s.completions && s.completions[t].phase.Loaded?
    ensures var id := s.completions[t].phase.attempt.attemptId; var m := Act(s, LoadTrades(t));
      && m.store == s.store && id in s.store.trades
      && m.completions
        == s.completions[t := s.completions[t].(phase := Listed(s.completions[t].phase.attempt, s.store.trades[id]))]
  {
    hide Inv, IsReachable;
    ReachableInv(s);
    CompletionHere(s, t);
  }

  /**
   * Then it stages an experiment with what it read, unless the candidate has one already, which it then goes on with.
   */
  lemma StageEffect(s: System, t: string, e: string, score: real, eligible: bool)
    requires IsReachable(s) && t in s.completions && s.completions[t].phase.Listed? && e !in s.used
    ensures var st, m, job := s.store, Act(s, Stage(t, e, score, eligible)), s.completions[t];
      var c := job.claim.candidate.candidateId;
      && t in m.completions && m.completions[t].claim == job.claim && m.completions[t].phase.Staged?
      && var x := m.completions[t].phase.experiment;
      if exists f | f in st.experiments :: st.experiments[f].candidateId == c then
        m.store == st && x.id in st.experiments && st.experiments[x.id] == x && x.candidateId == c
      else
        && m.store == st.(experiments := st.experiments[e := x])
        && x == Experiment(e, c, job.phase.attempt.attemptId, job.phase.trades, score, eligible)
  {
    hide Inv, IsReachable, FindExperiment;
    ReachableInv(s);
    ExperimentIds(s);
    AnyExperiment(s.store, s.completions[t].claim.candidate.candidateId);
  }

  lemma AnyExperiment(st: Store, c: string)
    ensures var found := FindExperiment(st, c);
      && (found.Some? <==> exists f | f in st.experiments :: st.experiments[f].candidateId == c)
      && (found.Some? ==> found.value in st.experiments && st.experiments[found.value].candidateId == c)
  {
    if f :| f in st.experiments && st.experiments[f].candidateId == c { assert ExperimentFor(st, f, c); }
  }

  /** Rating a stored experiment anew changes its two scores. */
  lemma RescoreEffect(s: System, e: string, score: real, eligible: bool)
    ensures var st, r := s.store, Act(s, Rescore(e, score, eligible)).store;
      if e !in st.experiments then r == st
      else
        && e in r.experiments && r == st.(experiments := st.experiments[e := r.experiments[e]])
        && SameButScore(st.experiments[e], r.experiments[e])
        && r.experiments[e].overallScore == score && r.experiments[e].rankEligible == eligible
  {
  }
}
