/** What every action does to the stored records, and to no others. */
module CandidateEffects {
  import opened Wrappers
  import opened CandidateStore
  import opened CandidateProtocol
  import opened CandidateInvariant
  import opened CandidateSteps
  import opened CandidateHistory
  import opened CandidateTheorems
  import opened CandidateOutcomes
  import opened CandidateCounters

  // ---------------------------------------------------------------- what differs between two stores

  /** Of all tables but the dispatches, exactly this candidate and this attempt have changed. */
  ghost predicate Only(st: Store, r: Store, c: string, k: Candidate, id: AttemptId, a: Attempt) {
    && r.candidates == st.candidates[c := k] && r.attempts == st.attempts[id := a]
    && r.trades == st.trades && r.experiments == st.experiments
  }

  /** A candidate that no worker holds, at this time. */
  function Freed(k: Candidate, status: Status, now: int): Candidate {
    k.(status := status, activeAttemptNumber := None, activeFenceToken := None, activeLeaseExpiresAt := None,
      updatedAt := now)
  }

  function Ended(a: Attempt, now: int, category: FailureCategory, error: string): Attempt {
    a.(status := Aborted, completedAt := Some(now), leaseExpiresAt := None,
       failureCategory := Some(category), failureCode := Some(error))
  }

  /** Every claim ever handed out bears the maximum of attempts that its candidate still has. */
  ghost predicate MaximaMatch(s: System) {
    forall t | t in s.claims && s.claims[t].candidate.candidateId in s.store.candidates ::
      s.claims[t].candidate.maxAttempts == s.store.candidates[s.claims[t].candidate.candidateId].maxAttempts
  }

  // ---------------------------------------------------------------- submission and dispatch

  /** A submission is queued with its dispatch pending; a used identifier or no attempt at all is refused. */
  lemma SubmitEffect(s: System, c: string, scopeId: string, maxAttempts: int)
    ensures var st, r := s.store, Act(s, Submit(c, scopeId, maxAttempts)).store;
      if c in s.used || maxAttempts < 1 then r == st
      else
        && c in r.candidates && c in r.dispatches
        && r == st.(candidates := st.candidates[c := r.candidates[c]],
          dispatches := st.dispatches[c := r.dispatches[c]])
        && r.dispatches[c] == Dispatch(Job(c, c, maxAttempts), Pending, 0, None, s.now)
        && var k := r.candidates[c];
        && k.candidateId == c == k.queueJobId && k.leaderboardScopeId == scopeId && k.maxAttempts == maxAttempts
        && k.status.Queued? && k.activeFenceToken.None? && k.activeLeaseExpiresAt.None?
          && k.activeCompletionClaimToken.None?
        && k.executionGeneration == 0 == k.completionGeneration && k.completionAttemptCount == 0
          && k.completionMaxAttempts == 5
        && k.experimentResultId.None? && k.completionNextRetryAt.None? && k.failureKind.None?
  {
  }

  /** A dispatch that is not cancelled is marked sent. */
  lemma SentEffect(s: System, d: string)
    ensures var st, r := s.store, Act(s, DispatchSent(d)).store;
      if d !in st.dispatches || st.dispatches[d].state.DispatchCancelled? then r == st
      else
        && d in r.dispatches && r == st.(dispatches := st.dispatches[d := r.dispatches[d]])
        && r.dispatches[d].state == Dispatched && r.dispatches[d].lastError.None?
          && r.dispatches[d].job == st.dispatches[d].job
        && r.dispatches[d].dispatchAttempts == st.dispatches[d].dispatchAttempts + 1
  {
  }

  /** A dispatch that is not cancelled is put back with the error. */
  lemma LostEffect(s: System, d: string, error: string)
    ensures var st, r := s.store, Act(s, DispatchLost(d, error)).store;
      if d !in st.dispatches || st.dispatches[d].state.DispatchCancelled? then r == st
      else
        && d in r.dispatches && r == st.(dispatches := st.dispatches[d := r.dispatches[d]])
        && r.dispatches[d].state == Pending && r.dispatches[d].lastError == Some(error)
        && r.dispatches[d].job == st.dispatches[d].job
        && r.dispatches[d].dispatchAttempts == st.dispatches[d].dispatchAttempts + 1
  {
  }

  /** A dispatch is cancelled and keeps its history. */
  lemma DispatchCancelEffect(s: System, d: string)
    ensures var st, r := s.store, Act(s, CancelDispatch(d)).store;
      if d !in st.dispatches then r == st
      else r == st.(dispatches := st.dispatches[d := st.dispatches[d].(state := DispatchCancelled, updatedAt := s.now)])
  {
  }

  /**
   * A live candidate is cancelled together with its dispatch; a worker that holds it keeps its fence but not its lease.
   */
  lemma CancelEffect(s: System, c: string)
    requires IsReachable(s)
    ensures var st, r := s.store, Act(s, Cancel(c)).store;
      if c !in st.candidates || Terminal(st.candidates[c].status) then r == st
      else
        var k := st.candidates[c];
        && c in st.dispatches
        && r == st.(
             candidates := st.candidates[c := k.(
               status := Cancelled, activeLeaseExpiresAt := None, updatedAt := s.now,
               activeFenceToken := if k.status.Backtesting? then k.activeFenceToken else None)],
             dispatches := st.dispatches[c := st.dispatches[c].(state := DispatchCancelled, updatedAt := s.now)])
  {
    ReachableInv(s);
    if c in s.store.candidates {
      RecordHolds(s, c);
      Registered(s, c);
      hide Inv, CandidateOk;
    }
  }

  /** Exactly the candidates of the scope are removed. */
  lemma RemoveEffect(s: System, scopeId: string)
    ensures var st, r := s.store, Act(s, RemoveScope(scopeId)).store;
      && r == st.(candidates := r.candidates)
      && (forall c :: c in r.candidates <==> c in st.candidates && st.candidates[c].leaderboardScopeId != scopeId)
      && (forall c | c in r.candidates :: r.candidates[c] == st.candidates[c])
  {
  }

  // ---------------------------------------------------------------- work

  /** Work may be claimed on a candidate that waits for it, or whose worker's lease has run out. */
  predicate AwaitsWork(k: Candidate, now: int) {
    k.status.Queued? || k.status.RetryWait? || (k.status.Backtesting? && ExpiredOrAbsent(k.activeLeaseExpiresAt, now))
  }

  /** What a granted claim hands out and stores: the attempt runs under the new token for one lease. */
  ghost predicate Handed(st: Store, r: Store, w: WorkerClaim, c: string, number: int, token: string, now: int) {
    && c in st.candidates
    && var id, k, a := Delivery(c, number), st.candidates[c], w.attempt;
    && w.fenceToken == token && Only(st, r, c, w.candidate, id, a) && r.dispatches == st.dispatches
    && w.candidate == k.(
         status := Backtesting, activeAttemptNumber := Some(number), executionGeneration := k.executionGeneration + 1,
         activeFenceToken := Some(token), activeLeaseExpiresAt := Some(now + 60_000), updatedAt := now)
    && a.attemptId == id && a.candidateId == c && a.attemptNumber == number == a.deliveryAttemptCount
    && a.status.Running? && a.fenceToken == Some(token) && a.leaseExpiresAt == Some(now + 60_000)
    && a.completedAt.None? && a.failureCategory.None? && a.failureCode.None?
    && a.startedAt == (if id in st.attempts then st.attempts[id].startedAt else now)
  }

  lemma ClaimHands(st: Store, c: string, number: int, token: string, now: int)
    requires c in st.candidates && st.candidates[c].candidateId == c == st.candidates[c].queueJobId
    requires Delivery(c, number) in st.attempts ==>
      var a := st.attempts[Delivery(c, number)];
        a.attemptId == Delivery(c, number) && a.candidateId == c && a.attemptNumber == number
    ensures var r := ClaimWorkerAttempt(st, c, c, number, token, now, now + 60_000);
      && (r.Some? <==> AwaitsWork(st.candidates[c], now))
      && (r.Some? ==> Handed(st, r.value.0, r.value.1, c, number, token, now))
  {
  }

  lemma NotItsJob(st: Store, c: string, d: string, number: int, token: string, now: int)
    requires c in st.candidates ==> st.candidates[c].queueJobId != d
    ensures ClaimWorkerAttempt(st, c, d, number, token, now, now + 60_000).None?
  {
  }

  /** A claim is granted exactly on such a candidate. */
  lemma ClaimWorkEffect(s: System, d: string, number: int, token: string)
    requires IsReachable(s) && token !in s.used && d in s.store.dispatches
      && 1 <= number <= s.store.dispatches[d].job.maxAttempts
    ensures var st, m := s.store, Act(s, ClaimWork(d, number, token));
      && (token in m.claims <==> d in st.candidates && AwaitsWork(st.candidates[d], s.now))
      && (token !in m.claims ==> m.store == st)
      && (token in m.claims ==> Handed(st, m.store, m.claims[token], d, number, token, s.now))
  {
    hide Inv, ClaimWorkerAttempt, AwaitsWork, Handed, IsReachable, AttemptsFit, CompletionsFit;
    ReachableInv(s);
    UnusedUnclaimed(s, token);
    JobsNamed(s);
    var c := s.store.dispatches[d].job.candidateId;
    if d in s.store.candidates {
      RecordHolds(s, d);
      Registered(s, d);
      if Delivery(d, number) in s.store.attempts { AttemptNumbered(s, Delivery(d, number)); }
      ClaimHands(s.store, d, number, token, s.now);
    } else {
      if c in s.store.candidates { RecordHolds(s, c); }
      NotItsJob(s.store, c, d, number, token, s.now);
    }
  }

  lemma AttemptNumbered(s: System, id: AttemptId)
    requires Inv(s) && id in s.store.attempts && id.Delivery?
    ensures var a := s.store.attempts[id];
      a.attemptId == id && a.candidateId == id.candidateId && a.attemptNumber == id.number
  {
    hide CandidatesOk, ExperimentsOk, CompletionsOk, ClaimsOk, Compatible;
    assert AttemptOk(s.store.trades, s.claims, s.used, id, s.store.attempts[id]);
  }

  /** The attempt that a fence protects. */
  lemma FencedAttempt(s: System, token: string)
    requires IsReachable(s) && token in s.claims
    ensures var w := s.claims[token]; var c, id := w.candidate.candidateId, w.attempt.attemptId;
      ActiveFence(s.store, c, token) ==>
        && HoldsFence(s.store, c, id, token) && s.store.candidates[c].candidateId == c
          && s.store.attempts[id].attemptId == id
        && id.Delivery? && s.store.candidates[c].activeAttemptNumber == Some(id.number) && id == Delivery(c, id.number)
        && s.store.attempts[id].attemptNumber == id.number == w.attempt.attemptNumber
          && s.store.attempts[id].status.Running?
        && (s.store.candidates[c].status.Backtesting? || s.store.candidates[c].status.Cancelled?)
    ensures !ActiveFence(s.store, s.claims[token].candidate.candidateId, token) ==>
      !HoldsFence(s.store, s.claims[token].candidate.candidateId, s.claims[token].attempt.attemptId, token)
  {
    ReachableInv(s);
    FenceIsTheCandidateToken(s, token);
    var c, id := s.claims[token].candidate.candidateId, s.claims[token].attempt.attemptId;
    if ActiveFence(s.store, c, token) {
      FenceHolder(s, c, id, token);
      AttemptNumbered(s, id);
      RecordHolds(s, c);
      ClaimNumbered(s, token);
      hide Inv;
    }
  }

  lemma ClaimNumbered(s: System, token: string)
    requires Inv(s) && token in s.claims
    ensures var w := s.claims[token];
      w.attempt.attemptId.Delivery? && w.attempt.attemptNumber == w.attempt.attemptId.number
  {
    hide CandidatesOk, AttemptsOk, ExperimentsOk, CompletionsOk;
  }

  /**
   * A failure report under a fence that holds: the candidate waits for its next attempt, or has failed, or stays
   * cancelled.
   */
  lemma FailEffect(s: System, token: string, error: string)
    requires IsReachable(s) && token in s.claims
    ensures var w, st, r := s.claims[token], s.store, Act(s, Action.Fail(token, error)).store;
      var c, id := w.candidate.candidateId, w.attempt.attemptId;
      if !ActiveFence(st, c, token) then r == st
      else
        && c in st.candidates && id in st.attempts
        && var k, a := st.candidates[c], st.attempts[id];
        && r.dispatches == st.dispatches
        && if k.status.Cancelled?
          then Only(st, r, c, Freed(k, Cancelled, s.now), id, Ended(a, s.now, CancelledAudit, error))
           else if a.attemptNumber < k.maxAttempts then
             Only(st, r, c,
               Freed(k, RetryWait, s.now).(failureKind := None, failureCode := Some(error), lastError := Some(error)),
                  id, Ended(a, s.now, Retryable, error))
           else
             Only(st, r, c,
                  Freed(k, TerminalFailurePending, s.now)
                    .(failureKind := Some(RetryExhausted), failureCode := Some(error), lastError := Some(error)),
                  id, Ended(a, s.now, InfrastructureFailure, error))
  {
    FencedAttempt(s, token);
    ReachableMaxima(s);
    hide IsReachable;
  }

  /**
   * A success report under a fence that holds: the result awaits completion, or is kept as an audit of a cancelled
   * candidate.
   */
  lemma SucceedEffect(s: System, token: string, trades: seq<Trade>)
    requires IsReachable(s) && token in s.claims
    ensures var w, st, r := s.claims[token], s.store, Act(s, Succeed(token, trades)).store;
      var c, id := w.candidate.candidateId, w.attempt.attemptId;
      if !ActiveFence(st, c, token) then r == st
      else
        && c in st.candidates && id in st.attempts
        && var k, a := st.candidates[c], st.attempts[id];
        && r.dispatches == st.dispatches && r.experiments == st.experiments && r.trades == st.trades[id := trades]
        && r.attempts == st.attempts[id := a.(
             status := Done, completedAt := Some(s.now), tradeCount := |trades|, auditOnly := k.status.Cancelled?,
               leaseExpiresAt := None)]
        && r.candidates == st.candidates[c :=
             if k.status.Cancelled? then Freed(k, Cancelled, s.now)
             else Freed(k, ProcessingResult, s.now).(completionNextRetryAt := Some(s.now))]
  {
    FencedAttempt(s, token);
    hide IsReachable;
  }

  lemma MaximaStep(s: System, a: Action)
    requires Inv(s) && MaximaMatch(s)
    ensures MaximaMatch(Act(s, a))
  {
    hide Inv, Act, ClaimWorkerAttempt;
    var r := Act(s, a);
    forall t | t in r.claims && r.claims[t].candidate.candidateId in r.store.candidates
      ensures r.claims[t].candidate.maxAttempts == r.store.candidates[r.claims[t].candidate.candidateId].maxAttempts
    {
      var c := r.claims[t].candidate.candidateId;
      if t in s.claims {
        ActRemembers(s, a);
        ClaimedUsed(s, t);
        if c in s.store.candidates { ActMoves(s, a, c); } else { ActAppears(s, a, c); }
      } else {
        ClaimsFresh(s, a, t);
      }
    }
  }

  lemma ClaimedUsed(s: System, t: string)
    requires Inv(s) && t in s.claims
    ensures s.claims[t].candidate.candidateId in s.used
  {
    hide CandidatesOk, AttemptsOk, ExperimentsOk, CompletionsOk;
  }

  lemma ClaimsFresh(s: System, a: Action, t: string)
    requires Inv(s) && t !in s.claims && t in Act(s, a).claims
    ensures var r := Act(s, a); var c := r.claims[t].candidate.candidateId;
      c in r.store.candidates && r.claims[t].candidate == r.store.candidates[c]
  {
    RecordsHold(s);
    hide Inv;
    if a.ClaimWork? { FreshClaim(s, a, t); } else { OtherActsKeepClaims(s, a); }
  }

  lemma FreshClaim(s: System, a: Action, t: string)
    requires RecordsOk(s) && a.ClaimWork? && t !in s.claims && t in Act(s, a).claims
    ensures var r := Act(s, a); var c := r.claims[t].candidate.candidateId;
      c in r.store.candidates && r.claims[t].candidate == r.store.candidates[c]
  {
  }

  lemma {:induction false} MaximaRun(events: seq<Event>)
    ensures MaximaMatch(RunFrom(INITIAL, events))
    decreases |events|
  {
    hide Act, MaximaMatch;
    if events == [] {
      NoClaimsYet();
    } else {
      var m, e := RunFrom(INITIAL, events[..|events| - 1]), events[|events| - 1];
      MaximaRun(events[..|events| - 1]);
      InitialInv();
      LastStep(INITIAL, events);
      hide Inv;
      MaximaClock(m, e.at);
      if e.at >= m.now { MaximaStep(m.(now := e.at), e.action); }
    }
  }

  lemma NoClaimsYet()
    ensures MaximaMatch(INITIAL)
  {
  }

  lemma MaximaClock(s: System, at: int)
    requires MaximaMatch(s)
    ensures MaximaMatch(s.(now := at))
  {
  }

  lemma ReachableMaxima(s: System)
    requires IsReachable(s)
    ensures MaximaMatch(s)
  {
    hide MaximaMatch, RunFrom;
    var events :| s == RunFrom(INITIAL, events);
    MaximaRun(events);
  }

  // ---------------------------------------------------------------- recovery and repair

  /** The lease of a running candidate is over. */
  predicate Abandoned(k: Candidate, now: int) {
    k.status.Backtesting? && k.activeLeaseExpiresAt.Some? && k.activeLeaseExpiresAt.value <= now
  }

  /** What becomes of a dispatch whose candidate waits for another attempt. */
  function Reopened(d: Dispatch, error: string, now: int): Dispatch {
    if d.state.DispatchCancelled? then d else d.(state := Pending, lastError := Some(error), updatedAt := now)
  }

  /**
   * Recovery aborts the attempt of an abandoned candidate. With attempts left the candidate waits for the next one and
   * its dispatch is pending again; otherwise it is about to fail and its dispatch stays. Nothing else changes.
   */
  ghost predicate Recovered(st: Store, r: Store, c: string, error: string, now: int) {
    && c in st.candidates && c in st.dispatches
    && var k := st.candidates[c];
    && k.activeAttemptNumber.Some?
    && var id := Delivery(c, k.activeAttemptNumber.value);
    && id in st.attempts && st.attempts[id].fenceToken == k.activeFenceToken && k.activeFenceToken.Some?
    && var ended := Ended(st.attempts[id], now, InfrastructureFailure, error);
    && if k.activeAttemptNumber.value < k.maxAttempts then
         && Only(st, r, c, Freed(k, RetryWait, now).(failureKind := None, failureCode := None, lastError := None), id,
           ended)
         && r.dispatches == st.dispatches[c := Reopened(st.dispatches[c], error, now)]
       else
         && Only(st, r, c,
                 Freed(k, TerminalFailurePending, now)
                   .(failureKind := Some(Infrastructure), failureCode := Some(error), lastError := Some(error)), id,
                     ended)
         && r.dispatches == st.dispatches
  }

  lemma RecoverEffect(s: System, c: string, error: string)
    requires IsReachable(s)
    ensures var st, r := s.store, Act(s, Recover(c, error)).store;
      if c !in st.candidates || !Abandoned(st.candidates[c], s.now) then r == st else Recovered(st, r, c, error, s.now)
  {
    hide Inv, IsReachable, RecoverAbandonedAttempt, Recovered, FirstRunning, CandidateOk, RecordOk;
    ReachableInv(s);
    if c in s.store.candidates && Abandoned(s.store.candidates[c], s.now) {
      Abandonment(s, c);
      RecoveryFindsActive(s, c);
      AttemptNumbered(s, Delivery(c, s.store.candidates[c].activeAttemptNumber.value));
      RecoverRecords(s.store, c, s.now, error);
    } else {
      NothingToRecover(s.store, c, s.now, error);
    }
  }

  lemma Abandonment(s: System, c: string)
    requires Inv(s) && c in s.store.candidates && Abandoned(s.store.candidates[c], s.now)
    ensures var k := s.store.candidates[c];
      k.candidateId == c == k.queueJobId && k.activeFenceToken.Some? && c in s.store.dispatches
  {
    Registered(s, c);
    RecordHolds(s, c);
  }

  lemma RecoverRecords(st: Store, c: string, now: int, error: string)
    requires c in st.candidates && c in st.dispatches && Abandoned(st.candidates[c], now)
    requires var k := st.candidates[c];
      && k.candidateId == c == k.queueJobId && k.activeFenceToken.Some? && k.activeAttemptNumber.Some?
        && Leads(st.attempts, k)
      && var id := Delivery(c, k.activeAttemptNumber.value);
      && FirstRunning(st.attempts, st.attemptOrder, c, k.activeAttemptNumber) == Some(id)
      && id in st.attempts && st.attempts[id].attemptId == id
    ensures Recovered(st, RecoverAbandonedAttempt(st, c, now, error).0, c, error, now)
  {
    hide FirstRunning, HasAttempt, SyntheticAttempt;
    SameDispatch(st, c);
  }

  lemma NothingToRecover(st: Store, c: string, now: int, error: string)
    requires c !in st.candidates || !Abandoned(st.candidates[c], now)
    ensures RecoverAbandonedAttempt(st, c, now, error).0 == st
  {
  }

  lemma SameDispatch(st: Store, c: string)
    ensures c in st.dispatches ==> st.dispatches[c := st.dispatches[c]] == st.dispatches
  {
  }

  /**
   * Attempts of the candidate that were running may have ended; a synthetic record may have been added; one record is
   * there.
   */
  ghost predicate Settled(st: Store, r: Store, c: string, error: string, now: int) {
    && (forall id | id in st.attempts ::
          id in r.attempts
          && (r.attempts[id] == st.attempts[id]
              || (RunningFor(st.attempts, id, c, None)
                  && r.attempts[id] == Ended(st.attempts[id], now, InfrastructureFailure, error))))
    && (forall id | id in r.attempts && id !in st.attempts :: id == Recovery(c) && r.attempts[id].status.Aborted?)
    && (exists id | id in r.attempts :: id.candidateId == c)
  }

  /** Repair moves any live candidate that is not already failing there, whatever it was doing. */
  lemma RepairEffect(s: System, c: string, error: string)
    requires IsReachable(s)
    ensures var st, r := s.store, Act(s, Repair(c, error)).store;
      if c !in st.candidates || Terminal(st.candidates[c].status)
        || st.candidates[c].status.TerminalFailurePending? then r == st
      else
        && r.candidates == st.candidates[c := Freed(st.candidates[c], TerminalFailurePending, s.now)
             .(failureKind := Some(Infrastructure), failureCode := Some(error), lastError := Some(error))]
        && r.trades == st.trades && r.experiments == st.experiments && r.dispatches == st.dispatches
        && Settled(st, r, c, error, s.now)
  {
    ReachableInv(s);
    if c in s.store.candidates { RecordHolds(s, c); }
    AttemptOwners(s);
    hide Inv, IsReachable, Settled, RepairTerminalQueueFailure;
    RepairSettles(s.store, c, error, s.now);
    RepairRecords(s.store, c, error, s.now);
  }

  lemma RepairRecords(st: Store, c: string, error: string, now: int)
    requires c in st.candidates ==> st.candidates[c].candidateId == c
    ensures var r := RepairTerminalQueueFailure(st, c, error, now);
      c !in st.candidates || Terminal(st.candidates[c].status) || st.candidates[c].status.TerminalFailurePending? || (
        && r.candidates == st.candidates[c := Freed(st.candidates[c], TerminalFailurePending, now)
             .(failureKind := Some(Infrastructure), failureCode := Some(error), lastError := Some(error))]
        && r.trades == st.trades && r.experiments == st.experiments && r.dispatches == st.dispatches)
  {
    hide FirstRunning, SyntheticAttempt, HasAttempt, Abort;
  }

  lemma RepairSettles(st: Store, c: string, error: string, now: int)
    requires c in st.candidates ==> st.candidates[c].candidateId == c
    requires forall id | id in st.attempts ::
      st.attempts[id].candidateId == id.candidateId && st.attempts[id].attemptId == id
    ensures var r := RepairTerminalQueueFailure(st, c, error, now);
      if c !in st.candidates || Terminal(st.candidates[c].status)
        || st.candidates[c].status.TerminalFailurePending? then r == st
      else Settled(st, r, c, error, now)
  {
    hide FirstRunning, SyntheticAttempt, HasAttempt, Settled;
    var running, r := FirstRunning(st.attempts, st.attemptOrder, c, None),
      RepairTerminalQueueFailure(st, c, error, now);
    if c in st.candidates && !Terminal(st.candidates[c].status) && !st.candidates[c].status.TerminalFailurePending? {
      AnyAttempt(st.attempts, c, now, error);
      if running.Some? {
        Aborting(st, r, c, running.value, error, now);
      } else if HasAttempt(st.attempts, c) {
        Leaving(st, r, c, error, now);
      } else {
        Recording(st, r, c, SyntheticAttempt(c, now, error), error, now);
      }
    }
  }

  lemma Aborting(st: Store, r: Store, c: string, id: AttemptId, error: string, now: int)
    requires RunningFor(st.attempts, id, c, None) && id.candidateId == c
    requires r.attempts == st.attempts[id := Ended(st.attempts[id], now, InfrastructureFailure, error)]
    ensures Settled(st, r, c, error, now)
  {
    assert id in r.attempts;
  }

  lemma Leaving(st: Store, r: Store, c: string, error: string, now: int)
    requires (exists id | id in st.attempts :: id.candidateId == c) && r.attempts == st.attempts
    ensures Settled(st, r, c, error, now)
  {
  }

  lemma Recording(st: Store, r: Store, c: string, a: Attempt, error: string, now: int)
    requires a.attemptId == Recovery(c) && a.status.Aborted? && Recovery(c) !in st.attempts
    requires r.attempts == st.attempts[Recovery(c) := a]
    ensures Settled(st, r, c, error, now)
  {
    assert Recovery(c) in r.attempts;
  }

  lemma AnyAttempt(attempts: Attempts, c: string, now: int, error: string)
    requires forall id | id in attempts :: attempts[id].candidateId == id.candidateId
    ensures HasAttempt(attempts, c) <==> exists id | id in attempts :: id.candidateId == c
    ensures SyntheticAttempt(c, now, error).attemptId == Recovery(c) && SyntheticAttempt(c, now, error).status.Aborted?
  {
  }
}
