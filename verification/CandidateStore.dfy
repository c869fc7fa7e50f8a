/** The records the backtesting repository keeps, and each of its atomic operations as a function of the store. */
module CandidateStore {
  import opened Wrappers
  import Simulator

  type Trade = Simulator.Trade

  // ---------------------------------------------------------------- records

  datatype Status =
    | Queued | Backtesting | RetryWait | ProcessingResult | TerminalFailurePending
    | CompletedStatus | FailedStatus | Cancelled

  datatype FailureKind = RetryExhausted | Infrastructure | CompletionProcessing

  datatype Candidate = Candidate(
    candidateId: string, queueJobId: string, leaderboardScopeId: string, status: Status, maxAttempts: int,
    activeAttemptNumber: Option<int>, executionGeneration: nat,
    activeFenceToken: Option<string>, activeLeaseExpiresAt: Option<int>,
    completionAttemptCount: nat, completionMaxAttempts: nat, completionGeneration: nat,
    activeCompletionClaimToken: Option<string>, activeCompletionLeaseExpiresAt: Option<int>,
      completionNextRetryAt: Option<int>,
    experimentResultId: Option<string>, failureKind: Option<FailureKind>, failureCode: Option<string>,
      lastError: Option<string>,
    updatedAt: int)

  /** The two shapes of attempt identifier: one per delivery number, and the synthetic recovery record. */
  datatype AttemptId = Delivery(candidateId: string, number: int) | Recovery(candidateId: string)

  datatype AttemptStatus = Running | Done | Aborted

  datatype FailureCategory = Retryable | InfrastructureFailure | CancelledAudit

  datatype Attempt = Attempt(
    attemptId: AttemptId, candidateId: string, attemptNumber: int, status: AttemptStatus,
    fenceToken: Option<string>, leaseExpiresAt: Option<int>, startedAt: int, completedAt: Option<int>,
    deliveryAttemptCount: int, tradeCount: nat, auditOnly: bool,
    failureCategory: Option<FailureCategory>, failureCode: Option<string>)

  datatype Experiment = Experiment(
    id: string, candidateId: string, backtestAttemptId: AttemptId, trades: seq<Trade>, overallScore: real,
      rankEligible: bool)

  datatype Job = Job(jobId: string, candidateId: string, maxAttempts: int)

  datatype DispatchState = Pending | Dispatched | DispatchCancelled

  datatype Dispatch = Dispatch(job: Job, state: DispatchState, dispatchAttempts: nat, lastError: Option<string>,
          updatedAt: int)

  /** `attemptOrder` is the insertion order of the attempt table, which decides what a search finds first. */
  datatype Store = Store(
    candidates: map<string, Candidate>, attempts: map<AttemptId, Attempt>, attemptOrder: seq<AttemptId>,
    trades: map<AttemptId, seq<Trade>>, experiments: map<string, Experiment>, dispatches: map<string, Dispatch>)

  datatype WorkerClaim = WorkerClaim(candidate: Candidate, attempt: Attempt, fenceToken: string)

  datatype CompletionClaim = CompletionClaim(candidate: Candidate, claimToken: string)

  datatype StoreError = FenceLost | CompletionFenceLost

  const COMPLETION_MAX_ATTEMPTS: nat := 5

  const LEASE_MS: int := 60_000

  predicate Terminal(status: Status) {
    status.CompletedStatus? || status.FailedStatus? || status.Cancelled?
  }

  // ---------------------------------------------------------------- table access

  function SetCandidate(st: Store, k: Candidate): Store {
    st.(candidates := st.candidates[k.candidateId := k])
  }

  function SetAttempt(st: Store, a: Attempt): Store {
    st.(attempts := st.attempts[a.attemptId := a],
        attemptOrder := if a.attemptId in st.attempts then st.attemptOrder else st.attemptOrder + [a.attemptId])
  }

  predicate RunningFor(attempts: map<AttemptId, Attempt>, id: AttemptId, c: string, number: Option<int>) {
    && id in attempts
    && attempts[id].candidateId == c && attempts[id].status.Running?
    && (number.Some? ==> attempts[id].attemptNumber == number.value)
  }

  /** The first RUNNING attempt of a candidate in insertion order, optionally with a given number. */
  function FirstRunning(attempts: map<AttemptId, Attempt>, order: seq<AttemptId>, c: string,
          number: Option<int>): (r: Option<AttemptId>)
    ensures r.Some? ==> RunningFor(attempts, r.value, c, number)
    ensures r.None? ==> forall id | id in order :: !RunningFor(attempts, id, c, number)
  {
    if order == [] then None
    else if RunningFor(attempts, order[0], c, number) then Some(order[0])
    else FirstRunning(attempts, order[1..], c, number)
  }

  predicate HasAttempt(attempts: map<AttemptId, Attempt>, c: string) {
    exists id | id in attempts :: attempts[id].candidateId == c
  }

  function SyntheticAttempt(c: string, now: int, error: string): Attempt {
    Attempt(Recovery(c), c, 1, Aborted, None, None, now, Some(now), 0, 0, false, Some(InfrastructureFailure),
      Some(error))
  }

  function Abort(a: Attempt, now: int, category: FailureCategory, error: string): Attempt {
    a.(status := Aborted, completedAt := Some(now), leaseExpiresAt := None, failureCategory := Some(category),
      failureCode := Some(error))
  }

  /** A candidate that no worker holds any more. */
  function Release(k: Candidate, now: int): Candidate {
    k.(activeAttemptNumber := None, activeFenceToken := None, activeLeaseExpiresAt := None, updatedAt := now)
  }

  predicate ExpiredOrAbsent(lease: Option<int>, now: int) {
    lease.None? || lease.value <= now
  }

  // ---------------------------------------------------------------- worker attempts

  function ClaimWorkerAttempt(st: Store, c: string, jobId: string, number: int, token: string, now: int,
          lease: int): Option<(Store, WorkerClaim)> {
    if c !in st.candidates then None
    else
      var k := st.candidates[c];
      if k.queueJobId != jobId || Terminal(k.status) || k.status.ProcessingResult?
        || k.status.TerminalFailurePending? then None
      else if k.status.Backtesting? && !ExpiredOrAbsent(k.activeLeaseExpiresAt, now) then None
      else
        var id := Delivery(c, number);
        var base := if id in st.attempts then st.attempts[id]
                    else Attempt(id, c, number, Running, None, None, now, None, 0, 0, false, None, None);
        var claimed :=
          base.(status := Running, completedAt := None, deliveryAttemptCount := number, fenceToken := Some(token),
                             leaseExpiresAt := Some(lease), failureCategory := None, failureCode := None);
        var updated :=
          k.(status := Backtesting, activeAttemptNumber := Some(number),
          executionGeneration := k.executionGeneration + 1,
                          activeFenceToken := Some(token), activeLeaseExpiresAt := Some(lease), updatedAt := now);
        Some((SetCandidate(SetAttempt(st, claimed), updated), WorkerClaim(updated, claimed, token)))
  }

  predicate HoldsFence(st: Store, c: string, id: AttemptId, token: string) {
    && c in st.candidates && id in st.attempts
    && st.candidates[c].activeFenceToken == Some(token) && st.attempts[id].fenceToken == Some(token)
  }

  function FailWorkerAttempt(st: Store, c: string, id: AttemptId, token: string, retrying: bool, now: int,
          error: string): Result<Store, StoreError> {
    if !HoldsFence(st, c, id, token) then Failure(FenceLost)
    else
      var k, a := st.candidates[c], st.attempts[id];
      var category := if k.status.Cancelled? then CancelledAudit else if retrying then Retryable
        else InfrastructureFailure;
      var updated :=
        if k.status.Cancelled? then Release(k, now)
        else Release(k, now).(status := if retrying then RetryWait else TerminalFailurePending,
                              failureKind := if retrying then None else Some(RetryExhausted),
                              failureCode := Some(error), lastError := Some(error));
      Success(SetCandidate(SetAttempt(st, Abort(a, now, category, error)), updated))
  }

  function PersistWorkerSuccess(st: Store, c: string, id: AttemptId, token: string, trades: seq<Trade>,
          completedAt: int): Result<Store, StoreError> {
    if !HoldsFence(st, c, id, token) then Failure(FenceLost)
    else
      var k, a := st.candidates[c], st.attempts[id];
      var done := a.(status := Done, completedAt := Some(completedAt), tradeCount := |trades|,
                     auditOnly := k.status.Cancelled?, leaseExpiresAt := None);
      var pending :=
        if k.status.Cancelled? then Release(k, completedAt)
        else Release(k, completedAt).(status := ProcessingResult, completionNextRetryAt := Some(completedAt));
      Success(SetCandidate(SetAttempt(st, done).(trades := st.trades[id := trades]), pending))
  }

  function RecoverAbandonedAttempt(st: Store, c: string, now: int, error: string): (Store, bool) {
    if c !in st.candidates then (st, false)
    else
      var k := st.candidates[c];
      if !k.status.Backtesting? || k.activeLeaseExpiresAt.None? || k.activeLeaseExpiresAt.value > now then (st, false)
      else
        var anyRunning := FirstRunning(st.attempts, st.attemptOrder, c, None);
        var running :=
          if k.activeAttemptNumber.Some? && FirstRunning(st.attempts, st.attemptOrder, c, k.activeAttemptNumber).Some?
          then FirstRunning(st.attempts, st.attemptOrder, c, k.activeAttemptNumber) else anyRunning;
        var aborted :=
          if running.Some? then SetAttempt(st, Abort(st.attempts[running.value], now, InfrastructureFailure, error))
          else if !HasAttempt(st.attempts, c) then SetAttempt(st, SyntheticAttempt(c, now, error))
          else st;
        var number := if k.activeAttemptNumber.Some? then k.activeAttemptNumber.value
                      else if anyRunning.Some? then st.attempts[anyRunning.value].attemptNumber else k.maxAttempts;
        var retrying := number < k.maxAttempts;
        var updated := Release(k, now).(status := if retrying then RetryWait else TerminalFailurePending,
                                        failureKind := if retrying then None else Some(Infrastructure),
                                        failureCode := if retrying then None else Some(error),
                                        lastError := if retrying then None else Some(error));
        var jobId := k.queueJobId;
        var redispatched :=
          if retrying && jobId in st.dispatches && !st.dispatches[jobId].state.DispatchCancelled?
          then st.dispatches[jobId :=
            st.dispatches[jobId].(state := Pending, lastError := Some(error), updatedAt := now)]
          else st.dispatches;
        (SetCandidate(aborted, updated).(dispatches := redispatched), true)
  }

  function RepairTerminalQueueFailure(st: Store, c: string, error: string, now: int): Store {
    if c !in st.candidates then st
    else
      var k := st.candidates[c];
      if Terminal(k.status) || k.status.TerminalFailurePending? then st
      else
        var running := FirstRunning(st.attempts, st.attemptOrder, c, None);
        var aborted :=
          if running.Some? then SetAttempt(st, Abort(st.attempts[running.value], now, InfrastructureFailure, error))
          else if !HasAttempt(st.attempts, c) then SetAttempt(st, SyntheticAttempt(c, now, error))
          else st;
        SetCandidate(aborted, Release(k, now).(status := TerminalFailurePending, failureKind := Some(Infrastructure),
                                               failureCode := Some(error), lastError := Some(error)))
  }

  // ---------------------------------------------------------------- cancellation and dispatch

  /** What a cancel writes over the snapshot it read. */
  function CancelledCopy(k: Candidate, now: int): Candidate {
    k.(status := Cancelled, activeFenceToken := if k.status.Backtesting? then k.activeFenceToken else None,
       activeLeaseExpiresAt := None, updatedAt := now)
  }

  function MarkDispatchCancelled(st: Store, jobId: string, now: int): Store {
    if jobId in st.dispatches
    then st.(dispatches := st.dispatches[jobId := st.dispatches[jobId].(state := DispatchCancelled, updatedAt := now)])
    else st
  }

  /** Reading the candidate and writing the cancelled copy back, with nothing in between. */
  function CancelCandidate(st: Store, c: string, now: int): Store {
    if c !in st.candidates || Terminal(st.candidates[c].status) then st
    else MarkDispatchCancelled(SetCandidate(st, CancelledCopy(st.candidates[c], now)), st.candidates[c].queueJobId, now)
  }

  function MarkDispatched(st: Store, jobId: string, now: int): Store {
    if jobId in st.dispatches && !st.dispatches[jobId].state.DispatchCancelled?
    then var d := st.dispatches[jobId];
      st.(dispatches :=
        st.dispatches[jobId :=
        d.(state := Dispatched, dispatchAttempts := d.dispatchAttempts + 1, lastError := None, updatedAt := now)])
    else st
  }

  function MarkDispatchFailed(st: Store, jobId: string, error: string, now: int): Store {
    if jobId in st.dispatches && !st.dispatches[jobId].state.DispatchCancelled?
    then var d := st.dispatches[jobId];
      st.(dispatches :=
        st.dispatches[jobId :=
        d.(state := Pending, dispatchAttempts := d.dispatchAttempts + 1, lastError := Some(error), updatedAt := now)])
    else st
  }

  function NewCandidate(c: string, scopeId: string, maxAttempts: int, now: int): Candidate {
    Candidate(c, c, scopeId, Queued, maxAttempts, None, 0, None, None, 0, COMPLETION_MAX_ATTEMPTS, 0, None, None, None,
      None, None, None, None, now)
  }

  function SubmitCandidate(st: Store, c: string, scopeId: string, maxAttempts: int, now: int): Store {
    SetCandidate(st, NewCandidate(c, scopeId, maxAttempts, now))
      .(dispatches := st.dispatches[c := Dispatch(Job(c, c, maxAttempts), Pending, 0, None, now)])
  }

  function DeleteScope(st: Store, scopeId: string): Store {
    st.(candidates := map c | c in st.candidates && st.candidates[c].leaderboardScopeId != scopeId :: st.candidates[c])
  }

  // ---------------------------------------------------------------- completion

  function ClaimCompletion(st: Store, c: string, token: string, now: int, lease: int): Option<(Store,
          CompletionClaim)> {
    if c !in st.candidates then None
    else
      var k := st.candidates[c];
      if !k.status.ProcessingResult? && !k.status.TerminalFailurePending? then None
      else if !ExpiredOrAbsent(k.completionNextRetryAt, now)
        || !ExpiredOrAbsent(k.activeCompletionLeaseExpiresAt, now) then None
      else if k.completionAttemptCount >= k.completionMaxAttempts then None
      else
        var claimed :=
          k.(completionAttemptCount := k.completionAttemptCount + 1, completionGeneration := k.completionGeneration + 1,
                          activeCompletionClaimToken := Some(token), activeCompletionLeaseExpiresAt := Some(lease),
                          completionNextRetryAt := None, updatedAt := now);
        Some((SetCandidate(st, claimed), CompletionClaim(claimed, token)))
  }

  /** The claim's token and generation are the stored ones and its lease has not run out. */
  predicate HoldsCompletion(st: Store, claim: CompletionClaim, now: int) {
    var c := claim.candidate.candidateId;
    && c in st.candidates
    && st.candidates[c].activeCompletionClaimToken == Some(claim.claimToken)
    && st.candidates[c].completionGeneration == claim.candidate.completionGeneration
    && !ExpiredOrAbsent(st.candidates[c].activeCompletionLeaseExpiresAt, now)
  }

  function Unclaim(k: Candidate, now: int): Candidate {
    k.(activeCompletionClaimToken := None, activeCompletionLeaseExpiresAt := None, completionNextRetryAt := None,
      updatedAt := now)
  }

  function FinalizeCompletion(st: Store, claim: CompletionClaim, experimentId: string, now: int): Result<Store,
          StoreError> {
    var c := claim.candidate.candidateId;
    if !HoldsCompletion(st, claim, now) || !st.candidates[c].status.ProcessingResult? then Failure(CompletionFenceLost)
    else Success(SetCandidate(st,
      Unclaim(st.candidates[c], now).(status := CompletedStatus, experimentResultId := Some(experimentId))))
  }

  function FinalizeTerminalFailure(st: Store, claim: CompletionClaim, now: int): Result<Store, StoreError> {
    var c := claim.candidate.candidateId;
    if !HoldsCompletion(st, claim, now)
      || !st.candidates[c].status.TerminalFailurePending? then Failure(CompletionFenceLost)
    else Success(SetCandidate(st, Unclaim(st.candidates[c], now).(status := FailedStatus)))
  }

  function FailCompletion(st: Store, claim: CompletionClaim, retryAt: Option<int>, now: int,
          error: string): Result<Store, StoreError> {
    if !HoldsCompletion(st, claim, now) then Failure(CompletionFenceLost)
    else
      var k := st.candidates[claim.candidate.candidateId];
      var exhausted := k.completionAttemptCount >= k.completionMaxAttempts;
      Success(SetCandidate(st, Unclaim(k, now).(
        status := if exhausted then FailedStatus else ProcessingResult,
        completionNextRetryAt := if exhausted then None else retryAt,
        failureKind := if exhausted then Some(CompletionProcessing) else k.failureKind,
        failureCode := if exhausted then Some("COMPLETION_PROCESSING_FAILED") else k.failureCode,
        lastError := Some(error))))
  }

  predicate DoneFor(attempts: map<AttemptId, Attempt>, id: AttemptId, c: string) {
    id in attempts && attempts[id].candidateId == c && attempts[id].status.Done?
  }

  /** The completed attempt with the highest number; among equals, the first inserted. */
  function LatestDone(attempts: map<AttemptId, Attempt>, order: seq<AttemptId>, c: string): (r: Option<AttemptId>)
    ensures r.Some? ==> DoneFor(attempts, r.value, c)
    ensures r.None? ==> forall id | id in order :: !DoneFor(attempts, id, c)
  {
    if order == [] then None
    else
      var rest := LatestDone(attempts, order[1..], c);
      if DoneFor(attempts, order[0], c)
        && (rest.None? || attempts[order[0]].attemptNumber >= attempts[rest.value].attemptNumber)
      then Some(order[0]) else rest
  }

  function ListTrades(st: Store, id: AttemptId): seq<Trade> {
    if id in st.trades then st.trades[id] else []
  }

  predicate ExperimentFor(st: Store, e: string, c: string) {
    e in st.experiments && st.experiments[e].candidateId == c
  }

  /** An experiment of the candidate, if there is any. */
  ghost function FindExperiment(st: Store, c: string): (r: Option<string>)
    ensures r.Some? ==> ExperimentFor(st, r.value, c)
    ensures r.None? ==> forall e | e in st.experiments :: !ExperimentFor(st, e, c)
  {
    if exists e :: ExperimentFor(st, e, c) then var e :| ExperimentFor(st, e, c); Some(e) else None
  }

  /** Stores the experiment unless the candidate already has one; yields the one kept. */
  ghost function StageExperiment(st: Store, x: Experiment): (Store, Experiment) {
    var existing := FindExperiment(st, x.candidateId);
    if existing.Some? then (st, st.experiments[existing.value])
    else (st.(experiments := st.experiments[x.id := x]), x)
  }

  /** Rates a stored experiment anew; nothing else of it changes. */
  function UpdateExperimentScore(st: Store, e: string, score: real, eligible: bool): Store {
    if e in st.experiments
    then st.(experiments := st.experiments[e := st.experiments[e].(overallScore := score, rankEligible := eligible)])
    else st
  }

  predicate SameButScore(x: Experiment, y: Experiment) {
    y == x.(overallScore := y.overallScore, rankEligible := y.rankEligible)
  }
}
