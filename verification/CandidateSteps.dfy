/** Every action keeps the invariant, so it holds in every state that any interleaving can reach. */
module CandidateSteps {
  import opened Wrappers
  import opened CandidateStore
  import opened CandidateProtocol
  import opened CandidateInvariant

  // ---------------------------------------------------------------- worker outcomes

  /** Whoever holds the fence holds it through the candidate's active attempt. */
  lemma FenceHolder(s: System, c: string, id: AttemptId, token: string)
    requires Inv(s) && HoldsFence(s.store, c, id, token)
    ensures var k := s.store.candidates[c];
      k.activeAttemptNumber.Some? && id == Delivery(c, k.activeAttemptNumber.value) && Early(k)
    ensures s.store.attempts[id].status.Running?
    ensures AttemptOk(s.store.trades, s.claims, s.used, id, s.store.attempts[id])
  {
    var st, k := s.store, s.store.candidates[c];
    Registered(s, c);
    hide CandidatesOk, ExperimentsOk, CompletionsOk, ClaimsOk, Compatible;
    var active := Delivery(k.candidateId, k.activeAttemptNumber.value);
    assert AttemptOk(st.trades, s.claims, s.used, id, st.attempts[id]);
    assert AttemptOk(st.trades, s.claims, s.used, active, st.attempts[active]);
  }

  /** The first completed attempt of a candidate: nothing was handed to completion before it. */
  lemma CompleteAttempt(s: System, c: string, k: Candidate, a: Attempt, trades: seq<Trade>)
    requires Inv(s) && c in s.store.candidates && RecordOk(c, k) && DispatchFits(s.store.dispatches, c, k)
      && c in s.used
    requires a.attemptId in s.store.attempts && a.attemptId.candidateId == a.candidateId == c
    requires a.status.Done? && AttemptOk(s.store.trades[a.attemptId := trades], s.claims, s.used, a.attemptId, a)
    requires forall id | id in s.store.attempts && id.candidateId == c ::
      id.Delivery? && !s.store.attempts[id].status.Done? && id !in s.store.trades
    requires Untouched(s.store.experiments, s.completions, c)
    requires AttemptsFit(s.store.attempts[a.attemptId := a], c, k)
    requires CompletionsFit(s.store.experiments, s.completions, c, k)
    ensures Inv(s.(store := SetCandidate(SetAttempt(s.store, a).(trades := s.store.trades[a.attemptId := trades]), k)))
  {
    hide CandidatesOk, AttemptsOk, ExperimentsOk, CompletionsOk, ClaimsOk, AttemptOk, AttemptsFit, CompletionsFit,
      DispatchFits;
    var st := s.store;
    var r := s.(store := SetCandidate(SetAttempt(st, a).(trades := st.trades[a.attemptId := trades]), k));
    assert k.candidateId == c;
    hide RecordOk;
    CompletedAttempts(st.attempts, st.attemptOrder, st.trades, s.claims, s.used, a, trades);
    ExperimentsElsewhere(s, c, a, trades);
    CompletionsElsewhere(s, c, a, trades);
    OtherCandidatesKeep(s, r, c);
  }

  lemma CompletedAttempts(attempts: Attempts, order: seq<AttemptId>, trades: Trades, claims: map<string, WorkerClaim>,
          used: set<string>, a: Attempt, done: seq<Trade>)
    requires AttemptsOk(attempts, order, trades, claims, used) && a.attemptId in attempts
    requires AttemptOk(trades[a.attemptId := done], claims, used, a.attemptId, a)
    requires forall id | id in attempts && id.candidateId == a.attemptId.candidateId ::
      id.Delivery? && !attempts[id].status.Done?
    ensures AttemptsOk(attempts[a.attemptId := a], order, trades[a.attemptId := done], claims, used)
  {
    var after, kept := attempts[a.attemptId := a], trades[a.attemptId := done];
    forall id | id in after
      ensures AttemptOk(kept, claims, used, id, after[id])
    {
      if id != a.attemptId { assert AttemptOk(trades, claims, used, id, attempts[id]); }
    }
    hide AttemptOk;
    forall x, y | x in after && y in after
      ensures Compatible(after, x, y)
    {
      assert Compatible(attempts, x, y);
    }
  }

  lemma ExperimentsElsewhere(s: System, c: string, a: Attempt, done: seq<Trade>)
    requires ExperimentsOk(s.store.attempts, s.store.trades, s.store.experiments, s.used)
    requires Untouched(s.store.experiments, s.completions, c) && a.attemptId.candidateId == c
    ensures ExperimentsOk(s.store.attempts[a.attemptId := a], s.store.trades[a.attemptId := done], s.store.experiments,
      s.used)
  {
  }

  lemma CompletionsElsewhere(s: System, c: string, a: Attempt, done: seq<Trade>)
    requires CompletionsOk(s.store.attempts, s.store.trades, s.store.experiments, s.completions, s.used)
    requires Untouched(s.store.experiments, s.completions, c) && a.attemptId.candidateId == c
    ensures CompletionsOk(s.store.attempts[a.attemptId := a], s.store.trades[a.attemptId := done], s.store.experiments,
      s.completions, s.used)
  {
    forall t | t in s.completions
      ensures CompletionOk(s.store.attempts[a.attemptId := a], s.store.trades[a.attemptId := done],
        s.store.experiments, s.used, t, s.completions[t])
    {
      assert CompletionOk(s.store.attempts, s.store.trades, s.store.experiments, s.used, t, s.completions[t]);
    }
  }

  lemma SucceedKeeps(s: System, c: string, id: AttemptId, token: string, trades: seq<Trade>)
    requires Inv(s) && HoldsFence(s.store, c, id, token)
    ensures Inv(s.(store := PersistWorkerSuccess(s.store, c, id, token, trades, s.now).value))
  {
    var st := PersistWorkerSuccess(s.store, c, id, token, trades, s.now).value;
    hide Inv, CandidateOk, DispatchFits;
    Registered(s, c);
    FenceHolder(s, c, id, token);
    Claimable(s, c);
    SuccessRecords(s, c, id, token, trades);
    hide AttemptOk, AttemptsFit, CompletionsFit, RecordOk, Untouched;
    CompleteAttempt(s, c, st.candidates[c], st.attempts[id], trades);
  }

  lemma SuccessRecords(s: System, c: string, id: AttemptId, token: string, trades: seq<Trade>)
    requires HoldsFence(s.store, c, id, token) && id.Delivery? && id.candidateId == c
    requires RecordOk(c, s.store.candidates[c]) && s.store.attempts[id].status.Running?
      && s.store.candidates[c].completionGeneration == 0
    requires AttemptOk(s.store.trades, s.claims, s.used, id, s.store.attempts[id])
      && DispatchFits(s.store.dispatches, c, s.store.candidates[c])
    requires forall x | x in s.store.attempts && x.candidateId == c ::
      x.Delivery? && !s.store.attempts[x].auditOnly && x.number <= s.store.candidates[c].maxAttempts
    requires Untouched(s.store.experiments, s.completions, c)
    ensures var st := PersistWorkerSuccess(s.store, c, id, token, trades, s.now).value;
      && c in st.candidates && id in st.attempts && st.attempts[id].status.Done? && st.attempts[id].attemptId == id
        && st.attempts[id].candidateId == c
      && RecordOk(c, st.candidates[c]) && DispatchFits(s.store.dispatches, c, st.candidates[c])
      && AttemptOk(s.store.trades[id := trades], s.claims, s.used, id, st.attempts[id])
      && AttemptsFit(s.store.attempts[id := st.attempts[id]], c, st.candidates[c])
      && CompletionsFit(s.store.experiments, s.completions, c, st.candidates[c])
      && st == SetCandidate(SetAttempt(s.store, st.attempts[id]).(trades := s.store.trades[id := trades]),
        st.candidates[c])
  {
  }

  lemma FailKeeps(s: System, c: string, id: AttemptId, token: string, retrying: bool, error: string)
    requires Inv(s) && HoldsFence(s.store, c, id, token)
    ensures Inv(s.(store := FailWorkerAttempt(s.store, c, id, token, retrying, s.now, error).value))
  {
    var st := FailWorkerAttempt(s.store, c, id, token, retrying, s.now, error).value;
    hide Inv, CandidateOk, DispatchFits;
    Registered(s, c);
    FenceHolder(s, c, id, token);
    Claimable(s, c);
    FailureRecords(s, c, id, token, retrying, error);
    hide AttemptOk, AttemptsFit, CompletionsFit, RecordOk, Untouched;
    ReplaceBoth(s, c, st.candidates[c], st.attempts[id]);
  }

  lemma FailureRecords(s: System, c: string, id: AttemptId, token: string, retrying: bool, error: string)
    requires HoldsFence(s.store, c, id, token) && id.Delivery? && id.candidateId == c
    requires RecordOk(c, s.store.candidates[c]) && s.store.attempts[id].status.Running?
      && s.store.candidates[c].completionGeneration == 0
    requires AttemptOk(s.store.trades, s.claims, s.used, id, s.store.attempts[id])
      && DispatchFits(s.store.dispatches, c, s.store.candidates[c])
    requires forall x | x in s.store.attempts && x.candidateId == c ::
      x.Delivery? && !s.store.attempts[x].auditOnly && !s.store.attempts[x].status.Done?
      && x.number <= s.store.candidates[c].maxAttempts
    requires Untouched(s.store.experiments, s.completions, c)
    ensures var st := FailWorkerAttempt(s.store, c, id, token, retrying, s.now, error).value;
      && c in st.candidates && id in st.attempts && !st.attempts[id].status.Done? && st.attempts[id].attemptId == id
        && st.attempts[id].candidateId == c
      && RecordOk(c, st.candidates[c]) && DispatchFits(s.store.dispatches, c, st.candidates[c])
      && AttemptOk(s.store.trades, s.claims, s.used, id, st.attempts[id])
      && AttemptsFit(s.store.attempts[id := st.attempts[id]], c, st.candidates[c])
      && CompletionsFit(s.store.experiments, s.completions, c, st.candidates[c])
      && st == SetCandidate(SetAttempt(s.store, st.attempts[id]), st.candidates[c])
  {
  }

  // ---------------------------------------------------------------- recovery and repair

  /** A running attempt of a candidate is the one its number names. */
  lemma RunningIsDelivery(s: System, id: AttemptId, c: string)
    requires Inv(s) && id in s.store.attempts && s.store.attempts[id].candidateId == c
      && s.store.attempts[id].status.Running?
    ensures id == Delivery(c, s.store.attempts[id].attemptNumber) && id in s.store.attemptOrder
    ensures s.store.attempts[id].attemptId == id
      && AttemptOk(s.store.trades, s.claims, s.used, id, s.store.attempts[id])
    ensures !s.store.attempts[id].auditOnly
  {
    hide CandidatesOk, ExperimentsOk, CompletionsOk, ClaimsOk, Compatible;
    assert AttemptOk(s.store.trades, s.claims, s.used, id, s.store.attempts[id]);
  }

  /** The attempt that recovery aborts is the one carrying the candidate's fence token. */
  lemma RecoveryFindsActive(s: System, c: string)
    requires Inv(s) && c in s.store.candidates && s.store.candidates[c].status.Backtesting?
    ensures var k, st := s.store.candidates[c], s.store;
      && k.activeAttemptNumber.Some? && Leads(st.attempts, k) && Early(k)
      && FirstRunning(st.attempts, st.attemptOrder, c, k.activeAttemptNumber)
        == Some(Delivery(c, k.activeAttemptNumber.value))
  {
    Registered(s, c);
    var k, st := s.store.candidates[c], s.store;
    var active := Delivery(c, k.activeAttemptNumber.value);
    hide Inv, CompletionsFit, Compatible, AttemptOk;
    RunningNumber(s, active);
    RunningIsDelivery(s, active, c);
    var found := FirstRunning(st.attempts, st.attemptOrder, c, k.activeAttemptNumber);
    assert RunningFor(st.attempts, active, c, k.activeAttemptNumber);
    RunningIsDelivery(s, found.value, c);
  }

  lemma RunningNumber(s: System, id: AttemptId)
    requires Inv(s) && id in s.store.attempts && id.Delivery?
    ensures s.store.attempts[id].candidateId == id.candidateId && s.store.attempts[id].attemptNumber == id.number
  {
    hide CandidatesOk, ExperimentsOk, CompletionsOk, ClaimsOk, Compatible;
    assert AttemptOk(s.store.trades, s.claims, s.used, id, s.store.attempts[id]);
  }

  lemma RecoverKeeps(s: System, c: string, error: string)
    requires Inv(s)
    ensures Inv(s.(store := RecoverAbandonedAttempt(s.store, c, s.now, error).0))
  {
    var st := RecoverAbandonedAttempt(s.store, c, s.now, error).0;
    hide Inv, CandidateOk, DispatchFits, FirstRunning;
    if RecoverAbandonedAttempt(s.store, c, s.now, error).1 {
      RecoveryFindsActive(s, c);
      var id := Delivery(c, s.store.candidates[c].activeAttemptNumber.value);
      RunningIsDelivery(s, id, c);
      Registered(s, c);
      Claimable(s, c);
      RecoveryRecords(s, c, id, error);
      hide AttemptOk, AttemptsFit, CompletionsFit, RecordOk, Untouched, RecoverAbandonedAttempt;
      var r := s.(store := SetCandidate(SetAttempt(s.store, st.attempts[id]), st.candidates[c]));
      ReplaceBoth(s, c, st.candidates[c], st.attempts[id]);
      RedispatchKeeps(r, st.dispatches);
    }
  }

  /** A dispatch table that only changes states keeps every job. */
  ghost predicate SameJobs(before: map<string, Dispatch>, after: map<string, Dispatch>) {
    before.Keys == after.Keys && forall d | d in before :: after[d].job == before[d].job
  }

  lemma RedispatchKeeps(s: System, dispatches: map<string, Dispatch>)
    requires Inv(s) && SameJobs(s.store.dispatches, dispatches)
    ensures Inv(s.(store := s.store.(dispatches := dispatches)))
  {
    JobsNamed(s);
    hide Inv;
    DispatchesChange(s, dispatches);
  }

  lemma JobsNamed(s: System)
    requires Inv(s)
    ensures forall d | d in s.store.dispatches :: s.store.dispatches[d].job.jobId == d
  {
    hide CandidatesOk, AttemptsOk, ExperimentsOk, CompletionsOk, ClaimsOk;
  }

  lemma RecoveryRecords(s: System, c: string, id: AttemptId, error: string)
    requires c in s.store.candidates && id.Delivery? && RecoverAbandonedAttempt(s.store, c, s.now, error).1
    requires var k := s.store.candidates[c];
      && k.activeAttemptNumber == Some(id.number) && k.completionGeneration == 0 && RecordOk(c, k)
        && DispatchFits(s.store.dispatches, c, k)
      && FirstRunning(s.store.attempts, s.store.attemptOrder, c, k.activeAttemptNumber) == Some(id)
    requires id.candidateId == c && id in s.store.attempts && s.store.attempts[id].status.Running?
    requires s.store.attempts[id].attemptId == id && s.store.attempts[id].candidateId == c
    requires AttemptOk(s.store.trades, s.claims, s.used, id, s.store.attempts[id])
    requires forall x | x in s.store.attempts && x.candidateId == c ::
      x.Delivery? && !s.store.attempts[x].auditOnly && !s.store.attempts[x].status.Done?
      && x.number <= s.store.candidates[c].maxAttempts
    requires Untouched(s.store.experiments, s.completions, c)
    ensures var st := RecoverAbandonedAttempt(s.store, c, s.now, error).0;
      && c in st.candidates && id in st.attempts && !st.attempts[id].status.Done? && st.attempts[id].attemptId == id
        && st.attempts[id].candidateId == c
      && RecordOk(c, st.candidates[c]) && DispatchFits(s.store.dispatches, c, st.candidates[c])
      && AttemptOk(s.store.trades, s.claims, s.used, id, st.attempts[id])
      && AttemptsFit(s.store.attempts[id := st.attempts[id]], c, st.candidates[c])
      && CompletionsFit(s.store.experiments, s.completions, c, st.candidates[c])
      && SameJobs(s.store.dispatches, st.dispatches)
      && st == SetCandidate(SetAttempt(s.store, st.attempts[id]), st.candidates[c]).(dispatches := st.dispatches)
  {
    hide FirstRunning, HasAttempt;
  }

  lemma RepairKeeps(s: System, c: string, error: string)
    requires Inv(s)
    ensures Inv(s.(store := RepairTerminalQueueFailure(s.store, c, error, s.now)))
  {
    var st := s.store;
    hide Inv, FirstRunning, HasAttempt, CandidateOk, RecordOk, AttemptsFit, CompletionsFit, DispatchFits, AttemptOk;
    if c in st.candidates && !Terminal(st.candidates[c].status) && !st.candidates[c].status.TerminalFailurePending? {
      var repaired :=
        Release(st.candidates[c], s.now).(status := TerminalFailurePending, failureKind := Some(Infrastructure),
        failureCode := Some(error), lastError := Some(error));
      var running := FirstRunning(st.attempts, st.attemptOrder, c, None);
      RepairedRecord(s, c, repaired);
      if running.Some? {
        RepairRunning(s, c, running.value, repaired,
          Abort(st.attempts[running.value], s.now, InfrastructureFailure, error));
      } else if !HasAttempt(st.attempts, c) {
        RepairSynthetic(s, c, repaired, SyntheticAttempt(c, s.now, error));
      } else {
        ReplaceCandidate(s, c, repaired);
      }
    }
  }

  /** Taking a candidate out of the workers' hands fits its unchanged attempts. */
  lemma RepairedRecord(s: System, c: string, k: Candidate)
    requires Inv(s) && c in s.store.candidates && !Terminal(s.store.candidates[c].status)
    requires k.status.TerminalFailurePending? && k.activeFenceToken.None?
    requires k == s.store.candidates[c].(
        status := k.status, activeAttemptNumber := k.activeAttemptNumber, activeFenceToken := None,
          activeLeaseExpiresAt := k.activeLeaseExpiresAt,
        failureKind := k.failureKind, failureCode := k.failureCode, lastError := k.lastError, updatedAt := k.updatedAt)
    ensures CandidateOk(s, c, k)
  {
    hide AttemptsOk, ExperimentsOk, CompletionsOk, ClaimsOk;
    assert CandidateOk(s, c, s.store.candidates[c]);
  }

  lemma RepairRunning(s: System, c: string, id: AttemptId, k: Candidate, a: Attempt)
    requires Inv(s) && c in s.store.candidates && CandidateOk(s, c, k) && k.status.TerminalFailurePending?
      && k.activeFenceToken.None?
    requires id in s.store.attempts && s.store.attempts[id].candidateId == c && s.store.attempts[id].status.Running?
    requires a.status.Aborted? && a == s.store.attempts[id].(
        status := Aborted, completedAt := a.completedAt, leaseExpiresAt := a.leaseExpiresAt,
          failureCategory := a.failureCategory, failureCode := a.failureCode)
    ensures Inv(s.(store := SetCandidate(SetAttempt(s.store, a), k)))
  {
    hide Inv, RecordOk, DispatchFits, CompletionsFit;
    RunningIsDelivery(s, id, c);
    OnlyDeliveries(s, id, c);
    assert AttemptOk(s.store.trades, s.claims, s.used, id, a);
    hide AttemptOk;
    ReplaceBoth(s, c, k, a);
  }

  /** A recovery record stands alone. */
  lemma OnlyDeliveries(s: System, id: AttemptId, c: string)
    requires Inv(s) && id in s.store.attempts && id.Delivery? && id.candidateId == c
    ensures forall x | x in s.store.attempts && x.candidateId == c :: x.Delivery?
  {
    hide CandidatesOk, ExperimentsOk, CompletionsOk, ClaimsOk, AttemptOk;
    forall x | x in s.store.attempts && x.candidateId == c
      ensures x.Delivery?
    {
      assert Compatible(s.store.attempts, id, x);
    }
  }

  lemma RepairSynthetic(s: System, c: string, k: Candidate, a: Attempt)
    requires Inv(s) && c in s.store.candidates && CandidateOk(s, c, k) && k.status.TerminalFailurePending?
      && k.activeFenceToken.None?
    requires !HasAttempt(s.store.attempts, c)
    requires a.attemptId == Recovery(c) && a.candidateId == c && a.status.Aborted? && a.fenceToken.None? && !a.auditOnly
    ensures Inv(s.(store := SetCandidate(SetAttempt(s.store, a), k)))
  {
    hide Inv, RecordOk, DispatchFits, CompletionsFit;
    AttemptOwners(s);
    assert forall id | id in s.store.attempts :: id.candidateId != c;
    OnlyAttemptsTrade(s);
    assert AttemptOk(s.store.trades, s.claims, s.used, Recovery(c), a);
    hide AttemptOk;
    ReplaceBoth(s, c, k, a);
  }

  lemma OnlyAttemptsTrade(s: System)
    requires Inv(s)
    ensures forall id | id in s.store.trades :: id in s.store.attempts
  {
    hide CandidatesOk, ExperimentsOk, CompletionsOk, ClaimsOk, AttemptOk, Compatible;
  }

  // ---------------------------------------------------------------- cancellation, dispatch and removal

  lemma CancelledRecord(s: System, c: string)
    requires Inv(s) && c in s.store.candidates && !Terminal(s.store.candidates[c].status)
    ensures CandidateOk(s, c, CancelledCopy(s.store.candidates[c], s.now))
  {
    hide AttemptsOk, ExperimentsOk, CompletionsOk, ClaimsOk;
    assert CandidateOk(s, c, s.store.candidates[c]);
  }

  lemma CancelDispatchKeeps(s: System, jobId: string)
    requires Inv(s)
    ensures Inv(s.(store := MarkDispatchCancelled(s.store, jobId, s.now)))
  {
    hide Inv;
    RedispatchKeeps(s, MarkDispatchCancelled(s.store, jobId, s.now).dispatches);
  }

  lemma DispatchSentKeeps(s: System, jobId: string)
    requires Inv(s)
    ensures Inv(s.(store := MarkDispatched(s.store, jobId, s.now)))
  {
    hide Inv;
    RedispatchKeeps(s, MarkDispatched(s.store, jobId, s.now).dispatches);
  }

  lemma DispatchLostKeeps(s: System, jobId: string, error: string)
    requires Inv(s)
    ensures Inv(s.(store := MarkDispatchFailed(s.store, jobId, error, s.now)))
  {
    hide Inv;
    RedispatchKeeps(s, MarkDispatchFailed(s.store, jobId, error, s.now).dispatches);
  }

  lemma CancelKeeps(s: System, c: string)
    requires Inv(s)
    ensures Inv(s.(store := CancelCandidate(s.store, c, s.now)))
  {
    hide Inv, CandidateOk, CancelledCopy, MarkDispatchCancelled;
    if c in s.store.candidates && !Terminal(s.store.candidates[c].status) {
      var k := CancelledCopy(s.store.candidates[c], s.now);
      CancelledRecord(s, c);
      ReplaceCandidate(s, c, k);
      CancelDispatchKeeps(s.(store := SetCandidate(s.store, k)), s.store.candidates[c].queueJobId);
    }
  }

  lemma RemoveScopeKeeps(s: System, scopeId: string)
    requires Inv(s)
    ensures Inv(s.(store := DeleteScope(s.store, scopeId)))
  {
    hide AttemptsOk, ExperimentsOk, CompletionsOk, ClaimsOk, RecordOk, AttemptsFit, CompletionsFit;
    var r := s.(store := DeleteScope(s.store, scopeId));
    forall c | c in r.store.candidates
      ensures CandidateOk(r, c, r.store.candidates[c])
    {
      assert CandidateOk(s, c, s.store.candidates[c]);
    }
  }

  // ---------------------------------------------------------------- completion

  /** A new claim bears a generation no earlier claim of its candidate has. */
  lemma ClaimResultKeeps(s: System, c: string, token: string)
    requires Inv(s) && token !in s.used && ClaimCompletion(s.store, c, token, s.now, s.now + LEASE_MS).Some?
    ensures var r := ClaimCompletion(s.store, c, token, s.now, s.now + LEASE_MS);
      Inv(s.(store := r.value.0, used := s.used + {token},
        completions := s.completions[token := CompletionJob(r.value.1, Claimed)]))
  {
    hide *;
    TokensGrow(s, s.used + {token});
    UnusedUnclaimed(s, token);
    ClaimGranted(s.(used := s.used + {token}), c, token);
  }

  lemma ClaimGranted(s: System, c: string, token: string)
    requires Inv(s) && token in s.used && token !in s.completions
      && ClaimCompletion(s.store, c, token, s.now, s.now + LEASE_MS).Some?
    ensures var r := ClaimCompletion(s.store, c, token, s.now, s.now + LEASE_MS);
      Inv(s.(store := r.value.0, completions := s.completions[token := CompletionJob(r.value.1, Claimed)]))
  {
    var claim := ClaimCompletion(s.store, c, token, s.now, s.now + LEASE_MS).value.1;
    var completions := s.completions[token := CompletionJob(claim, Claimed)];
    hide Inv, CandidateOk, AttemptsFit, DispatchFits;
    Registered(s, c);
    GrantedRecord(s, c, token, claim);
    hide CompletionsFit, RecordOk, ClaimCompletion;
    NoAudit(s, c);
    GrantedClaims(s, c, token, claim);
    InstallCompletion(s.(store := SetCandidate(s.store, claim.candidate), completions := completions), s, c, token,
      claim);
  }

  lemma GrantedRecord(s: System, c: string, token: string, claim: CompletionClaim)
    requires c in s.store.candidates && CandidateOk(s, c, s.store.candidates[c])
    requires var r := ClaimCompletion(s.store, c, token, s.now, s.now + LEASE_MS); r.Some? && r.value.1 == claim
    requires token !in s.completions
    ensures var k := claim.candidate;
      && k.candidateId == c && k.completionGeneration == s.store.candidates[c].completionGeneration + 1
        && k.activeCompletionClaimToken == Some(token)
      && claim.claimToken == token && RecordOk(c, k) && c in s.used && DispatchFits(s.store.dispatches, c, k)
        && AttemptsFit(s.store.attempts, c, k)
      && CompletionsFit(s.store.experiments, s.completions[token := CompletionJob(claim, Claimed)], c, k)
    ensures !s.store.candidates[c].status.Cancelled?
    ensures forall t | t in s.completions && s.completions[t].claim.candidate.candidateId == c ::
      s.completions[t].claim.candidate.completionGeneration < claim.candidate.completionGeneration
  {
  }

  lemma NoAudit(s: System, c: string)
    requires Inv(s) && c in s.store.candidates
      && (!s.store.candidates[c].status.Cancelled? || s.store.candidates[c].completionGeneration > 0)
    ensures forall id | id in s.store.attempts && id.candidateId == c :: !s.store.attempts[id].auditOnly
  {
    hide AttemptsOk, ExperimentsOk, CompletionsOk, ClaimsOk, RecordOk, CompletionsFit;
    assert CandidateOk(s, c, s.store.candidates[c]);
  }

  lemma GrantedClaims(s: System, c: string, token: string, claim: CompletionClaim)
    requires Inv(s) && c in s.used && token in s.used && token !in s.completions
    requires claim.claimToken == token && claim.candidate.candidateId == c
      && claim.candidate.activeCompletionClaimToken == Some(token) && claim.candidate.completionGeneration > 0
    requires forall id | id in s.store.attempts && id.candidateId == c :: !s.store.attempts[id].auditOnly
    requires forall t | t in s.completions && s.completions[t].claim.candidate.candidateId == c ::
      s.completions[t].claim.candidate.completionGeneration < claim.candidate.completionGeneration
    ensures CompletionsOk(s.store.attempts, s.store.trades, s.store.experiments,
      s.completions[token := CompletionJob(claim, Claimed)], s.used)
  {
    hide CandidatesOk, AttemptsOk, ExperimentsOk, ClaimsOk, BuiltFrom;
    var st, completions := s.store, s.completions[token := CompletionJob(claim, Claimed)];
    forall t | t in completions
      ensures CompletionOk(st.attempts, st.trades, st.experiments, s.used, t, completions[t])
    {
      if t != token { assert CompletionOk(st.attempts, st.trades, st.experiments, s.used, t, s.completions[t]); }
    }
  }

  lemma InstallCompletion(r: System, s: System, c: string, token: string, claim: CompletionClaim)
    requires Inv(s) && c in s.store.candidates && claim.candidate.candidateId == c
    requires r
      == s.(store := SetCandidate(s.store, claim.candidate),
      completions := s.completions[token := CompletionJob(claim, Claimed)])
    requires token !in s.completions
    requires CandidateOk(r, c, claim.candidate)
    requires CompletionsOk(s.store.attempts, s.store.trades, s.store.experiments, r.completions, s.used)
    ensures Inv(r)
  {
    hide AttemptsOk, ExperimentsOk, CompletionsOk, ClaimsOk, RecordOk, AttemptsFit, DispatchFits;
    forall d | d in r.store.candidates
      ensures CandidateOk(r, d, r.store.candidates[d])
    {
      if d != c { assert CandidateOk(s, d, s.store.candidates[d]); }
    }
  }

  /** A completion worker moves on; the claim it works under stays what it was. */
  lemma PhaseKeeps(s: System, token: string, phase: Phase)
    requires Inv(s) && token in s.completions
    requires PhaseOk(s.store.attempts, s.store.trades, s.store.experiments,
      s.completions[token].claim.candidate.candidateId, phase)
    ensures Inv(s.(completions := s.completions[token := s.completions[token].(phase := phase)]))
  {
    hide *;
    PhaseCandidates(s, token, phase);
    PhaseCompletions(s, token, phase);
    Reassemble(s, s.(completions := s.completions[token := s.completions[token].(phase := phase)]));
  }

  lemma Reassemble(s: System, r: System)
    requires Inv(s) && r == s.(completions := r.completions)
    requires CandidatesOk(r)
      && CompletionsOk(r.store.attempts, r.store.trades, r.store.experiments, r.completions, r.used)
    ensures Inv(r)
  {
    hide CandidatesOk, AttemptsOk, ExperimentsOk, CompletionsOk, ClaimsOk;
  }

  lemma PhaseCandidates(s: System, token: string, phase: Phase)
    requires Inv(s) && token in s.completions
    ensures CandidatesOk(s.(completions := s.completions[token := s.completions[token].(phase := phase)]))
  {
    var r := s.(completions := s.completions[token := s.completions[token].(phase := phase)]);
    hide AttemptsOk, ExperimentsOk, CompletionsOk, ClaimsOk, RecordOk, AttemptsFit, DispatchFits;
    forall c | c in r.store.candidates
      ensures CandidateOk(r, c, r.store.candidates[c])
    {
      assert CandidateOk(s, c, s.store.candidates[c]);
    }
  }

  lemma PhaseCompletions(s: System, token: string, phase: Phase)
    requires Inv(s) && token in s.completions
    requires PhaseOk(s.store.attempts, s.store.trades, s.store.experiments,
      s.completions[token].claim.candidate.candidateId, phase)
    ensures CompletionsOk(s.store.attempts, s.store.trades, s.store.experiments,
      s.completions[token := s.completions[token].(phase := phase)], s.used)
  {
    var st, completions := s.store, s.completions[token := s.completions[token].(phase := phase)];
    hide AttemptsOk, ExperimentsOk, ClaimsOk, CandidatesOk, PhaseOk;
    forall t | t in completions
      ensures CompletionOk(st.attempts, st.trades, st.experiments, s.used, t, completions[t])
    {
      assert CompletionOk(st.attempts, st.trades, st.experiments, s.used, t, s.completions[t]);
    }
  }

  lemma CompletionHere(s: System, t: string)
    requires Inv(s) && t in s.completions
    ensures CompletionOk(s.store.attempts, s.store.trades, s.store.experiments, s.used, t, s.completions[t])
  {
    hide CandidatesOk, AttemptsOk, ExperimentsOk, ClaimsOk, CompletionOk;
  }

  lemma LoadAttemptKeeps(s: System, token: string, id: AttemptId)
    requires Inv(s) && token in s.completions
      && DoneFor(s.store.attempts, id, s.completions[token].claim.candidate.candidateId)
    ensures Inv(s.(completions := s.completions[token := s.completions[token].(phase := Loaded(s.store.attempts[id]))]))
  {
    CompletionHere(s, token);
    DoneHere(s, id);
    hide Inv;
    PhaseKeeps(s, token, Loaded(s.store.attempts[id]));
  }

  lemma DoneHere(s: System, id: AttemptId)
    requires Inv(s) && id in s.store.attempts && s.store.attempts[id].status.Done?
    ensures id in s.store.trades && s.store.attempts[id].attemptId == id
      && s.store.attempts[id].candidateId == id.candidateId
  {
    hide CandidatesOk, ExperimentsOk, CompletionsOk, ClaimsOk, Compatible;
    assert AttemptOk(s.store.trades, s.claims, s.used, id, s.store.attempts[id]);
  }

  lemma LoadTradesKeeps(s: System, token: string)
    requires Inv(s) && token in s.completions && s.completions[token].phase.Loaded?
    ensures var a := s.completions[token].phase.attempt;
      Inv(s.(completions :=
        s.completions[token := s.completions[token].(phase := Listed(a, ListTrades(s.store, a.attemptId)))]))
  {
    var a := s.completions[token].phase.attempt;
    CompletionHere(s, token);
    hide Inv;
    PhaseKeeps(s, token, Listed(a, ListTrades(s.store, a.attemptId)));
  }

  /** Staging adds the candidate's first experiment, or finds the one it already has. */
  lemma StageKeeps(s: System, token: string, x: Experiment)
    requires Inv(s) && token in s.completions && s.completions[token].phase.Listed? && x.id !in s.used
    requires var job := s.completions[token];
      x.candidateId == job.claim.candidate.candidateId && x.backtestAttemptId == job.phase.attempt.attemptId
        && x.trades == job.phase.trades
    ensures var staged := StageExperiment(s.store, x);
      Inv(s.(store := staged.0, used := s.used + {x.id},
        completions := s.completions[token := s.completions[token].(phase := Staged(staged.1))]))
  {
    var g := s.(used := s.used + {x.id});
    TokensGrow(s, g.used);
    CompletionHere(s, token);
    ExperimentIds(s);
    hide Inv, CompletionOk;
    var existing := FindExperiment(s.store, x.candidateId);
    if existing.Some? {
      PhaseKeeps(g, token, Staged(s.store.experiments[existing.value]));
    } else {
      NewExperimentKeeps(g, token, x);
      PhaseKeeps(g.(store := g.store.(experiments := g.store.experiments[x.id := x])), token, Staged(x));
    }
  }

  lemma ExperimentIds(s: System)
    requires Inv(s)
    ensures forall e | e in s.store.experiments :: s.store.experiments[e].id == e && e in s.used
  {
    hide CandidatesOk, AttemptsOk, CompletionsOk, ClaimsOk, BuiltFrom;
  }

  lemma NewExperimentKeeps(s: System, token: string, x: Experiment)
    requires Inv(s) && token in s.completions && x.candidateId == s.completions[token].claim.candidate.candidateId
    requires x.id in s.used && x.id !in s.store.experiments && x.candidateId in s.used
    requires forall e | e in s.store.experiments :: s.store.experiments[e].candidateId != x.candidateId
    requires BuiltFrom(s.store.attempts, s.store.trades, x.candidateId, x.backtestAttemptId, x.trades)
    requires s.completions[token].claim.candidate.completionGeneration > 0
    ensures Inv(s.(store := s.store.(experiments := s.store.experiments[x.id := x])))
  {
    hide *;
    NewExperimentCandidates(s, token, x);
    NewExperimentUnique(s, x);
    NewExperimentCompletions(s, x);
    ReassembleExperiments(s, s.(store := s.store.(experiments := s.store.experiments[x.id := x])));
  }

  lemma ReassembleExperiments(s: System, r: System)
    requires Inv(s) && r == s.(store := s.store.(experiments := r.store.experiments)) && CandidatesOk(r)
    requires ExperimentsOk(s.store.attempts, s.store.trades, r.store.experiments, s.used)
    requires CompletionsOk(s.store.attempts, s.store.trades, r.store.experiments, s.completions, s.used)
    ensures Inv(r)
  {
    hide CandidatesOk, AttemptsOk, ExperimentsOk, CompletionsOk, ClaimsOk;
  }

  lemma RescoreKeeps(s: System, e: string, score: real, eligible: bool)
    requires Inv(s)
    ensures Inv(s.(store := UpdateExperimentScore(s.store, e, score, eligible)))
  {
    hide Inv, CandidatesOk, ExperimentsOk, CompletionsOk;
    if e in s.store.experiments {
      var x := s.store.experiments[e].(overallScore := score, rankEligible := eligible);
      RescoredCandidates(s, e, x);
      RescoredUnique(s, e, x);
      RescoredCompletions(s, e, x);
      ReassembleExperiments(s, s.(store := s.store.(experiments := s.store.experiments[e := x])));
    }
  }

  lemma RescoredCandidates(s: System, e: string, x: Experiment)
    requires Inv(s) && e in s.store.experiments && SameButScore(s.store.experiments[e], x)
    ensures CandidatesOk(s.(store := s.store.(experiments := s.store.experiments[e := x])))
  {
    var r := s.(store := s.store.(experiments := s.store.experiments[e := x]));
    hide AttemptsOk, ExperimentsOk, CompletionsOk, ClaimsOk, RecordOk, AttemptsFit, DispatchFits, BuiltFrom;
    forall c | c in r.store.candidates
      ensures CandidateOk(r, c, r.store.candidates[c])
    {
      assert CandidateOk(s, c, s.store.candidates[c]);
    }
  }

  lemma RescoredUnique(s: System, e: string, x: Experiment)
    requires Inv(s) && e in s.store.experiments && SameButScore(s.store.experiments[e], x)
    ensures ExperimentsOk(s.store.attempts, s.store.trades, s.store.experiments[e := x], s.used)
  {
    hide CandidatesOk, AttemptsOk, CompletionsOk, ClaimsOk, BuiltFrom;
  }

  lemma RescoredCompletions(s: System, e: string, x: Experiment)
    requires Inv(s) && e in s.store.experiments && SameButScore(s.store.experiments[e], x)
    ensures CompletionsOk(s.store.attempts, s.store.trades, s.store.experiments[e := x], s.completions, s.used)
  {
    var st, after := s.store, s.store.experiments[e := x];
    hide CandidatesOk, AttemptsOk, ExperimentsOk, ClaimsOk, BuiltFrom;
    forall t | t in s.completions
      ensures CompletionOk(st.attempts, st.trades, after, s.used, t, s.completions[t])
    {
      assert CompletionOk(st.attempts, st.trades, st.experiments, s.used, t, s.completions[t]);
    }
  }

  lemma NewExperimentCandidates(s: System, token: string, x: Experiment)
    requires Inv(s) && token in s.completions && x.candidateId == s.completions[token].claim.candidate.candidateId
    requires x.id !in s.store.experiments && s.completions[token].claim.candidate.completionGeneration > 0
    ensures CandidatesOk(s.(store := s.store.(experiments := s.store.experiments[x.id := x])))
  {
    var r := s.(store := s.store.(experiments := s.store.experiments[x.id := x]));
    hide AttemptsOk, ExperimentsOk, CompletionsOk, ClaimsOk, RecordOk, AttemptsFit, DispatchFits, BuiltFrom;
    forall c | c in r.store.candidates
      ensures CandidateOk(r, c, r.store.candidates[c])
    {
      assert CandidateOk(s, c, s.store.candidates[c]);
    }
  }

  lemma NewExperimentUnique(s: System, x: Experiment)
    requires Inv(s) && x.id in s.used && x.id !in s.store.experiments && x.candidateId in s.used
    requires forall e | e in s.store.experiments :: s.store.experiments[e].candidateId != x.candidateId
    requires BuiltFrom(s.store.attempts, s.store.trades, x.candidateId, x.backtestAttemptId, x.trades)
    ensures ExperimentsOk(s.store.attempts, s.store.trades, s.store.experiments[x.id := x], s.used)
  {
    hide CandidatesOk, AttemptsOk, CompletionsOk, ClaimsOk, BuiltFrom;
  }

  lemma NewExperimentCompletions(s: System, x: Experiment)
    requires Inv(s) && x.id !in s.store.experiments
    ensures CompletionsOk(s.store.attempts, s.store.trades, s.store.experiments[x.id := x], s.completions, s.used)
  {
    var st, after := s.store, s.store.experiments[x.id := x];
    hide CandidatesOk, AttemptsOk, ExperimentsOk, ClaimsOk, BuiltFrom;
    forall t | t in s.completions
      ensures CompletionOk(st.attempts, st.trades, after, s.used, t, s.completions[t])
    {
      assert CompletionOk(st.attempts, st.trades, st.experiments, s.used, t, s.completions[t]);
    }
  }

  lemma FinalizeKeeps(s: System, token: string)
    requires Inv(s) && token in s.completions && s.completions[token].phase.Staged?
    requires FinalizeCompletion(s.store, s.completions[token].claim, s.completions[token].phase.experiment.id,
      s.now).Success?
    ensures Inv(s.(store :=
      FinalizeCompletion(s.store, s.completions[token].claim, s.completions[token].phase.experiment.id, s.now).value))
  {
    CompletionHere(s, token);
    var c := s.completions[token].claim.candidate.candidateId;
    var k :=
      FinalizeCompletion(s.store, s.completions[token].claim, s.completions[token].phase.experiment.id,
      s.now).value.candidates[c];
    hide Inv, CompletionOk;
    Registered(s, c);
    assert CandidateOk(s, c, k);
    ReplaceCandidate(s, c, k);
  }

  lemma FinalizeFailureKeeps(s: System, claim: CompletionClaim)
    requires Inv(s) && FinalizeTerminalFailure(s.store, claim, s.now).Success?
    ensures Inv(s.(store := FinalizeTerminalFailure(s.store, claim, s.now).value))
  {
    var c := claim.candidate.candidateId;
    var k := FinalizeTerminalFailure(s.store, claim, s.now).value.candidates[c];
    hide Inv;
    Registered(s, c);
    assert CandidateOk(s, c, k);
    ReplaceCandidate(s, c, k);
  }

  lemma GiveUpKeeps(s: System, claim: CompletionClaim, retryAt: Option<int>, error: string)
    requires Inv(s) && FailCompletion(s.store, claim, retryAt, s.now, error).Success?
    ensures Inv(s.(store := FailCompletion(s.store, claim, retryAt, s.now, error).value))
  {
    var c := claim.candidate.candidateId;
    var k := FailCompletion(s.store, claim, retryAt, s.now, error).value.candidates[c];
    hide Inv;
    Registered(s, c);
    NoAudit(s, c);
    assert CandidateOk(s, c, k);
    ReplaceCandidate(s, c, k);
  }

  // ---------------------------------------------------------------- every run

  lemma ClaimWorkActKeeps(s: System, jobId: string, number: int, token: string)
    requires Inv(s)
    ensures Inv(Act(s, ClaimWork(jobId, number, token)))
  {
    hide Inv, ClaimWorkerAttempt;
    if token !in s.used && jobId in s.store.dispatches {
      TokensGrow(s, s.used + {token});
      JobsNamed(s);
      var job := s.store.dispatches[jobId].job;
      if 1 <= number <= job.maxAttempts
        && ClaimWorkerAttempt(s.store, job.candidateId, jobId, number, token, s.now, s.now + LEASE_MS).Some? {
        ClaimWorkKeeps(s, jobId, number, token);
      }
    }
  }

  lemma SucceedActKeeps(s: System, token: string, trades: seq<Trade>)
    requires Inv(s)
    ensures Inv(Act(s, Succeed(token, trades)))
  {
    hide Inv;
    if token in s.claims {
      var w := s.claims[token];
      if HoldsFence(s.store, w.candidate.candidateId, w.attempt.attemptId, token) {
        SucceedKeeps(s, w.candidate.candidateId, w.attempt.attemptId, token, trades);
      }
    }
  }

  lemma FailActKeeps(s: System, token: string, error: string)
    requires Inv(s)
    ensures Inv(Act(s, Action.Fail(token, error)))
  {
    hide Inv;
    if token in s.claims {
      var w := s.claims[token];
      if HoldsFence(s.store, w.candidate.candidateId, w.attempt.attemptId, token) {
        FailKeeps(s, w.candidate.candidateId, w.attempt.attemptId, token,
          w.attempt.attemptNumber < w.candidate.maxAttempts, error);
      }
    }
  }

  lemma ClaimResultActKeeps(s: System, c: string, token: string)
    requires Inv(s)
    ensures Inv(Act(s, ClaimResult(c, token)))
  {
    hide Inv, ClaimCompletion;
    if token !in s.used {
      TokensGrow(s, s.used + {token});
      if ClaimCompletion(s.store, c, token, s.now, s.now + LEASE_MS).Some? { ClaimResultKeeps(s, c, token); }
    }
  }

  predicate CompletionStep(a: Action) {
    a.LoadAttempt? || a.LoadTrades? || a.Stage? || a.Finalize? || a.FinalizeFailure? || a.GiveUp?
  }

  lemma CompletionActKeeps(s: System, a: Action)
    requires Inv(s) && CompletionStep(a)
    ensures Inv(Act(s, a))
  {
    hide Inv, LatestDone, ListTrades, StageExperiment, FinalizeCompletion, FinalizeTerminalFailure, FailCompletion;
    if a.token in s.completions {
      var job := s.completions[a.token];
      match a
      case LoadAttempt(token) =>
        var id := LatestDone(s.store.attempts, s.store.attemptOrder, job.claim.candidate.candidateId);
        if id.Some? { LoadAttemptKeeps(s, token, id.value); }
      case LoadTrades(token) =>
        if job.phase.Loaded? { LoadTradesKeeps(s, token); }
      case Stage(token, experimentId, score, eligible) =>
        if job.phase.Listed? && experimentId !in s.used {
          StageKeeps(s, token,
            Experiment(experimentId, job.claim.candidate.candidateId, job.phase.attempt.attemptId, job.phase.trades,
            score, eligible));
        }
      case Finalize(token) =>
        if job.phase.Staged? && FinalizeCompletion(s.store, job.claim, job.phase.experiment.id, s.now).Success? {
          FinalizeKeeps(s, token);
        }
      case FinalizeFailure(token) =>
        if FinalizeTerminalFailure(s.store, job.claim, s.now).Success? { FinalizeFailureKeeps(s, job.claim); }
      case GiveUp(token, retryAt, error) =>
        if FailCompletion(s.store, job.claim, retryAt, s.now, error).Success? {
          GiveUpKeeps(s, job.claim, retryAt, error);
        }
    }
  }

  lemma ActKeeps(s: System, a: Action)
    requires Inv(s)
    ensures Inv(Act(s, a))
  {
    hide Inv, HoldsFence, ClaimWorkerAttempt, PersistWorkerSuccess, FailWorkerAttempt, RecoverAbandonedAttempt,
      RepairTerminalQueueFailure,
      CancelCandidate, MarkDispatchCancelled, MarkDispatched, MarkDispatchFailed, SubmitCandidate, DeleteScope,
        ClaimCompletion,
      UpdateExperimentScore;
    match a
    case Submit(c, scopeId, maxAttempts) =>
      if c !in s.used && maxAttempts >= 1 {
        SubmitKeeps(s, c, scopeId, maxAttempts);
      }
    case ClaimWork(jobId, number, token) => ClaimWorkActKeeps(s, jobId, number, token);
    case Succeed(token, trades) => SucceedActKeeps(s, token, trades);
    case Fail(token, error) => FailActKeeps(s, token, error);
    case Recover(c, error) => RecoverKeeps(s, c, error);
    case Repair(c, error) => RepairKeeps(s, c, error);
    case Cancel(c) => CancelKeeps(s, c);
    case CancelDispatch(jobId) => CancelDispatchKeeps(s, jobId);
    case DispatchSent(jobId) => DispatchSentKeeps(s, jobId);
    case DispatchLost(jobId, error) => DispatchLostKeeps(s, jobId, error);
    case RemoveScope(scopeId) => RemoveScopeKeeps(s, scopeId);
    case ClaimResult(c, token) => ClaimResultActKeeps(s, c, token);
    case Rescore(e, score, eligible) => RescoreKeeps(s, e, score, eligible);
    case _ => CompletionActKeeps(s, a);
  }

  lemma TimePasses(s: System, at: int)
    requires Inv(s)
    ensures Inv(s.(now := at))
  {
    hide AttemptsOk, ExperimentsOk, CompletionsOk, ClaimsOk, RecordOk, AttemptsFit, CompletionsFit, DispatchFits;
    forall c | c in s.store.candidates
      ensures CandidateOk(s.(now := at), c, s.store.candidates[c])
    {
      assert CandidateOk(s, c, s.store.candidates[c]);
    }
  }

  lemma NextKeeps(s: System, e: Event)
    requires Inv(s)
    ensures Inv(Next(s, e)) && Next(s, e).now >= s.now
  {
    hide Inv, Act;
    if e.at >= s.now {
      TimePasses(s, e.at);
      ActKeeps(s.(now := e.at), e.action);
      ActKeepsTime(s.(now := e.at), e.action);
    }
  }

  lemma ActKeepsTime(s: System, a: Action)
    ensures Act(s, a).now == s.now
  {
    hide HoldsFence, ClaimWorkerAttempt, PersistWorkerSuccess, FailWorkerAttempt, RecoverAbandonedAttempt,
      RepairTerminalQueueFailure,
      CancelCandidate, MarkDispatchCancelled, MarkDispatched, MarkDispatchFailed, SubmitCandidate, DeleteScope,
        ClaimCompletion,
      LatestDone, ListTrades, StageExperiment, FinalizeCompletion, FinalizeTerminalFailure, FailCompletion;
  }

  /** The invariant holds after every sequence of events. */
  lemma {:induction false} RunKeeps(s: System, events: seq<Event>)
    requires Inv(s)
    ensures Inv(RunFrom(s, events))
    decreases |events|
  {
    hide Inv, Next;
    if events != [] {
      RunKeeps(s, events[..|events| - 1]);
      NextKeeps(RunFrom(s, events[..|events| - 1]), events[|events| - 1]);
    }
  }

  lemma Reachable(events: seq<Event>)
    ensures Inv(RunFrom(INITIAL, events))
  {
    InitialInv();
    RunKeeps(INITIAL, events);
  }
}
