/** The invariant of every reachable state, and its preservation by every kind of store update. */
module CandidateInvariant {
  import opened Wrappers
  import opened CandidateStore
  import opened CandidateProtocol

  /** No result has been handed to completion yet. */
  predicate Early(k: Candidate) {
    k.status.Queued? || k.status.Backtesting? || k.status.RetryWait? || k.activeFenceToken.Some?
  }

  type Attempts = map<AttemptId, Attempt>

  type Trades = map<AttemptId, seq<Trade>>

  /** The candidate's active attempt exists, is running and carries its fence token. */
  predicate Leads(attempts: Attempts, k: Candidate) {
    && k.activeAttemptNumber.Some?
    && var id := Delivery(k.candidateId, k.activeAttemptNumber.value);
       id in attempts && attempts[id].status.Running? && attempts[id].fenceToken == k.activeFenceToken
  }

  /** What one candidate record satisfies on its own. */
  predicate RecordOk(c: string, k: Candidate) {
    && k.candidateId == c && k.queueJobId == c && k.maxAttempts >= 1
    && k.completionMaxAttempts == COMPLETION_MAX_ATTEMPTS
    && k.completionAttemptCount == k.completionGeneration <= k.completionMaxAttempts
    && (k.status.Backtesting? ==> k.activeFenceToken.Some? && k.activeLeaseExpiresAt.Some?)
    && (k.activeFenceToken.Some? ==> k.status.Backtesting? || k.status.Cancelled?)
    && (Early(k) ==> k.completionGeneration == 0)
    && (k.activeCompletionClaimToken.Some? ==>
          && k.completionGeneration > 0 && k.activeCompletionLeaseExpiresAt.Some?
          && (k.status.ProcessingResult? || k.status.TerminalFailurePending? || k.status.Cancelled?))
    && (k.activeCompletionClaimToken.None? ==> k.activeCompletionLeaseExpiresAt.None?)
    && (k.status.CompletedStatus? ==> k.experimentResultId.Some?)
  }

  /** How a candidate record agrees with its attempts. */
  ghost predicate AttemptsFit(attempts: Attempts, c: string, k: Candidate) {
    && (k.activeFenceToken.Some? ==> Leads(attempts, k))
    && (forall id | id in attempts && id.candidateId == c ::
          && (attempts[id].status.Done? || id.Recovery? ==> !Early(k))
          && (attempts[id].auditOnly ==> k.status.Cancelled? && k.completionGeneration == 0)
          && (id.Delivery? ==> id.number <= k.maxAttempts))
  }

  ghost predicate Untouched(experiments: map<string, Experiment>, completions: map<string, CompletionJob>, c: string) {
    && (forall e | e in experiments :: experiments[e].candidateId != c)
    && (forall t | t in completions :: completions[t].claim.candidate.candidateId != c)
  }

  /** How a candidate record agrees with its experiment and with the completion claims handed out for it. */
  ghost predicate CompletionsFit(experiments: map<string, Experiment>, completions: map<string, CompletionJob>,
          c: string, k: Candidate) {
    && (k.completionGeneration == 0 ==> Untouched(experiments, completions, c))
    && (k.activeCompletionClaimToken.Some? ==>
          var t := k.activeCompletionClaimToken.value;
          t in completions && completions[t].claim.candidate.candidateId == c
          && completions[t].claim.candidate.completionGeneration == k.completionGeneration)
    && (k.status.CompletedStatus? ==>
          k.experimentResultId.Some? && k.experimentResultId.value in experiments
          && experiments[k.experimentResultId.value].candidateId == c)
    && (forall t | t in completions && completions[t].claim.candidate.candidateId == c ::
          completions[t].claim.candidate.completionGeneration <= k.completionGeneration)
  }

  predicate DispatchFits(dispatches: map<string, Dispatch>, c: string, k: Candidate) {
    c in dispatches && dispatches[c].job == Job(c, c, k.maxAttempts)
  }

  ghost predicate CandidateOk(s: System, c: string, k: Candidate) {
    && RecordOk(c, k) && c in s.used
    && DispatchFits(s.store.dispatches, c, k)
    && AttemptsFit(s.store.attempts, c, k)
    && CompletionsFit(s.store.experiments, s.completions, c, k)
  }

  ghost predicate CandidatesOk(s: System) {
    forall c | c in s.store.candidates :: CandidateOk(s, c, s.store.candidates[c])
  }

  /** What an attempt record satisfies; its identifier and its fence token tie it to one claim. */
  ghost predicate AttemptOk(trades: Trades, claims: map<string, WorkerClaim>, used: set<string>, id: AttemptId,
          a: Attempt) {
    && a.attemptId == id && a.candidateId == id.candidateId && id.candidateId in used
    && (id.Delivery? ==> a.attemptNumber == id.number >= 1)
    && (id.Recovery? ==> a.status.Aborted? && a.fenceToken.None?)
    && (a.status.Running? ==> a.fenceToken.Some?)
    && (a.fenceToken.Some? ==> a.fenceToken.value in claims && claims[a.fenceToken.value].attempt.attemptId == id)
    && (a.auditOnly ==> a.status.Done?)
    && (a.status.Done? <==> id in trades)
    && (a.status.Done? ==> a.tradeCount == |trades[id]|)
  }

  /** Two attempts of one candidate are never both completed, and neither is a recovery record. */
  predicate Compatible(attempts: Attempts, x: AttemptId, y: AttemptId)
    requires x in attempts && y in attempts
  {
    x.candidateId == y.candidateId && x != y ==>
      !(attempts[x].status.Done? && attempts[y].status.Done?) && x.Delivery? && y.Delivery?
  }

  ghost predicate AttemptsOk(attempts: Attempts, order: seq<AttemptId>, trades: Trades, claims: map<string,
          WorkerClaim>, used: set<string>) {
    && (forall id | id in attempts :: AttemptOk(trades, claims, used, id, attempts[id]))
    && (forall id | id in trades :: id in attempts)
    && (forall id | id in attempts :: id in order)
    && (forall x, y | x in attempts && y in attempts :: Compatible(attempts, x, y))
  }

  /** The trades are those of a completed attempt of the candidate that is not a cancellation audit. */
  ghost predicate BuiltFrom(attempts: Attempts, trades: Trades, c: string, id: AttemptId, built: seq<Trade>) {
    && id in attempts && id.candidateId == c
    && attempts[id].status.Done? && !attempts[id].auditOnly
    && id in trades && trades[id] == built
  }

  ghost predicate ExperimentsOk(attempts: Attempts, trades: Trades, experiments: map<string, Experiment>,
          used: set<string>) {
    && (forall e | e in experiments ::
          var x := experiments[e];
          x.id == e && e in used && x.candidateId in used
            && BuiltFrom(attempts, trades, x.candidateId, x.backtestAttemptId, x.trades))
    && (forall e, f | e in experiments && f in experiments
      && experiments[e].candidateId == experiments[f].candidateId :: e == f)
  }

  ghost predicate PhaseOk(attempts: Attempts, trades: Trades, experiments: map<string, Experiment>, c: string,
          phase: Phase) {
    match phase
    case Claimed => true
    case Loaded(a) => a.attemptId in trades && BuiltFrom(attempts, trades, c, a.attemptId, trades[a.attemptId])
    case Listed(a, listed) => BuiltFrom(attempts, trades, c, a.attemptId, listed)
    case Staged(x) => x.id in experiments && experiments[x.id].candidateId == c
  }

  ghost predicate CompletionOk(attempts: Attempts, trades: Trades, experiments: map<string, Experiment>,
          used: set<string>, t: string, job: CompletionJob) {
    var k := job.claim.candidate;
    && job.claim.claimToken == t && t in used && k.candidateId in used
    && k.activeCompletionClaimToken == Some(t) && k.completionGeneration > 0
    && PhaseOk(attempts, trades, experiments, k.candidateId, job.phase)
    && (forall id | id in attempts && id.candidateId == k.candidateId :: !attempts[id].auditOnly)
  }

  ghost predicate CompletionsOk(attempts: Attempts, trades: Trades, experiments: map<string, Experiment>,
          completions: map<string, CompletionJob>, used: set<string>) {
    && (forall t | t in completions :: CompletionOk(attempts, trades, experiments, used, t, completions[t]))
    && (forall t, u | t in completions && u in completions && t != u
                      && completions[t].claim.candidate.candidateId == completions[u].claim.candidate.candidateId ::
          completions[t].claim.candidate.completionGeneration != completions[u].claim.candidate.completionGeneration)
  }

  predicate ClaimOk(used: set<string>, t: string, w: WorkerClaim) {
    && w.fenceToken == t && t in used
    && w.attempt.attemptId.Delivery? && w.attempt.attemptId.candidateId == w.candidate.candidateId
    && w.attempt.attemptNumber == w.attempt.attemptId.number
    && w.candidate.candidateId in used
  }

  ghost predicate ClaimsOk(claims: map<string, WorkerClaim>, used: set<string>) {
    forall t | t in claims :: ClaimOk(used, t, claims[t])
  }

  ghost predicate Inv(s: System) {
    var st := s.store;
    && CandidatesOk(s)
    && AttemptsOk(st.attempts, st.attemptOrder, st.trades, s.claims, s.used)
    && ExperimentsOk(st.attempts, st.trades, st.experiments, s.used)
    && CompletionsOk(st.attempts, st.trades, st.experiments, s.completions, s.used)
    && ClaimsOk(s.claims, s.used)
    && (forall d | d in st.dispatches :: st.dispatches[d].job.jobId == d)
  }

  lemma InitialInv()
    ensures Inv(INITIAL)
  {
  }

  // ---------------------------------------------------------------- updates that keep the invariant

  /** Replacing one candidate record by one that fits the unchanged rest. */
  lemma ReplaceCandidate(s: System, c: string, k: Candidate)
    requires Inv(s) && c in s.store.candidates && CandidateOk(s, c, k)
    ensures Inv(s.(store := SetCandidate(s.store, k)))
  {
    hide AttemptsFit, CompletionsFit, AttemptsOk, ExperimentsOk, CompletionsOk, ClaimsOk;
  }

  /** The other candidates do not notice a change to an attempt of `c`. */
  lemma OtherCandidatesKeep(s: System, r: System, c: string)
    requires CandidatesOk(s)
    requires s.used <= r.used && s.store.experiments == r.store.experiments && s.completions == r.completions
    requires forall d | d in r.store.candidates && d != c ::
      d in s.store.candidates && s.store.candidates[d] == r.store.candidates[d]
    requires forall d | d in s.store.dispatches && d != c ::
      d in r.store.dispatches && r.store.dispatches[d].job == s.store.dispatches[d].job
    requires forall id: AttemptId | id.candidateId != c :: (id in s.store.attempts <==> id in r.store.attempts)
    requires forall id | id in s.store.attempts && id.candidateId != c :: r.store.attempts[id] == s.store.attempts[id]
    requires c in r.store.candidates ==> CandidateOk(r, c, r.store.candidates[c])
    ensures CandidatesOk(r)
  {
    hide CompletionsFit;
    forall d | d in r.store.candidates
      ensures CandidateOk(r, d, r.store.candidates[d])
    {
      if d != c {
        assert CandidateOk(s, d, s.store.candidates[d]);
      }
    }
  }

  /** An attempt that is not completed may be replaced or added, if it stays tied to its claim. */
  lemma ReplaceAttempt(attempts: Attempts, order: seq<AttemptId>, trades: Trades, claims: map<string, WorkerClaim>,
          used: set<string>, a: Attempt)
    requires AttemptsOk(attempts, order, trades, claims, used)
    requires AttemptOk(trades, claims, used, a.attemptId, a) && !a.status.Done?
    requires forall id | id in attempts && id.candidateId == a.candidateId && id != a.attemptId ::
      id.Delivery? && a.attemptId.Delivery?
    ensures AttemptsOk(attempts[a.attemptId := a], if a.attemptId in attempts then order
      else order + [a.attemptId], trades, claims, used)
  {
    assert a.candidateId == a.attemptId.candidateId;
    hide AttemptOk;
    var after := attempts[a.attemptId := a];
    forall x, y | x in after && y in after
      ensures Compatible(after, x, y)
    {
      if x in attempts && y in attempts { assert Compatible(attempts, x, y); }
    }
  }

  lemma ReplaceAttemptElsewhere(s: System, a: Attempt)
    requires var st := s.store;
      && ExperimentsOk(st.attempts, st.trades, st.experiments, s.used)
      && CompletionsOk(st.attempts, st.trades, st.experiments, s.completions, s.used)
    requires a.attemptId in s.store.attempts ==> !s.store.attempts[a.attemptId].status.Done?
    requires !a.auditOnly
    ensures var st, after := s.store, s.store.attempts[a.attemptId := a];
      && ExperimentsOk(after, st.trades, st.experiments, s.used)
      && CompletionsOk(after, st.trades, st.experiments, s.completions, s.used)
  {
    var st, after := s.store, s.store.attempts[a.attemptId := a];
    assert ExperimentsOk(after, st.trades, st.experiments, s.used);
    forall t | t in s.completions
      ensures CompletionOk(after, st.trades, st.experiments, s.used, t, s.completions[t])
    {
      assert CompletionOk(st.attempts, st.trades, st.experiments, s.used, t, s.completions[t]);
    }
  }

  lemma AttemptOwners(s: System)
    requires Inv(s)
    ensures forall id | id in s.store.attempts ::
      s.store.attempts[id].candidateId == id.candidateId && s.store.attempts[id].attemptId == id
  {
    hide CandidatesOk, ExperimentsOk, CompletionsOk, ClaimsOk, Compatible;
  }

  lemma Registered(s: System, c: string)
    requires Inv(s) && c in s.store.candidates
    ensures CandidateOk(s, c, s.store.candidates[c])
    ensures c in s.used && DispatchFits(s.store.dispatches, c, s.store.candidates[c])
  {
    hide AttemptsOk, ExperimentsOk, CompletionsOk, ClaimsOk, RecordOk, AttemptsFit, CompletionsFit;
    assert CandidateOk(s, c, s.store.candidates[c]);
  }

  /** Replacing a candidate's record together with one of its attempts that is not completed. */
  lemma ReplaceBoth(s: System, c: string, k: Candidate, a: Attempt)
    requires Inv(s) && c in s.store.candidates && RecordOk(c, k) && DispatchFits(s.store.dispatches, c, k)
    requires a.candidateId == c && !a.status.Done? && AttemptOk(s.store.trades, s.claims, s.used, a.attemptId, a)
    requires a.attemptId in s.store.attempts ==> !s.store.attempts[a.attemptId].status.Done?
    requires forall id | id in s.store.attempts && id.candidateId == c && id != a.attemptId ::
      id.Delivery? && a.attemptId.Delivery?
    requires AttemptsFit(s.store.attempts[a.attemptId := a], c, k)
    requires CompletionsFit(s.store.experiments, s.completions, c, k)
    ensures Inv(s.(store := SetCandidate(SetAttempt(s.store, a), k)))
  {
    hide *;
    OwnIdentifier(s, a);
    Registered(s, c);
    AttemptOwners(s);
    ReplaceBothParts(s, c, k, a);
  }

  lemma OwnIdentifier(s: System, a: Attempt)
    requires AttemptOk(s.store.trades, s.claims, s.used, a.attemptId, a) && !a.status.Done?
    ensures a.attemptId.candidateId == a.candidateId && !a.auditOnly
  {
  }

  lemma ReplaceBothParts(s: System, c: string, k: Candidate, a: Attempt)
    requires Inv(s) && c in s.store.candidates && RecordOk(c, k)
    requires c in s.used && DispatchFits(s.store.dispatches, c, k)
    requires a.attemptId.candidateId == a.candidateId == c && !a.auditOnly
    requires !a.status.Done? && AttemptOk(s.store.trades, s.claims, s.used, a.attemptId, a)
    requires a.attemptId in s.store.attempts ==> !s.store.attempts[a.attemptId].status.Done?
    requires forall id | id in s.store.attempts :: s.store.attempts[id].candidateId == id.candidateId
    requires forall id | id in s.store.attempts && id.candidateId == c && id != a.attemptId ::
      id.Delivery? && a.attemptId.Delivery?
    requires AttemptsFit(s.store.attempts[a.attemptId := a], c, k)
    requires CompletionsFit(s.store.experiments, s.completions, c, k)
    ensures Inv(s.(store := SetCandidate(SetAttempt(s.store, a), k)))
  {
    hide AttemptOk, AttemptsFit, CompletionsFit, CandidatesOk, AttemptsOk, ExperimentsOk, CompletionsOk, ClaimsOk,
      DispatchFits;
    var r, st := s.(store := SetCandidate(SetAttempt(s.store, a), k)), s.store;
    assert k.candidateId == c;
    hide RecordOk;
    ReplaceAttempt(st.attempts, st.attemptOrder, st.trades, s.claims, s.used, a);
    ReplaceAttemptElsewhere(s, a);
    OtherCandidatesKeep(s, r, c);
  }

  // ---------------------------------------------------------------- identifiers issued

  lemma TokensGrow(s: System, used: set<string>)
    requires Inv(s) && s.used <= used
    ensures Inv(s.(used := used))
  {
    var r, st := s.(used := used), s.store;
    hide AttemptsFit, CompletionsFit, RecordOk, DispatchFits, PhaseOk, BuiltFrom, Compatible;
    assert CandidatesOk(r) by {
      hide AttemptsOk, ExperimentsOk, CompletionsOk, ClaimsOk;
      forall c | c in st.candidates
        ensures CandidateOk(r, c, st.candidates[c])
      {
        assert CandidateOk(s, c, st.candidates[c]);
      }
    }
    hide CandidatesOk;
    assert AttemptsOk(st.attempts, st.attemptOrder, st.trades, s.claims, used) by {
      hide ExperimentsOk, CompletionsOk, ClaimsOk;
    }
    hide AttemptsOk;
    assert CompletionsOk(st.attempts, st.trades, st.experiments, s.completions, used) by {
      hide ExperimentsOk, ClaimsOk;
    }
    hide CompletionsOk;
  }

  lemma UnusedUnclaimed(s: System, token: string)
    requires Inv(s) && token !in s.used
    ensures token !in s.claims && token !in s.completions
  {
    hide CandidatesOk, AttemptsOk, ExperimentsOk;
  }

  lemma FreshHasNoAttempts(s: System, c: string)
    requires Inv(s) && c !in s.used
    ensures forall id | id in s.store.attempts :: id.candidateId != c
  {
    hide CandidatesOk, ExperimentsOk, CompletionsOk, ClaimsOk, Compatible;
    forall id | id in s.store.attempts
      ensures id.candidateId != c
    {
      assert AttemptOk(s.store.trades, s.claims, s.used, id, s.store.attempts[id]);
    }
  }

  lemma FreshUntouched(s: System, c: string)
    requires Inv(s) && c !in s.used
    ensures Untouched(s.store.experiments, s.completions, c)
  {
    hide CandidatesOk, AttemptsOk, ClaimsOk, PhaseOk, BuiltFrom;
    forall t | t in s.completions
      ensures s.completions[t].claim.candidate.candidateId != c
    {
      assert CompletionOk(s.store.attempts, s.store.trades, s.store.experiments, s.used, t, s.completions[t]);
    }
  }

  lemma SubmitKeeps(s: System, c: string, scopeId: string, maxAttempts: int)
    requires Inv(s) && c !in s.used && maxAttempts >= 1
    ensures Inv(s.(store := SubmitCandidate(s.store, c, scopeId, maxAttempts, s.now), used := s.used + {c}))
  {
    var k := NewCandidate(c, scopeId, maxAttempts, s.now);
    FreshHasNoAttempts(s, c);
    FreshUntouched(s, c);
    TokensGrow(s, s.used + {c});
    assert RecordOk(c, k);
    hide Inv;
    NewRecordKeeps(s.(used := s.used + {c}), c, k, Dispatch(Job(c, c, maxAttempts), Pending, 0, None, s.now));
  }

  lemma NewRecordKeeps(s: System, c: string, k: Candidate, d: Dispatch)
    requires Inv(s) && c in s.used && RecordOk(c, k) && k.status.Queued?
    requires k.completionGeneration == 0 && d.job == Job(c, c, k.maxAttempts)
    requires forall id | id in s.store.attempts :: id.candidateId != c
    requires Untouched(s.store.experiments, s.completions, c)
    ensures Inv(s.(store := SetCandidate(s.store, k).(dispatches := s.store.dispatches[c := d])))
  {
    var r := s.(store := SetCandidate(s.store, k).(dispatches := s.store.dispatches[c := d]));
    hide CandidatesOk, AttemptsOk, ExperimentsOk, CompletionsOk, ClaimsOk;
    assert CandidateOk(r, c, k);
    hide CandidateOk, RecordOk;
    OtherCandidatesKeep(s, r, c);
  }

  // ---------------------------------------------------------------- worker claims

  lemma RegisterClaim(s: System, token: string, w: WorkerClaim)
    requires Inv(s) && token !in s.claims && ClaimOk(s.used, token, w)
    ensures Inv(s.(claims := s.claims[token := w]))
  {
    var st, after := s.store, s.claims[token := w];
    assert AttemptsOk(st.attempts, st.attemptOrder, st.trades, after, s.used) by {
      hide Compatible;
      forall id | id in st.attempts
        ensures AttemptOk(st.trades, after, s.used, id, st.attempts[id])
      {
        assert AttemptOk(st.trades, s.claims, s.used, id, st.attempts[id]);
      }
    }
    assert CandidatesOk(s.(claims := after)) by {
      hide RecordOk, AttemptsFit, CompletionsFit;
      forall c | c in st.candidates
        ensures CandidateOk(s.(claims := after), c, st.candidates[c])
      {
        assert CandidateOk(s, c, st.candidates[c]);
      }
    }
    hide CandidatesOk, AttemptsOk, ExperimentsOk, CompletionsOk;
  }

  lemma DispatchesChange(s: System, dispatches: map<string, Dispatch>)
    requires Inv(s)
    requires forall d | d in s.store.dispatches :: d in dispatches && dispatches[d].job == s.store.dispatches[d].job
    requires forall d | d in dispatches :: dispatches[d].job.jobId == d
    ensures Inv(s.(store := s.store.(dispatches := dispatches)))
  {
    var r := s.(store := s.store.(dispatches := dispatches));
    hide AttemptsOk, ExperimentsOk, CompletionsOk, ClaimsOk, RecordOk, AttemptsFit, CompletionsFit;
    forall c | c in s.store.candidates
      ensures CandidateOk(r, c, s.store.candidates[c])
    {
      assert CandidateOk(s, c, s.store.candidates[c]);
    }
  }

  lemma ClaimWorkKeeps(s: System, c: string, number: int, token: string)
    requires Inv(s) && token !in s.used && c in s.store.dispatches
      && 1 <= number <= s.store.dispatches[c].job.maxAttempts
    requires ClaimWorkerAttempt(s.store, s.store.dispatches[c].job.candidateId, c, number, token, s.now,
      s.now + LEASE_MS).Some?
    ensures var job := s.store.dispatches[c].job;
      var r := ClaimWorkerAttempt(s.store, job.candidateId, c, number, token, s.now, s.now + LEASE_MS);
      && job.candidateId == c && job.jobId == c
      && Inv(s.(store := r.value.0, used := s.used + {token}, claims := s.claims[token := r.value.1]))
  {
    hide *;
    JobOfClaim(s, c, number, token);
    TokensGrow(s, s.used + {token});
    UnusedUnclaimed(s, token);
    WorkerClaimKeeps(s.(used := s.used + {token}), c, number, token);
  }

  lemma WorkerClaimKeeps(s: System, c: string, number: int, token: string)
    requires Inv(s) && token !in s.claims && token in s.used
    requires c in s.store.dispatches && 1 <= number <= s.store.dispatches[c].job.maxAttempts
    requires ClaimWorkerAttempt(s.store, c, c, number, token, s.now, s.now + LEASE_MS).Some?
    ensures var r := ClaimWorkerAttempt(s.store, c, c, number, token, s.now, s.now + LEASE_MS);
      Inv(s.(store := r.value.0, claims := s.claims[token := r.value.1]))
  {
    var w := ClaimWorkerAttempt(s.store, c, c, number, token, s.now, s.now + LEASE_MS).value.1;
    hide Inv, CandidateOk, AttemptOk, RecordOk, DispatchFits, AttemptsFit, CompletionsFit, ClaimOk, Untouched;
    Registered(s, c);
    BacktestingIsEarly(s.store, c, number, token, s.now);
    Claimable(s, c);
    ClaimedAttempt(s, c, number, token, w);
    ClaimedRecord(s, c, number, token, w);
    InstallClaim(s, c, token, w);
  }

  lemma BacktestingIsEarly(st: Store, c: string, number: int, token: string, now: int)
    requires ClaimWorkerAttempt(st, c, c, number, token, now, now + LEASE_MS).Some?
    ensures c in st.candidates && Early(st.candidates[c])
  {
  }

  lemma InstallClaim(s: System, c: string, token: string, w: WorkerClaim)
    requires Inv(s) && token !in s.claims && ClaimOk(s.used, token, w)
    requires c in s.store.candidates && RecordOk(c, w.candidate) && DispatchFits(s.store.dispatches, c, w.candidate)
    requires w.attempt.candidateId == c && !w.attempt.status.Done? && w.attempt.attemptId.Delivery?
    requires forall id | id in s.store.attempts && id.candidateId == c ::
      id.Delivery? && !s.store.attempts[id].status.Done?
    requires w.attempt.attemptId.candidateId == c
    requires AttemptOk(s.store.trades, s.claims[token := w], s.used, w.attempt.attemptId, w.attempt)
    requires AttemptsFit(s.store.attempts[w.attempt.attemptId := w.attempt], c, w.candidate)
    requires CompletionsFit(s.store.experiments, s.completions, c, w.candidate)
    ensures Inv(s.(store := SetCandidate(SetAttempt(s.store, w.attempt), w.candidate), claims := s.claims[token := w]))
  {
    hide *;
    RegisterClaim(s, token, w);
    ReplaceBoth(s.(claims := s.claims[token := w]), c, w.candidate, w.attempt);
  }

  lemma JobOfClaim(s: System, d: string, number: int, token: string)
    requires Inv(s) && d in s.store.dispatches
    requires ClaimWorkerAttempt(s.store, s.store.dispatches[d].job.candidateId, d, number, token, s.now,
      s.now + LEASE_MS).Some?
    ensures s.store.dispatches[d].job.candidateId == d == s.store.dispatches[d].job.jobId
  {
    hide AttemptsOk, ExperimentsOk, CompletionsOk, ClaimsOk, AttemptsFit, CompletionsFit;
    var c := s.store.dispatches[d].job.candidateId;
    assert CandidateOk(s, c, s.store.candidates[c]);
  }

  /** A candidate that is still with the workers has no completed attempt and no recovery record. */
  lemma Claimable(s: System, c: string)
    requires Inv(s) && c in s.store.candidates && Early(s.store.candidates[c])
    ensures forall id | id in s.store.attempts && id.candidateId == c ::
      id.Delivery? && !s.store.attempts[id].status.Done? && !s.store.attempts[id].auditOnly && id !in s.store.trades
    ensures forall id | id in s.store.attempts && id.candidateId == c && id.Delivery? ::
      id.number <= s.store.candidates[c].maxAttempts
    ensures Untouched(s.store.experiments, s.completions, c)
    ensures s.store.candidates[c].completionGeneration == 0
    ensures RecordOk(c, s.store.candidates[c])
    ensures forall id | id in s.store.trades :: id in s.store.attempts
  {
    var k := s.store.candidates[c];
    assert CandidateOk(s, c, k);
    hide CandidatesOk, ExperimentsOk, CompletionsOk, ClaimsOk, Compatible;
    forall id | id in s.store.attempts && id.candidateId == c
      ensures id.Delivery? && !s.store.attempts[id].status.Done? && !s.store.attempts[id].auditOnly
        && id !in s.store.trades
    {
      assert AttemptOk(s.store.trades, s.claims, s.used, id, s.store.attempts[id]);
    }
  }

  /** The attempt a successful work claim writes is tied to that claim. */
  lemma ClaimedAttempt(s: System, c: string, number: int, token: string, w: WorkerClaim)
    requires Inv(s) && c in s.store.candidates && s.store.candidates[c].candidateId == c && 1 <= number
      && token in s.used && c in s.used
    requires forall id | id in s.store.attempts && id.candidateId == c ::
      !s.store.attempts[id].auditOnly && id !in s.store.trades
    requires forall id | id in s.store.trades :: id in s.store.attempts
    requires var r := ClaimWorkerAttempt(s.store, c, c, number, token, s.now, s.now + LEASE_MS);
      r.Some? && r.value.1 == w
    ensures ClaimOk(s.used, token, w)
    ensures w.attempt.candidateId == c && w.attempt.attemptId == Delivery(c, number) && w.attempt.status.Running?
    ensures w.attempt.fenceToken == Some(token) && !w.attempt.auditOnly
    ensures AttemptOk(s.store.trades, s.claims[token := w], s.used, w.attempt.attemptId, w.attempt)
  {
    var st, id := s.store, Delivery(c, number);
    hide CandidatesOk, ExperimentsOk, CompletionsOk, ClaimsOk, Compatible;
    if id in st.attempts { assert AttemptOk(st.trades, s.claims, s.used, id, st.attempts[id]); }
  }

  /** The candidate record it writes fits that attempt. */
  lemma ClaimedRecord(s: System, c: string, number: int, token: string, w: WorkerClaim)
    requires c in s.store.candidates && RecordOk(c, s.store.candidates[c])
    requires DispatchFits(s.store.dispatches, c, s.store.candidates[c])
      && 1 <= number <= s.store.dispatches[c].job.maxAttempts
    requires forall id | id in s.store.attempts && id.candidateId == c ::
      id.Delivery? && !s.store.attempts[id].status.Done? && !s.store.attempts[id].auditOnly
    requires forall id | id in s.store.attempts && id.candidateId == c && id.Delivery? ::
      id.number <= s.store.candidates[c].maxAttempts
    requires Untouched(s.store.experiments, s.completions, c)
    requires var r := ClaimWorkerAttempt(s.store, c, c, number, token, s.now, s.now + LEASE_MS);
      r.Some? && r.value.1 == w
    requires w.attempt.attemptId == Delivery(c, number) && w.attempt.status.Running?
      && w.attempt.fenceToken == Some(token)
      && !w.attempt.auditOnly
    ensures RecordOk(c, w.candidate) && DispatchFits(s.store.dispatches, c, w.candidate)
    ensures AttemptsFit(s.store.attempts[w.attempt.attemptId := w.attempt], c, w.candidate)
    ensures CompletionsFit(s.store.experiments, s.completions, c, w.candidate)
  {
  }
}
