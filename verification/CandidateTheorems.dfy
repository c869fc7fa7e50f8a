/** What the candidate protocol promises in every reachable state and along every run. */
module CandidateTheorems {
  import opened Wrappers
  import opened CandidateStore
  import opened CandidateProtocol
  import opened CandidateInvariant
  import opened CandidateSteps
  import opened CandidateHistory

  ghost predicate IsReachable(s: System) {
    exists events: seq<Event> :: s == RunFrom(INITIAL, events)
  }

  lemma ReachableInv(s: System)
    requires IsReachable(s)
    ensures Inv(s)
  {
    hide Inv, RunFrom;
    var events :| s == RunFrom(INITIAL, events);
    Reachable(events);
  }

  /** A property of single steps, carried along a run. */
  lemma LastStep(s: System, events: seq<Event>)
    requires Inv(s) && events != []
    ensures var m, e := RunFrom(s, events[..|events| - 1]), events[|events| - 1];
      && Inv(m)
      && RunFrom(s, events) == (if e.at < m.now then m else Act(m.(now := e.at), e.action))
      && (e.at >= m.now ==> Inv(m.(now := e.at)))
  {
    hide Inv, Act;
    RunKeeps(s, events[..|events| - 1]);
    var m, e := RunFrom(s, events[..|events| - 1]), events[|events| - 1];
    if e.at >= m.now { TimePasses(m, e.at); }
  }

  // ---------------------------------------------------------------- fencing

  /** The candidate still carries this fence token. */
  predicate ActiveFence(st: Store, c: string, t: string) {
    c in st.candidates && st.candidates[c].activeFenceToken == Some(t)
  }

  /** A worker passes the fence exactly when its candidate still carries its token. */
  lemma FenceIsTheCandidateToken(s: System, t: string)
    requires IsReachable(s) && t in s.claims
    ensures var w := s.claims[t];
      HoldsFence(s.store, w.candidate.candidateId, w.attempt.attemptId, t) <==>
        ActiveFence(s.store, w.candidate.candidateId, t)
  {
    ReachableInv(s);
    FenceOfCandidate(s, t);
  }

  lemma FenceOfCandidate(s: System, t: string)
    requires Inv(s) && t in s.claims
    ensures var w := s.claims[t];
      HoldsFence(s.store, w.candidate.candidateId, w.attempt.attemptId, t) <==>
        ActiveFence(s.store, w.candidate.candidateId, t)
  {
    var c := s.claims[t].candidate.candidateId;
    hide CandidatesOk, ExperimentsOk, CompletionsOk, Compatible;
    if ActiveFence(s.store, c, t) {
      Registered(s, c);
      var id := Delivery(c, s.store.candidates[c].activeAttemptNumber.value);
      assert AttemptOk(s.store.trades, s.claims, s.used, id, s.store.attempts[id]);
    }
  }

  lemma FenceStep(s: System, a: Action, c: string, t: string)
    requires Inv(s) && t in s.used && !ActiveFence(s.store, c, t)
    ensures !ActiveFence(Act(s, a).store, c, t)
  {
    hide Inv, Act;
    if c in s.store.candidates {
      ActMoves(s, a, c);
    } else if c in Act(s, a).store.candidates {
      ActAppears(s, a, c);
    }
  }

  lemma {:induction false} FenceStaysLost(s: System, events: seq<Event>, c: string, t: string)
    requires Inv(s) && t in s.used && !ActiveFence(s.store, c, t)
    ensures !ActiveFence(RunFrom(s, events).store, c, t) && t in RunFrom(s, events).used
      && Remembers(s, RunFrom(s, events))
    decreases |events|
  {
    hide Inv, Act, Retains;
    if events != [] {
      var m, e := RunFrom(s, events[..|events| - 1]), events[|events| - 1];
      FenceStaysLost(s, events[..|events| - 1], c, t);
      LastStep(s, events);
      if e.at >= m.now { FenceStep(m.(now := e.at), e.action, c, t); }
      RunRemembers(s, events);
    } else {
      RunRemembers(s, events);
    }
  }

  /** Nothing completed, no experiment, no identifier and no claim is ever forgotten. */
  lemma {:induction false} RunRemembers(s: System, events: seq<Event>)
    requires Inv(s)
    ensures Remembers(s, RunFrom(s, events))
    decreases |events|
  {
    hide Inv, Act;
    if events != [] {
      var m, e := RunFrom(s, events[..|events| - 1]), events[|events| - 1];
      RunRemembers(s, events[..|events| - 1]);
      LastStep(s, events);
      hide Remembers;
      if e.at >= m.now {
        ActRemembers(m.(now := e.at), e.action);
        TimeRemembers(m, e.at, Act(m.(now := e.at), e.action));
        RemembersTransitive(s, m, RunFrom(s, events));
      }
    }
  }

  lemma TimeRemembers(m: System, at: int, r: System)
    requires Remembers(m.(now := at), r)
    ensures Remembers(m, r)
  {
  }

  /** A worker whose token was superseded or cleared is turned away for ever, and changes nothing. */
  lemma StaleWorkerChangesNothing(s: System, t: string, events: seq<Event>, trades: seq<Trade>, retrying: bool,
          error: string)
    requires IsReachable(s) && t in s.claims && !ActiveFence(s.store, s.claims[t].candidate.candidateId, t)
    ensures var r, w := RunFrom(s, events), s.claims[t];
      && t in r.claims && r.claims[t] == w
      && PersistWorkerSuccess(r.store, w.candidate.candidateId, w.attempt.attemptId, t, trades, r.now)
        == Failure(FenceLost)
      && FailWorkerAttempt(r.store, w.candidate.candidateId, w.attempt.attemptId, t, retrying, r.now, error)
        == Failure(FenceLost)
      && Act(r, Succeed(t, trades)) == r && Act(r, Action.Fail(t, error)) == r
  {
    ReachableInv(s);
    ClaimTokensUsed(s, t);
    hide Inv, RunFrom, Retains;
    FenceStaysLost(s, events, s.claims[t].candidate.candidateId, t);
  }

  lemma ClaimTokensUsed(s: System, t: string)
    requires Inv(s) && t in s.claims
    ensures t in s.used && s.claims[t].attempt.attemptId.candidateId == s.claims[t].candidate.candidateId
  {
    hide CandidatesOk, AttemptsOk, ExperimentsOk, CompletionsOk;
  }

  /** Reporting an outcome uses the fence up, whichever way the report went. */
  lemma OutcomeClearsFence(s: System, t: string, a: Action)
    requires IsReachable(s) && t in s.claims && (a.Succeed? || a.Fail?) && a.token == t
    ensures !ActiveFence(Act(s, a).store, s.claims[t].candidate.candidateId, t)
  {
    ReachableInv(s);
    ClaimTokensUsed(s, t);
    FenceOfCandidate(s, t);
    var c := s.claims[t].candidate.candidateId;
    if c in s.store.candidates { RecordHolds(s, c); }
    hide Inv, Leads;
  }

  /** A granted work claim takes the fence away from every earlier claim on the candidate. */
  lemma ClaimSupersedesFence(s: System, t: string, jobId: string, number: int, token: string)
    requires IsReachable(s) && t in s.claims && token in Act(s, ClaimWork(jobId, number, token)).claims
      && token !in s.claims
    requires Act(s, ClaimWork(jobId, number, token)).claims[token].candidate.candidateId
      == s.claims[t].candidate.candidateId
    ensures var r, c := Act(s, ClaimWork(jobId, number, token)), s.claims[t].candidate.candidateId;
      ActiveFence(r.store, c, token) && !ActiveFence(r.store, c, t)
  {
    ReachableInv(s);
    hide Inv;
    JobsNamed(s);
    JobOfClaim(s, jobId, number, token);
    RecordHolds(s, jobId);
  }

  // ---------------------------------------------------------------- attempts

  /**
   * A candidate that is backtesting has exactly one running attempt bearing its fence token; only it or a cancelled one
   * has a token.
   */
  lemma OneActiveAttempt(s: System, c: string)
    requires IsReachable(s) && c in s.store.candidates
    ensures var k := s.store.candidates[c];
      && (k.status.Backtesting? ==> k.activeFenceToken.Some? && k.activeLeaseExpiresAt.Some?)
      && (k.activeFenceToken.Some? ==> (k.status.Backtesting? || k.status.Cancelled?) && k.activeAttemptNumber.Some?)
      && (k.activeFenceToken.Some? ==> forall id ::
            RunningFor(s.store.attempts, id, c, None) && s.store.attempts[id].fenceToken == k.activeFenceToken
            <==> id == Delivery(c, k.activeAttemptNumber.value))
  {
    ReachableInv(s);
    Registered(s, c);
    var k := s.store.candidates[c];
    if k.activeFenceToken.Some? {
      var active := Delivery(c, k.activeAttemptNumber.value);
      forall id | id in s.store.attempts && s.store.attempts[id].fenceToken == k.activeFenceToken
        ensures id == active
      {
        SameFenceSameAttempt(s, id, active);
      }
      hide Inv;
      OwnerOf(s, active);
    }
  }

  lemma SameFenceSameAttempt(s: System, x: AttemptId, y: AttemptId)
    requires Inv(s) && x in s.store.attempts && y in s.store.attempts
    requires s.store.attempts[x].fenceToken.Some? && s.store.attempts[x].fenceToken == s.store.attempts[y].fenceToken
    ensures x == y
  {
    hide CandidatesOk, ExperimentsOk, CompletionsOk, ClaimsOk, Compatible;
    assert AttemptOk(s.store.trades, s.claims, s.used, x, s.store.attempts[x]);
    assert AttemptOk(s.store.trades, s.claims, s.used, y, s.store.attempts[y]);
  }

  lemma OwnerOf(s: System, id: AttemptId)
    requires Inv(s) && id in s.store.attempts
    ensures s.store.attempts[id].candidateId == id.candidateId
  {
    AttemptOwners(s);
    hide Inv;
  }

  /** A completed attempt is its candidate's only one for ever, and neither it nor its trades are overwritten. */
  lemma CompletedOnce(s: System, events: seq<Event>, x: AttemptId, y: AttemptId)
    requires IsReachable(s) && x in s.store.attempts && s.store.attempts[x].status.Done?
    requires y in RunFrom(s, events).store.attempts && RunFrom(s, events).store.attempts[y].status.Done?
      && y.candidateId == x.candidateId
    ensures y == x && RunFrom(s, events).store.attempts[x] == s.store.attempts[x]
    ensures x in s.store.trades && x in RunFrom(s, events).store.trades
      && RunFrom(s, events).store.trades[x] == s.store.trades[x]
    ensures s.store.attempts[x].tradeCount == |s.store.trades[x]|
  {
    ReachableInv(s);
    hide RunFrom, Inv;
    RunRemembers(s, events);
    RunKeeps(s, events);
    DoneCounts(s, x);
    OneDone(RunFrom(s, events), x, y);
  }

  lemma DoneCounts(s: System, x: AttemptId)
    requires Inv(s) && x in s.store.attempts && s.store.attempts[x].status.Done?
    ensures x in s.store.trades && s.store.attempts[x].tradeCount == |s.store.trades[x]|
  {
    hide CandidatesOk, ExperimentsOk, CompletionsOk, ClaimsOk, Compatible;
    assert AttemptOk(s.store.trades, s.claims, s.used, x, s.store.attempts[x]);
  }

  lemma OneDone(s: System, x: AttemptId, y: AttemptId)
    requires Inv(s) && x in s.store.attempts && y in s.store.attempts
    requires s.store.attempts[x].status.Done? && s.store.attempts[y].status.Done? && x.candidateId == y.candidateId
    ensures x == y
  {
    hide CandidatesOk, ExperimentsOk, CompletionsOk, ClaimsOk, AttemptOk;
    assert Compatible(s.store.attempts, x, y);
  }

  function AttemptIds(attempts: Attempts, c: string): set<AttemptId> {
    set id | id in attempts && id.candidateId == c
  }

  function Deliveries(c: string, n: int): set<AttemptId> {
    set i | 1 <= i <= n :: Delivery(c, i)
  }

  lemma {:induction false} DeliveriesCount(c: string, n: nat)
    ensures |Deliveries(c, n)| == n
  {
    if n > 0 {
      DeliveriesCount(c, n - 1);
      assert Deliveries(c, n) == Deliveries(c, n - 1) + {Delivery(c, n)};
    } else {
      assert Deliveries(c, 0) == {};
    }
  }

  lemma SubsetCount<T>(a: set<T>, b: set<T>)
    requires a <= b
    ensures |a| <= |b|
  {
    assert b == a + (b - a);
  }

  /** No run gives a candidate more than `maxAttempts` attempt records, and a recovery record is the only one. */
  lemma AttemptsBounded(s: System, c: string)
    requires IsReachable(s) && c in s.store.candidates
    ensures var ids := AttemptIds(s.store.attempts, c);
      |ids| <= s.store.candidates[c].maxAttempts && (Recovery(c) in ids ==> ids == {Recovery(c)})
  {
    ReachableInv(s);
    var ids, max := AttemptIds(s.store.attempts, c), s.store.candidates[c].maxAttempts;
    RecordHolds(s, c);
    if Recovery(c) in ids {
      forall id | id in ids
        ensures id == Recovery(c)
      {
        RecoveryAlone(s, Recovery(c), id);
      }
      assert ids == {Recovery(c)};
    } else {
      NumbersInRange(s, c);
      hide Inv;
      assert ids <= Deliveries(c, max);
      SubsetCount(ids, Deliveries(c, max));
      DeliveriesCount(c, max);
    }
  }

  lemma RecoveryAlone(s: System, x: AttemptId, y: AttemptId)
    requires Inv(s) && x in s.store.attempts && y in s.store.attempts && x.Recovery? && x.candidateId == y.candidateId
    ensures x == y
  {
    hide CandidatesOk, ExperimentsOk, CompletionsOk, ClaimsOk, AttemptOk;
    assert Compatible(s.store.attempts, x, y);
  }

  lemma NumbersInRange(s: System, c: string)
    requires Inv(s) && c in s.store.candidates
    ensures forall id | id in s.store.attempts && id.candidateId == c && id.Delivery? ::
      1 <= id.number <= s.store.candidates[c].maxAttempts
  {
    Registered(s, c);
    hide CandidatesOk, ExperimentsOk, CompletionsOk, ClaimsOk, RecordOk, CompletionsFit, DispatchFits, Compatible;
    forall id | id in s.store.attempts && id.candidateId == c && id.Delivery?
      ensures 1 <= id.number <= s.store.candidates[c].maxAttempts
    {
      assert AttemptOk(s.store.trades, s.claims, s.used, id, s.store.attempts[id]);
    }
  }

  // ---------------------------------------------------------------- results

  /** A candidate never has two experiments, and of the one it has nothing ever changes but the two scores. */
  lemma OneExperiment(s: System, events: seq<Event>, e: string, f: string)
    requires IsReachable(s) && e in s.store.experiments && f in RunFrom(s, events).store.experiments
    requires RunFrom(s, events).store.experiments[f].candidateId == s.store.experiments[e].candidateId
    ensures f == e
    ensures var before, after := s.store.experiments[e], RunFrom(s, events).store.experiments[e];
      after == before.(overallScore := after.overallScore, rankEligible := after.rankEligible)
  {
    ReachableInv(s);
    hide RunFrom, Inv;
    RunRemembers(s, events);
    RunKeeps(s, events);
    ExperimentsDistinct(RunFrom(s, events), e, f);
  }

  lemma ExperimentsDistinct(s: System, e: string, f: string)
    requires Inv(s) && e in s.store.experiments && f in s.store.experiments
      && s.store.experiments[e].candidateId == s.store.experiments[f].candidateId
    ensures e == f
  {
    hide CandidatesOk, AttemptsOk, CompletionsOk, ClaimsOk, BuiltFrom;
  }

  /**
   * A completed candidate names its own experiment, and that holds the trades of its one completed attempt, no
   * cancellation audit.
   */
  lemma CompletedHasItsExperiment(s: System, c: string)
    requires IsReachable(s) && c in s.store.candidates && s.store.candidates[c].status.CompletedStatus?
    ensures var k, st := s.store.candidates[c], s.store;
      && k.experimentResultId.Some? && k.experimentResultId.value in st.experiments
      && var x := st.experiments[k.experimentResultId.value];
      && x.candidateId == c && DoneFor(st.attempts, x.backtestAttemptId, c)
        && !st.attempts[x.backtestAttemptId].auditOnly
      && x.backtestAttemptId in st.trades && x.trades == st.trades[x.backtestAttemptId]
      && (forall id | DoneFor(st.attempts, id, c) :: id == x.backtestAttemptId)
  {
    ReachableInv(s);
    Registered(s, c);
    var st, e := s.store, s.store.candidates[c].experimentResultId.value;
    ExperimentBuilt(s, e);
    hide Inv;
    OwnerOf(s, st.experiments[e].backtestAttemptId);
    forall id | DoneFor(st.attempts, id, c)
      ensures id == st.experiments[e].backtestAttemptId
    {
      OwnerOf(s, id);
      OneDone(s, id, st.experiments[e].backtestAttemptId);
    }
  }

  lemma ExperimentBuilt(s: System, e: string)
    requires Inv(s) && e in s.store.experiments
    ensures BuiltFrom(s.store.attempts, s.store.trades, s.store.experiments[e].candidateId,
      s.store.experiments[e].backtestAttemptId, s.store.experiments[e].trades)
  {
    hide CandidatesOk, AttemptsOk, CompletionsOk, ClaimsOk, BuiltFrom;
  }
}
