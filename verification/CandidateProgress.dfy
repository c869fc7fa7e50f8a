/** Where results come from, and which candidates can still be brought to an end. */
module CandidateProgress {
  import opened Wrappers
  import opened CandidateStore
  import opened CandidateProtocol
  import opened CandidateInvariant
  import opened CandidateSteps
  import opened CandidateHistory
  import opened CandidateTheorems
  import opened CandidateOutcomes
  import opened CandidateCounters

  // ---------------------------------------------------------------- provenance of trades

  /** At event `i` of the run a worker that held the fence through this attempt reported exactly these trades. */
  ghost predicate ReportedAt(events: seq<Event>, i: nat, id: AttemptId, trades: seq<Trade>) {
    && i < |events| && events[i].action.Succeed? && events[i].action.trades == trades
    && var before := RunFrom(INITIAL, events[..i]);
    && events[i].at >= before.now && events[i].action.token in before.claims
    && before.claims[events[i].action.token].attempt.attemptId == id
    && HoldsFence(before.store, before.claims[events[i].action.token].candidate.candidateId, id, events[i].action.token)
  }

  /** Trades are stored only by an accepted success report. */
  lemma TradesStoredBySuccess(s: System, a: Action, id: AttemptId)
    requires id in Act(s, a).store.trades && (id !in s.store.trades || Act(s, a).store.trades[id] != s.store.trades[id])
    ensures a.Succeed? && a.token in s.claims && s.claims[a.token].attempt.attemptId == id
      && a.trades == Act(s, a).store.trades[id]
    ensures HoldsFence(s.store, s.claims[a.token].candidate.candidateId, id, a.token)
  {
    hide Act;
    if a.Succeed? {
      SuccessStores(s, a);
    } else if a.ClaimWork? || a.Fail? || a.Recover? || a.Repair? {
      WorkersStoreNone(s, a);
    } else {
      OthersStoreNone(s, a);
    }
  }

  lemma SuccessStores(s: System, a: Action)
    requires a.Succeed?
    ensures Act(s, a).store.trades == s.store.trades
      || (a.token in s.claims
        && HoldsFence(s.store, s.claims[a.token].candidate.candidateId, s.claims[a.token].attempt.attemptId, a.token)
          && Act(s, a).store.trades == s.store.trades[s.claims[a.token].attempt.attemptId := a.trades])
  {
    hide HoldsFence, Release;
  }

  lemma WorkersStoreNone(s: System, a: Action)
    requires a.ClaimWork? || a.Fail? || a.Recover? || a.Repair?
    ensures Act(s, a).store.trades == s.store.trades
  {
    hide FirstRunning, HasAttempt, Release, Abort, SyntheticAttempt, HoldsFence;
  }

  lemma OthersStoreNone(s: System, a: Action)
    requires !a.Succeed? && !a.ClaimWork? && !a.Fail? && !a.Recover? && !a.Repair?
    ensures Act(s, a).store.trades == s.store.trades
  {
    hide LatestDone, ListTrades, FindExperiment, Unclaim, CancelledCopy, NewCandidate, HoldsCompletion;
  }

  lemma ReportedLater(events: seq<Event>, e: Event, i: nat, id: AttemptId, trades: seq<Trade>)
    requires ReportedAt(events, i, id, trades)
    ensures ReportedAt(events + [e], i, id, trades)
  {
    hide RunFrom, HoldsFence;
    assert (events + [e])[..i] == events[..i];
  }

  lemma ReportedNow(events: seq<Event>, e: Event, id: AttemptId, trades: seq<Trade>)
    requires var m := RunFrom(INITIAL, events);
      && e.at >= m.now && e.action.Succeed? && e.action.trades == trades && e.action.token in m.claims
      && m.claims[e.action.token].attempt.attemptId == id
        && HoldsFence(m.store, m.claims[e.action.token].candidate.candidateId, id, e.action.token)
    ensures ReportedAt(events + [e], |events|, id, trades)
  {
    hide RunFrom, HoldsFence;
    assert (events + [e])[..|events|] == events;
  }

  /** Whatever trades are stored for an attempt were reported, just so, by the worker that held its fence. */
  lemma {:induction false} TradesWereReported(events: seq<Event>, id: AttemptId)
    requires id in RunFrom(INITIAL, events).store.trades
    ensures exists i :: ReportedAt(events, i, id, RunFrom(INITIAL, events).store.trades[id])
    decreases |events|
  {
    var past, e := events[..|events| - 1], events[|events| - 1];
    var m, r := RunFrom(INITIAL, past), RunFrom(INITIAL, events);
    assert events == past + [e];
    InitialInv();
    LastStep(INITIAL, events);
    hide RunFrom, Inv, Act, HoldsFence, ReportedAt;
    if id in m.store.trades && m.store.trades[id] == r.store.trades[id] {
      TradesWereReported(past, id);
      var i :| ReportedAt(past, i, id, m.store.trades[id]);
      ReportedLater(past, e, i, id, m.store.trades[id]);
    } else {
      TradesStoredBySuccess(m.(now := e.at), e.action, id);
      ReportedNow(past, e, id, r.store.trades[id]);
    }
  }

  /**
   * The trades of a completed candidate's experiment are those one worker reported while it held the candidate's fence.
   */
  lemma ResultWasReported(events: seq<Event>, c: string)
    requires var s := RunFrom(INITIAL, events); c in s.store.candidates && s.store.candidates[c].status.CompletedStatus?
    ensures var s := RunFrom(INITIAL, events); var e := s.store.candidates[c].experimentResultId;
      && e.Some? && e.value in s.store.experiments
      && var x := s.store.experiments[e.value];
        x.candidateId == c && exists i :: ReportedAt(events, i, x.backtestAttemptId, x.trades)
  {
    hide RunFrom, Inv, ReportedAt;
    var s := RunFrom(INITIAL, events);
    Reached(events);
    CompletedHasItsExperiment(s, c);
    TradesWereReported(events, s.store.experiments[s.store.candidates[c].experimentResultId.value].backtestAttemptId);
  }

  // ---------------------------------------------------------------- which candidates can be concluded

  /** Neither a cancel of the candidate nor the removal of a scope. */
  predicate HandsOff(e: Event, c: string) {
    !(e.action.Cancel? && e.action.candidateId == c) && !e.action.RemoveScope?
  }

  ghost predicate AllHandsOff(events: seq<Event>, c: string) {
    forall i | 0 <= i < |events| :: HandsOff(events[i], c)
  }

  predicate Concluded(st: Store, c: string) {
    c in st.candidates && (st.candidates[c].status.CompletedStatus? || st.candidates[c].status.FailedStatus?)
  }

  lemma StrandedRepair(s: System, c: string, error: string)
    requires Inv(s) && Stranded(s, c)
    ensures Stranded(Act(s, Repair(c, error)), c)
  {
    RecordHolds(s, c);
    hide Inv, FirstRunning, HasAttempt, SyntheticAttempt, Abort;
  }

  lemma StrandedNext(s: System, a: Action, c: string)
    requires Inv(s) && Stranded(s, c) && !(a.Cancel? && a.candidateId == c) && !a.RemoveScope?
    ensures Stranded(Act(s, a), c)
  {
    hide Inv, Act, ExpiredOrAbsent;
    if a.Repair? && a.candidateId == c {
      StrandedRepair(s, c, a.error);
    } else {
      StrandedStep(s, a, c);
      ActKeepsTime(s, a);
    }
  }

  lemma StrandedLater(s: System, at: int, c: string)
    requires Stranded(s, c) && at >= s.now
    ensures Stranded(s.(now := at), c)
  {
  }

  lemma {:induction false} StrandedStays(s: System, events: seq<Event>, c: string)
    requires Inv(s) && Stranded(s, c) && AllHandsOff(events, c)
    ensures Stranded(RunFrom(s, events), c)
    decreases |events|
  {
    hide Inv, Act, Stranded;
    if events != [] {
      var m, e := RunFrom(s, events[..|events| - 1]), events[|events| - 1];
      StrandedStays(s, events[..|events| - 1], c);
      LastStep(s, events);
      assert HandsOff(e, c);
      if e.at >= m.now {
        StrandedLater(m, e.at, c);
        StrandedNext(m.(now := e.at), e.action, c);
      }
    }
  }

  /** Stranded, or cancelled or removed since, with no completion claim that holds. */
  ghost predicate BeyondConclusion(s: System, c: string) {
    c in s.used && NoClaimHolds(s, c) && (Stranded(s, c) || CancelledOrGone(s.store, c))
  }

  lemma StrandedHoldsNone(s: System, c: string)
    requires Stranded(s, c)
    ensures NoClaimHolds(s, c)
  {
  }

  lemma BeyondLater(s: System, at: int, c: string)
    requires BeyondConclusion(s, c) && at >= s.now
    ensures BeyondConclusion(s.(now := at), c)
  {
  }

  lemma BeyondNext(s: System, a: Action, c: string)
    requires Inv(s) && BeyondConclusion(s, c)
    ensures BeyondConclusion(Act(s, a), c)
  {
    hide Inv, Act, Stranded, NoClaimHolds, Retains;
    ActRemembers(s, a);
    if CancelledOrGone(s.store, c) {
      CancelledStep(s, a, c);
      NoClaimStep(s, a, c);
    } else {
      StrandedLeft(s, a, c);
      NoClaimRevived(s, a, c);
    }
  }

  /** A claim that has been lost stays lost, and a stranded candidate is granted no other. */
  lemma NoClaimRevived(s: System, a: Action, c: string)
    requires Inv(s) && Stranded(s, c) && NoClaimHolds(s, c)
    ensures NoClaimHolds(Act(s, a), c)
  {
    hide Inv, Act, Held, Retains;
    ActRemembers(s, a);
    forall t | t in Act(s, a).completions && Act(s, a).completions[t].claim.candidate.candidateId == c
      ensures !Held(Act(s, a), t)
    {
      if t in s.completions { HeldStep(s, a, t); } else { GrantsNone(s, a, c, t); }
    }
  }

  lemma GrantsNone(s: System, a: Action, c: string, t: string)
    requires Inv(s) && Stranded(s, c) && t !in s.completions && t in Act(s, a).completions
    ensures Act(s, a).completions[t].claim.candidate.candidateId != c
  {
    hide Inv, Act;
    ClaimsOnlyPending(s, a, t);
    RecordsHold(s);
    StrandedGrantsNone(s, a, t);
  }

  lemma StrandedGrantsNone(s: System, a: Action, t: string)
    requires a.ClaimResult? && t !in s.completions && t in Act(s, a).completions && a.candidateId in s.store.candidates
    ensures !Stranded(s, a.candidateId)
  {
  }

  /** One step leaves a stranded candidate stranded, cancels it or removes it. */
  lemma StrandedLeft(s: System, a: Action, c: string)
    requires Inv(s) && Stranded(s, c)
    ensures Stranded(Act(s, a), c) || CancelledOrGone(Act(s, a).store, c)
  {
    hide Inv, Act, Stranded;
    if a.Cancel? && a.candidateId == c {
      CancelCancels(s, c);
    } else if a.RemoveScope? {
      RemovalLeaves(s, a.scopeId, c);
    } else {
      StrandedNext(s, a, c);
    }
  }

  lemma CancelCancels(s: System, c: string)
    requires Inv(s) && Stranded(s, c)
    ensures CancelledOrGone(Act(s, Cancel(c)).store, c)
  {
    RecordHolds(s, c);
    hide Inv;
  }

  lemma RemovalLeaves(s: System, scopeId: string, c: string)
    requires Stranded(s, c)
    ensures Stranded(Act(s, RemoveScope(scopeId)), c) || CancelledOrGone(Act(s, RemoveScope(scopeId)).store, c)
  {
  }

  lemma {:induction false} BeyondForever(s: System, events: seq<Event>, c: string)
    requires Inv(s) && BeyondConclusion(s, c)
    ensures BeyondConclusion(RunFrom(s, events), c)
    decreases |events|
  {
    hide Inv, Act, BeyondConclusion;
    if events != [] {
      var m, e := RunFrom(s, events[..|events| - 1]), events[|events| - 1];
      BeyondForever(s, events[..|events| - 1], c);
      LastStep(s, events);
      if e.at >= m.now {
        BeyondLater(m, e.at, c);
        BeyondNext(m.(now := e.at), e.action, c);
      }
    }
  }

  /**
   * A candidate whose fifth completion claim ran out is concluded by no run at all, and stays stranded unless cancelled
   * or removed.
   */
  lemma StrandedForever(s: System, events: seq<Event>, c: string)
    requires Inv(s) && Stranded(s, c)
    ensures !Concluded(RunFrom(s, events).store, c)
    ensures AllHandsOff(events, c) ==> Stranded(RunFrom(s, events), c)
  {
    RecordHolds(s, c);
    hide Inv, RunFrom, Stranded, NoClaimHolds, AllHandsOff;
    if AllHandsOff(events, c) { StrandedStays(s, events, c); }
    StrandedHoldsNone(s, c);
    BeyondForever(s, events, c);
    if Stranded(RunFrom(s, events), c) { StrandedNotConcluded(RunFrom(s, events), c); }
  }

  lemma StrandedNotConcluded(s: System, c: string)
    requires Stranded(s, c)
    ensures !Concluded(s.store, c)
  {
  }

  // ---- the other direction: a run that concludes the candidate

  function Repeated(n: nat): string {
    seq(n, _ => 'x')
  }

  /** A token that was never issued: one longer than all issued ones. */
  lemma {:induction false} LongerThanAll(used: set<string>) returns (n: nat)
    ensures forall t | t in used :: |t| < n
  {
    if used == {} {
      n := 0;
    } else {
      var t :| t in used;
      var m := LongerThanAll(used - {t});
      n := if m > |t| then m else |t| + 1;
      assert forall u | u in used :: u == t || u in used - {t};
    }
  }

  /** A live candidate, given over to pending failure. */
  predicate Failing(s: System, c: string) {
    c in s.store.candidates && s.store.candidates[c].status.TerminalFailurePending?
      && s.store.candidates[c].candidateId == c
    && s.store.candidates[c].completionAttemptCount < s.store.candidates[c].completionMaxAttempts
  }

  lemma RepairFails(s: System, c: string)
    requires Inv(s) && c in s.store.candidates && !Terminal(s.store.candidates[c].status)
    requires s.store.candidates[c].completionAttemptCount < s.store.candidates[c].completionMaxAttempts
    ensures Failing(Act(s, Repair(c, "")), c)
  {
    RecordHolds(s, c);
    hide Inv, FirstRunning, HasAttempt, SyntheticAttempt, Abort;
  }

  /** A time at which nothing stands in the way of a completion claim. */
  function Due(k: Candidate, now: int): (t: int)
    ensures t >= now && ExpiredOrAbsent(k.completionNextRetryAt, t)
      && ExpiredOrAbsent(k.activeCompletionLeaseExpiresAt, t)
  {
    var a := if k.completionNextRetryAt.Some?
      && k.completionNextRetryAt.value > now then k.completionNextRetryAt.value else now;
    if k.activeCompletionLeaseExpiresAt.Some?
      && k.activeCompletionLeaseExpiresAt.value > a then k.activeCompletionLeaseExpiresAt.value else a
  }

  /** The failure is claimed and ready to be concluded. */
  predicate ReadyToFail(s: System, c: string, t: string) {
    && Held(s, t) && s.completions[t].claim.candidate.candidateId == c
      && s.completions[t].claim.candidate.status.TerminalFailurePending?
    && s.store.candidates[c].status.TerminalFailurePending? && s.store.candidates[c].candidateId == c
  }

  lemma ClaimsFailure(s: System, c: string, t: string)
    requires Failing(s, c) && t !in s.used
    requires ExpiredOrAbsent(s.store.candidates[c].completionNextRetryAt, s.now)
      && ExpiredOrAbsent(s.store.candidates[c].activeCompletionLeaseExpiresAt, s.now)
    ensures ReadyToFail(Act(s, ClaimResult(c, t)), c, t)
  {
  }

  lemma ConcludesFailure(s: System, c: string, t: string)
    requires ReadyToFail(s, c, t)
    ensures Concluded(Act(s, FinalizeFailure(t)).store, c)
  {
  }

  lemma NextIs(s: System, events: seq<Event>, a: Action, at: int)
    requires at >= RunFrom(s, events).now
    ensures RunFrom(s, events + [Event(a, at)]) == Act(RunFrom(s, events).(now := at), a)
  {
    hide Act;
    assert (events + [Event(a, at)])[..|events|] == events;
  }

  /** With a completion attempt left: repair, claim the failure when it is due, and conclude it. */
  lemma FailsInThreeSteps(s: System, c: string) returns (events: seq<Event>)
    requires Inv(s) && c in s.store.candidates && !Terminal(s.store.candidates[c].status)
    requires s.store.candidates[c].completionAttemptCount < s.store.candidates[c].completionMaxAttempts
    ensures AllHandsOff(events, c) && |events| <= 3 && Concluded(RunFrom(s, events).store, c)
  {
    hide Inv, Act, RunFrom, Failing, ReadyToFail, Concluded, ExpiredOrAbsent;
    var s0 := StartOf(s);
    var s1 := Act(s, Repair(c, ""));
    RepairFails(s, c);
    ActKeepsTime(s, Repair(c, ""));
    NextIs(s, [], Repair(c, ""), s.now);
    var n := LongerThanAll(s1.used);
    var t := Repeated(n);
    FailingHere(s1, c);
    var at := Due(s1.store.candidates[c], s1.now);
    var late := s1.(now := at);
    FailingLater(s1, c, at);
    ClaimsFailure(late, c, t);
    var s2 := Act(late, ClaimResult(c, t));
    ActKeepsTime(late, ClaimResult(c, t));
    NextIs(s, [] + [Event(Repair(c, ""), s.now)], ClaimResult(c, t), at);
    ConcludesFailure(s2, c, t);
    NextIs(s, [] + [Event(Repair(c, ""), s.now)] + [Event(ClaimResult(c, t), at)], FinalizeFailure(t), at);
    events := [] + [Event(Repair(c, ""), s.now)] + [Event(ClaimResult(c, t), at)] + [Event(FinalizeFailure(t), at)];
    assert s2.(now := at) == s2;
  }

  lemma StartOf(s: System) returns (r: System)
    ensures r == s && RunFrom(s, []) == s && s.(now := s.now) == s
  {
    r := s;
  }

  lemma FailingHere(s: System, c: string)
    requires Failing(s, c)
    ensures c in s.store.candidates
  {
  }

  lemma FailingLater(s: System, c: string, at: int)
    requires Failing(s, c)
    ensures Failing(s.(now := at), c)
  {
  }

  /** With the last completion attempt still held: its own failure report concludes the candidate. */
  lemma FailsByGivingUp(s: System, c: string) returns (events: seq<Event>)
    requires Inv(s) && c in s.store.candidates && !Terminal(s.store.candidates[c].status) && !Stranded(s, c)
    requires s.store.candidates[c].completionAttemptCount >= s.store.candidates[c].completionMaxAttempts
    ensures AllHandsOff(events, c) && |events| <= 3 && Concluded(RunFrom(s, events).store, c)
  {
    RecordHolds(s, c);
    var t := s.store.candidates[c].activeCompletionClaimToken.value;
    LastClaimHeld(s, c);
    hide Inv, Act, RunFrom;
    var s0 := StartOf(s);
    GiveUpOverwrites(s, c, t, None, "");
    NextIs(s, [], GiveUp(t, None, ""), s.now);
    events := [] + [Event(GiveUp(t, None, ""), s.now)];
  }

  lemma LastClaimHeld(s: System, c: string)
    requires Inv(s) && c in s.store.candidates && !Terminal(s.store.candidates[c].status) && !Stranded(s, c)
    requires s.store.candidates[c].completionAttemptCount >= s.store.candidates[c].completionMaxAttempts
    ensures s.store.candidates[c].activeCompletionClaimToken.Some?
    ensures var t := s.store.candidates[c].activeCompletionClaimToken.value;
      Held(s, t) && s.completions[t].claim.candidate.candidateId == c
  {
    Registered(s, c);
    CompletionHere(s, s.store.candidates[c].activeCompletionClaimToken.value);
  }

  // ---- a run that strands a candidate

  /**
   * The result was claimed `n` times, each time one lease after the last, and the tokens issued are shorter than the
   * next one.
   */
  predicate ClaimedTimes(s: System, n: nat) {
    && "c" in s.store.candidates && s.now <= n * LEASE_MS && (forall t | t in s.used :: |t| < n + 10)
    && var k := s.store.candidates["c"];
    && k.candidateId == "c" && k.status.ProcessingResult? && k.completionAttemptCount == n
      && k.completionMaxAttempts == 5
    && ExpiredOrAbsent(k.completionNextRetryAt, n * LEASE_MS)
      && ExpiredOrAbsent(k.activeCompletionLeaseExpiresAt, n * LEASE_MS)
  }

  lemma FinishedUnclaimed(s: System)
    requires Finished(s)
    ensures ClaimedTimes(s, 0)
  {
  }

  lemma ClaimsAgain(s: System, n: nat)
    requires ClaimedTimes(s, n) && n < 5
    ensures ClaimedTimes(Next(s, Event(ClaimResult("c", Repeated(n + 10)), n * LEASE_MS)), n + 1)
  {
    assert |Repeated(n + 10)| == n + 10;
  }

  lemma {:induction false} ClaimsFiveTimes(s: System, n: nat) returns (r: System)
    requires IsReachable(s) && ClaimedTimes(s, n) && n <= 5
    ensures IsReachable(r) && ClaimedTimes(r, 5)
    decreases 5 - n
  {
    hide IsReachable, Next, ClaimedTimes;
    if n == 5 {
      r := s;
    } else {
      var e := Event(ClaimResult("c", Repeated(n + 10)), n * LEASE_MS);
      ClaimsAgain(s, n);
      ReachNext(s, e);
      r := ClaimsFiveTimes(Next(s, e), n + 1);
    }
  }

  /** The last lease is over when something unrelated happens. */
  lemma LastLeaseOver(s: System)
    requires ClaimedTimes(s, 5)
    ensures Stranded(Next(s, Event(CancelDispatch(""), 5 * LEASE_MS)), "c")
  {
  }

  /** Five claims in turn, none of them concluded, strand a candidate. */
  lemma StrandedReachable()
    ensures exists s: System, c :: IsReachable(s) && Stranded(s, c)
  {
    hide IsReachable, Next, Finished, ClaimedTimes, Stranded;
    var s := FinishedReachable();
    FinishedUnclaimed(s);
    var r := ClaimsFiveTimes(s, 0);
    LastLeaseOver(r);
    ReachNext(r, Event(CancelDispatch(""), 5 * LEASE_MS));
  }

  /**
   * A live candidate that is not stranded can be brought to COMPLETED or FAILED, by a run of at most three steps
   * without a cancel or a removal; one that is stranded by no run of any kind.
   */
  lemma ConcludableIffNotStranded(s: System, c: string)
    requires IsReachable(s) && c in s.store.candidates && !Terminal(s.store.candidates[c].status)
    ensures !Stranded(s, c) ==> exists events: seq<Event> ::
      (AllHandsOff(events, c) && |events| <= 3 && Concluded(RunFrom(s, events).store, c))
    ensures Stranded(s, c) ==> forall events: seq<Event> :: !Concluded(RunFrom(s, events).store, c)
  {
    ReachableInv(s);
    hide Inv, IsReachable, RunFrom, Stranded, Concluded, AllHandsOff;
    if Stranded(s, c) {
      forall events: seq<Event>
        ensures !Concluded(RunFrom(s, events).store, c)
      {
        StrandedForever(s, events, c);
      }
    } else if s.store.candidates[c].completionAttemptCount < s.store.candidates[c].completionMaxAttempts {
      var events := FailsInThreeSteps(s, c);
    } else {
      var events := FailsByGivingUp(s, c);
    }
  }
}
