/** How candidates end: completion claims, terminal states, cancellation and the counters, along every run. */
module CandidateOutcomes {
  import opened Wrappers
  import opened CandidateStore
  import opened CandidateProtocol
  import opened CandidateInvariant
  import opened CandidateSteps
  import opened CandidateHistory
  import opened CandidateTheorems

  // ---------------------------------------------------------------- completion claims

  /** The completion claim handed out under this token still holds. */
  predicate Held(s: System, t: string) {
    t in s.completions && HoldsCompletion(s.store, s.completions[t].claim, s.now)
  }

  /** Of all completion claims ever handed out for a candidate, at most one holds. */
  lemma OneClaimHolds(s: System, t: string, u: string)
    requires IsReachable(s) && Held(s, t) && Held(s, u)
    requires s.completions[t].claim.candidate.candidateId == s.completions[u].claim.candidate.candidateId
    ensures t == u
  {
    ReachableInv(s);
    CompletionHere(s, t);
    CompletionHere(s, u);
  }

  lemma ClaimToken(s: System, t: string)
    requires Inv(s) && t in s.completions
    ensures s.completions[t].claim.claimToken == t && t in s.used
      && s.completions[t].claim.candidate.candidateId in s.used
  {
    CompletionHere(s, t);
    hide Inv, PhaseOk;
  }

  lemma HeldStep(s: System, a: Action, t: string)
    requires Inv(s) && t in s.completions && !Held(s, t)
    ensures !Held(Act(s, a), t)
  {
    var c := s.completions[t].claim.candidate.candidateId;
    ClaimToken(s, t);
    ActRemembers(s, a);
    ActKeepsTime(s, a);
    ActLosesClaim(s, a, t);
    hide Inv, Act, Retains, Moves;
  }

  /** A claim that does not hold on the record is not revived by one action. */
  lemma ActLosesClaim(s: System, a: Action, t: string)
    requires Inv(s) && t in s.completions && !Held(s, t) && s.completions[t].claim.claimToken == t && t in s.used
    ensures !HoldsCompletion(Act(s, a).store, s.completions[t].claim, s.now)
  {
    hide Inv, Act, Counts;
    var c := s.completions[t].claim.candidate.candidateId;
    if c in s.store.candidates {
      ActMoves(s, a, c);
    } else if c in Act(s, a).store.candidates {
      ActAppears(s, a, c);
    }
  }

  lemma {:induction false} ClaimStaysLost(s: System, events: seq<Event>, t: string)
    requires Inv(s) && t in s.completions && !Held(s, t)
    ensures !Held(RunFrom(s, events), t)
    decreases |events|
  {
    hide Inv, Act, Retains;
    if events != [] {
      var m, e := RunFrom(s, events[..|events| - 1]), events[|events| - 1];
      ClaimStaysLost(s, events[..|events| - 1], t);
      RunRemembers(s, events[..|events| - 1]);
      LastStep(s, events);
      if e.at >= m.now { HeldStep(m.(now := e.at), e.action, t); }
    }
  }

  /** A completion claim that was superseded, used or has expired is rejected by every completion step for ever. */
  lemma StaleCompletionChangesNothing(s: System, t: string, events: seq<Event>, e: string, retryAt: Option<int>,
          error: string)
    requires IsReachable(s) && t in s.completions && !Held(s, t)
    ensures var r := RunFrom(s, events);
      && t in r.completions
      && FinalizeCompletion(r.store, r.completions[t].claim, e, r.now) == Failure(CompletionFenceLost)
      && FinalizeTerminalFailure(r.store, r.completions[t].claim, r.now) == Failure(CompletionFenceLost)
      && FailCompletion(r.store, r.completions[t].claim, retryAt, r.now, error) == Failure(CompletionFenceLost)
      && Act(r, Finalize(t)) == r && Act(r, FinalizeFailure(t)) == r && Act(r, GiveUp(t, retryAt, error)) == r
  {
    ReachableInv(s);
    hide *;
    ClaimStaysLost(s, events, t);
    RunRemembers(s, events);
    ClaimsRemembered(s, RunFrom(s, events), t);
    LostClaimRejected(RunFrom(s, events), t, e, retryAt, error);
  }

  lemma ClaimsRemembered(s: System, r: System, t: string)
    requires Remembers(s, r) && t in s.completions
    ensures t in r.completions
  {
  }

  lemma LostClaimRejected(s: System, t: string, e: string, retryAt: Option<int>, error: string)
    requires t in s.completions && !Held(s, t)
    ensures FinalizeCompletion(s.store, s.completions[t].claim, e, s.now) == Failure(CompletionFenceLost)
      && FinalizeTerminalFailure(s.store, s.completions[t].claim, s.now) == Failure(CompletionFenceLost)
      && FailCompletion(s.store, s.completions[t].claim, retryAt, s.now, error) == Failure(CompletionFenceLost)
    ensures Act(s, Finalize(t)) == s && Act(s, FinalizeFailure(t)) == s && Act(s, GiveUp(t, retryAt, error)) == s
  {
    hide Act, HoldsCompletion;
    FinalizeRejected(s, t);
    GiveUpRejected(s, t, retryAt, error);
  }

  lemma FinalizeRejected(s: System, t: string)
    requires t in s.completions && !HoldsCompletion(s.store, s.completions[t].claim, s.now)
    ensures Act(s, Finalize(t)) == s && Act(s, FinalizeFailure(t)) == s
  {
    hide HoldsCompletion;
  }

  lemma GiveUpRejected(s: System, t: string, retryAt: Option<int>, error: string)
    requires t in s.completions && !HoldsCompletion(s.store, s.completions[t].claim, s.now)
    ensures Act(s, GiveUp(t, retryAt, error)) == s
  {
    hide HoldsCompletion;
  }

  // ---------------------------------------------------------------- terminal states

  /** The candidate is gone, or its record is still exactly this one. */
  predicate Frozen(st: Store, c: string, k: Candidate) {
    c in st.candidates ==> st.candidates[c] == k
  }

  lemma FrozenStep(s: System, a: Action, c: string, k: Candidate)
    requires Inv(s) && c in s.used && Frozen(s.store, c, k) && (k.status.CompletedStatus? || k.status.FailedStatus?)
    ensures Frozen(Act(s, a).store, c, k)
  {
    hide Inv, Act;
    if c in s.store.candidates {
      ActMoves(s, a, c);
    } else if c in Act(s, a).store.candidates {
      ActAppears(s, a, c);
    }
  }

  lemma {:induction false} TerminalForever(s: System, events: seq<Event>, c: string, k: Candidate)
    requires Inv(s) && c in s.used && Frozen(s.store, c, k) && (k.status.CompletedStatus? || k.status.FailedStatus?)
    ensures Frozen(RunFrom(s, events).store, c, k)
    decreases |events|
  {
    hide Inv, Act, Retains;
    if events != [] {
      var m, e := RunFrom(s, events[..|events| - 1]), events[|events| - 1];
      TerminalForever(s, events[..|events| - 1], c, k);
      RunRemembers(s, events[..|events| - 1]);
      LastStep(s, events);
      if e.at >= m.now { FrozenStep(m.(now := e.at), e.action, c, k); }
    }
  }

  /** COMPLETED and FAILED are final in every reachable state. */
  lemma TerminalIsFinal(s: System, events: seq<Event>, c: string)
    requires IsReachable(s) && c in s.store.candidates && c in RunFrom(s, events).store.candidates
    requires s.store.candidates[c].status.CompletedStatus? || s.store.candidates[c].status.FailedStatus?
    ensures RunFrom(s, events).store.candidates[c] == s.store.candidates[c]
  {
    ReachableInv(s);
    RecordHolds(s, c);
    hide Inv, RunFrom;
    TerminalForever(s, events, c, s.store.candidates[c]);
  }

  /** The action is a finalize step that succeeds, of either kind. */
  predicate FinalizesNow(s: System, a: Action) {
    && (a.Finalize? || a.FinalizeFailure?) && a.token in s.completions
    && var claim := s.completions[a.token].claim;
    && (a.Finalize? ==> s.completions[a.token].phase.Staged?)
    && (a.Finalize? ==> FinalizeCompletion(s.store, claim, s.completions[a.token].phase.experiment.id, s.now).Success?)
    && (a.FinalizeFailure? ==>
      claim.candidate.status.TerminalFailurePending? && FinalizeTerminalFailure(s.store, claim, s.now).Success?)
  }

  /**
   * At most one finalize step of a candidate ever succeeds: after one the record is frozen and no completion claim
   * holds again.
   */
  lemma FinalizedOnce(s: System, a: Action, events: seq<Event>, u: string)
    requires IsReachable(s) && FinalizesNow(s, a)
    requires u in RunFrom(Act(s, a), events).completions
    requires RunFrom(Act(s, a), events).completions[u].claim.candidate.candidateId
      == s.completions[a.token].claim.candidate.candidateId
    ensures var c, m, r := s.completions[a.token].claim.candidate.candidateId, Act(s, a), RunFrom(Act(s, a), events);
      && c in m.store.candidates
        && m.store.candidates[c].status == (if a.Finalize? then CompletedStatus else FailedStatus)
      && Frozen(r.store, c, m.store.candidates[c])
      && !Held(r, u)
      && (forall later: Action | FinalizesNow(r, later) :: r.completions[later.token].claim.candidate.candidateId != c)
  {
    hide Inv, IsReachable, Act, RunFrom, Held, Frozen, FinalizeCompletion, FinalizeTerminalFailure;
    ReachableInv(s);
    var c, m := s.completions[a.token].claim.candidate.candidateId, Act(s, a);
    FinalizeEnds(s, a);
    ActKeeps(s, a);
    var r := RunFrom(m, events);
    TerminalForever(m, events, c, m.store.candidates[c]);
    RunKeeps(m, events);
    CompletedHoldsNone(r, c, m.store.candidates[c], u);
    forall later: Action | FinalizesNow(r, later)
      ensures r.completions[later.token].claim.candidate.candidateId != c
    {
      FinalizesHeld(r, later);
      if r.completions[later.token].claim.candidate.candidateId == c {
        CompletedHoldsNone(r, c, m.store.candidates[c], later.token);
      }
    }
  }

  /** Only under a claim that holds does a finalize step succeed. */
  lemma FinalizesHeld(s: System, a: Action)
    requires FinalizesNow(s, a)
    ensures Held(s, a.token)
  {
  }

  lemma FinalizeEnds(s: System, a: Action)
    requires Inv(s) && FinalizesNow(s, a)
    ensures var c, r := s.completions[a.token].claim.candidate.candidateId, Act(s, a);
      && c in r.used && c in r.store.candidates
        && r.store.candidates[c].status == (if a.Finalize? then CompletedStatus else FailedStatus)
      && r.store.candidates[c].activeCompletionClaimToken.None?
      && Frozen(r.store, c, r.store.candidates[c])
  {
    hide Inv, HoldsCompletion, Unclaim, Held;
    var c := s.completions[a.token].claim.candidate.candidateId;
    FinalizesHeld(s, a);
    HeldNames(s, a.token);
    RecordHolds(s, c);
    FinalizedRecord(s, a);
  }

  lemma HeldNames(s: System, t: string)
    requires Held(s, t)
    ensures t in s.completions && s.completions[t].claim.candidate.candidateId in s.store.candidates
  {
  }

  lemma FinalizedRecord(s: System, a: Action)
    requires FinalizesNow(s, a)
    requires var c := s.completions[a.token].claim.candidate.candidateId;
      c in s.store.candidates && RecordOk(c, s.store.candidates[c])
    ensures var c, r := s.completions[a.token].claim.candidate.candidateId, Act(s, a);
      && r.used == s.used && c in r.store.candidates
      && r.store.candidates[c].status == (if a.Finalize? then CompletedStatus else FailedStatus)
      && r.store.candidates[c].activeCompletionClaimToken.None?
  {
  }

  lemma CompletedHoldsNone(s: System, c: string, k: Candidate, u: string)
    requires Frozen(s.store, c, k) && k.activeCompletionClaimToken.None?
    requires u in s.completions && s.completions[u].claim.candidate.candidateId == c
    ensures !Held(s, u)
  {
  }

  // ---------------------------------------------------------------- cancellation

  /** The one way out of CANCELLED: reporting a completion failure under a claim that still holds. */
  lemma CancelledLeftOnlyByGivingUp(s: System, a: Action, c: string)
    requires IsReachable(s) && c in s.store.candidates && s.store.candidates[c].status.Cancelled?
      && c in Act(s, a).store.candidates
    ensures !Act(s, a).store.candidates[c].status.Cancelled? <==>
      a.GiveUp? && Held(s, a.token) && s.completions[a.token].claim.candidate.candidateId == c
  {
    ReachableInv(s);
    hide Inv, Act;
    ActMoves(s, a, c);
  }

  /** No completion claim on the candidate holds. */
  ghost predicate NoClaimHolds(s: System, c: string) {
    forall t | t in s.completions && s.completions[t].claim.candidate.candidateId == c :: !Held(s, t)
  }

  predicate CancelledOrGone(st: Store, c: string) {
    c in st.candidates ==> st.candidates[c].status.Cancelled?
  }

  lemma CancelledStep(s: System, a: Action, c: string)
    requires Inv(s) && c in s.used && CancelledOrGone(s.store, c) && NoClaimHolds(s, c)
    ensures CancelledOrGone(Act(s, a).store, c)
  {
    hide Inv, Act;
    if c in s.store.candidates {
      ActMoves(s, a, c);
    } else if c in Act(s, a).store.candidates {
      ActAppears(s, a, c);
    }
  }

  lemma NoClaimStep(s: System, a: Action, c: string)
    requires Inv(s) && c in s.used && CancelledOrGone(s.store, c) && NoClaimHolds(s, c)
    ensures NoClaimHolds(Act(s, a), c)
  {
    ActRemembers(s, a);
    hide Inv, Retains, Held;
    forall t | t in Act(s, a).completions && Act(s, a).completions[t].claim.candidate.candidateId == c
      ensures !Held(Act(s, a), t)
    {
      if t in s.completions {
        HeldStep(s, a, t);
      } else {
        ClaimsOnlyPending(s, a, t);
      }
    }
  }

  /** A completion claim is handed out only for a candidate that waits for its result. */
  lemma ClaimsOnlyPending(s: System, a: Action, t: string)
    requires Inv(s) && t !in s.completions && t in Act(s, a).completions
    ensures a.ClaimResult? && a.candidateId in s.store.candidates
    ensures var k := s.store.candidates[a.candidateId];
      && Act(s, a).completions[t].claim.candidate.candidateId == a.candidateId
      && (k.status.ProcessingResult? || k.status.TerminalFailurePending?)
  {
    hide Inv, Act;
    if a.ClaimResult? {
      RecordsHold(s);
      ClaimPending(s, a, t);
    } else {
      OtherActsClaimNone(s, a);
    }
  }

  lemma ClaimPending(s: System, a: Action, t: string)
    requires RecordsOk(s) && a.ClaimResult? && t !in s.completions && t in Act(s, a).completions
    ensures a.candidateId in s.store.candidates
    ensures var k := s.store.candidates[a.candidateId];
      && Act(s, a).completions[t].claim.candidate.candidateId == a.candidateId
      && (k.status.ProcessingResult? || k.status.TerminalFailurePending?)
  {
  }

  lemma OtherActsClaimNone(s: System, a: Action)
    requires !a.ClaimResult?
    ensures Act(s, a).completions.Keys == s.completions.Keys
  {
    hide ClaimWorkerAttempt, PersistWorkerSuccess, FailWorkerAttempt, RecoverAbandonedAttempt,
      RepairTerminalQueueFailure, CancelCandidate,
      MarkDispatchCancelled, MarkDispatched, MarkDispatchFailed, SubmitCandidate, DeleteScope, LatestDone, ListTrades,
        StageExperiment,
      FinalizeCompletion, FinalizeTerminalFailure, FailCompletion, OrElse;
  }

  /** A cancelled candidate on which no completion claim holds stays cancelled. */
  lemma {:induction false} CancelledForever(s: System, events: seq<Event>, c: string)
    requires Inv(s) && c in s.used && CancelledOrGone(s.store, c) && NoClaimHolds(s, c)
    ensures CancelledOrGone(RunFrom(s, events).store, c) && NoClaimHolds(RunFrom(s, events), c)
    decreases |events|
  {
    hide Inv, Act, Retains;
    if events != [] {
      var m, e := RunFrom(s, events[..|events| - 1]), events[|events| - 1];
      CancelledForever(s, events[..|events| - 1], c);
      RunRemembers(s, events[..|events| - 1]);
      LastStep(s, events);
      if e.at >= m.now {
        CancelledStep(m.(now := e.at), e.action, c);
        NoClaimStep(m.(now := e.at), e.action, c);
      }
    }
  }

  /**
   * CANCELLED is final exactly while no completion claim holds: then no run leaves it, otherwise one report leaves it
   * at once.
   */
  lemma CancelledIsFinalIffNoClaimHolds(s: System, c: string)
    requires IsReachable(s) && c in s.store.candidates && s.store.candidates[c].status.Cancelled?
    ensures NoClaimHolds(s, c) <==> forall events: seq<Event> :: CancelledOrGone(RunFrom(s, events).store, c)
  {
    ReachableInv(s);
    RecordHolds(s, c);
    hide Inv, Act, RunFrom, Held;
    if NoClaimHolds(s, c) {
      forall events: seq<Event>
        ensures CancelledOrGone(RunFrom(s, events).store, c)
      {
        CancelledForever(s, events, c);
      }
    } else {
      var t :| t in s.completions && s.completions[t].claim.candidate.candidateId == c && Held(s, t);
      var e := Event(GiveUp(t, None, ""), s.now);
      OneEvent(s, e);
      ActMoves(s, e.action, c);
      CancelledLeftOnlyByGivingUp(s, e.action, c);
      assert !CancelledOrGone(RunFrom(s, [e]).store, c);
    }
  }

  /** The candidate record itself tells whether a completion claim holds. */
  lemma ClaimHoldsInRecord(s: System, c: string)
    requires IsReachable(s) && c in s.store.candidates
    ensures NoClaimHolds(s, c) <==>
      (s.store.candidates[c].activeCompletionClaimToken.Some? ==>
        ExpiredOrAbsent(s.store.candidates[c].activeCompletionLeaseExpiresAt, s.now))
  {
    ReachableInv(s);
    RecordHolds(s, c);
    Registered(s, c);
    hide AttemptsOk, ExperimentsOk, ClaimsOk, AttemptsFit;
    var token := s.store.candidates[c].activeCompletionClaimToken;
    if token.Some? { CompletionHere(s, token.value); }
  }

  /** CANCELLED is final exactly if the record bears no completion claim token or the claim's lease has run out. */
  lemma CancelledIsFinalIffUnclaimed(s: System, c: string)
    requires IsReachable(s) && c in s.store.candidates && s.store.candidates[c].status.Cancelled?
    ensures (forall events: seq<Event> :: CancelledOrGone(RunFrom(s, events).store, c)) <==>
      (s.store.candidates[c].activeCompletionClaimToken.None?
        || ExpiredOrAbsent(s.store.candidates[c].activeCompletionLeaseExpiresAt, s.now))
  {
    hide IsReachable, RunFrom, NoClaimHolds, CancelledOrGone;
    ClaimHoldsInRecord(s, c);
    CancelledIsFinalIffNoClaimHolds(s, c);
  }

  lemma OneEvent(s: System, e: Event)
    requires e.at == s.now
    ensures RunFrom(s, [e]) == Act(s, e.action)
  {
    hide Act;
    assert [e][..0] == [];
    assert RunFrom(s, []) == s;
    assert s.(now := e.at) == s;
  }

  // ---------------------------------------------------------------- a cancellation while a worker runs

  /** Cancelled before any result was handed over, or removed since; and nothing was ever claimed or staged for it. */
  ghost predicate Discarded(s: System, c: string) {
    && c in s.used && Untouched(s.store.experiments, s.completions, c)
    && (c in s.store.candidates ==> s.store.candidates[c].status.Cancelled?)
  }

  lemma DiscardedStep(s: System, a: Action, c: string)
    requires Inv(s) && Discarded(s, c)
    ensures Discarded(Act(s, a), c)
  {
    ActRemembers(s, a);
    hide Inv, Act, Retains;
    assert NoClaimHolds(s, c);
    CancelledStep(s, a, c);
    forall t | t in Act(s, a).completions
      ensures Act(s, a).completions[t].claim.candidate.candidateId != c
    {
      if t !in s.completions { ClaimsOnlyPending(s, a, t); }
    }
    forall e | e in Act(s, a).store.experiments
      ensures Act(s, a).store.experiments[e].candidateId != c
    {
      if e !in s.store.experiments { StagedUnderClaim(s, a, e); } else { KeepsOwner(s.store, Act(s, a).store, e); }
    }
  }

  lemma KeepsOwner(st: Store, after: Store, e: string)
    requires Retains(st, after) && e in st.experiments
    ensures e in after.experiments && after.experiments[e].candidateId == st.experiments[e].candidateId
  {
  }

  /** An experiment appears only when a completion worker stages it under a claim on its candidate. */
  lemma StagedUnderClaim(s: System, a: Action, e: string)
    requires e !in s.store.experiments && e in Act(s, a).store.experiments
    ensures a.Stage? && a.token in s.completions
    ensures Act(s, a).store.experiments[e].candidateId == s.completions[a.token].claim.candidate.candidateId
  {
    if a.Stage? {
      hide FindExperiment;
    } else if !a.Rescore? {
      hide Act;
      OtherActsStageNone(s, a);
    }
  }

  lemma OtherActsStageNone(s: System, a: Action)
    requires !a.Stage? && !a.Rescore?
    ensures Act(s, a).store.experiments == s.store.experiments
  {
    hide Act;
    if a.ClaimWork? || a.Succeed? || a.Fail? || a.Recover? || a.Repair? {
      WorkersStageNone(s, a);
    } else {
      OthersStageNone(s, a);
    }
  }

  lemma StagingKeepsExperiment(s: System, a: Action, e: string)
    requires (a.Stage? || a.Rescore?) && e in s.store.experiments && e in s.used && !(a.Rescore? && a.experimentId == e)
    requires forall f | f in s.store.experiments :: s.store.experiments[f].id == f
    ensures e in Act(s, a).store.experiments && Act(s, a).store.experiments[e] == s.store.experiments[e]
  {
    hide FindExperiment;
  }

  lemma KeepsExperiment(s: System, a: Action, e: string)
    requires Inv(s) && e in s.store.experiments && !(a.Rescore? && a.experimentId == e)
    ensures e in Act(s, a).store.experiments && Act(s, a).store.experiments[e] == s.store.experiments[e]
  {
    hide Inv, Act;
    ExperimentIds(s);
    if a.Stage? || a.Rescore? { StagingKeepsExperiment(s, a, e); } else { OtherActsStageNone(s, a); }
  }

  /** Without a rescoring of its own an experiment does not change at all. */
  lemma {:induction false} ChangedOnlyByRescore(s: System, events: seq<Event>, e: string)
    requires IsReachable(s) && e in s.store.experiments
    requires forall i | 0 <= i < |events| :: !(events[i].action.Rescore? && events[i].action.experimentId == e)
    ensures e in RunFrom(s, events).store.experiments
      && RunFrom(s, events).store.experiments[e] == s.store.experiments[e]
    decreases |events|
  {
    ReachableInv(s);
    hide Inv, Act;
    if events != [] {
      var m, last := RunFrom(s, events[..|events| - 1]), events[|events| - 1];
      ChangedOnlyByRescore(s, events[..|events| - 1], e);
      LastStep(s, events);
      if last.at >= m.now { KeepsExperiment(m.(now := last.at), last.action, e); }
    }
  }

  lemma WorkersStageNone(s: System, a: Action)
    requires a.ClaimWork? || a.Succeed? || a.Fail? || a.Recover? || a.Repair?
    ensures Act(s, a).store.experiments == s.store.experiments
  {
    hide FirstRunning, HasAttempt, Release, Abort, SyntheticAttempt;
  }

  lemma OthersStageNone(s: System, a: Action)
    requires !a.Stage? && !a.Rescore? && !a.ClaimWork? && !a.Succeed? && !a.Fail? && !a.Recover? && !a.Repair?
    ensures Act(s, a).store.experiments == s.store.experiments
  {
    hide LatestDone, ListTrades, Unclaim, CancelledCopy, NewCandidate;
  }

  lemma {:induction false} DiscardedForever(s: System, events: seq<Event>, c: string)
    requires Inv(s) && Discarded(s, c)
    ensures Discarded(RunFrom(s, events), c)
    decreases |events|
  {
    hide Inv, Act, Discarded;
    if events != [] {
      var m, e := RunFrom(s, events[..|events| - 1]), events[|events| - 1];
      DiscardedForever(s, events[..|events| - 1], c);
      LastStep(s, events);
      if e.at >= m.now {
        DiscardedClock(m, e.at, c);
        DiscardedStep(m.(now := e.at), e.action, c);
      }
    }
  }

  lemma DiscardedClock(s: System, at: int, c: string)
    requires Discarded(s, c)
    ensures Discarded(s.(now := at), c)
  {
  }

  /**
   * A candidate cancelled while its worker runs never gets an experiment or a completion claim, and stays cancelled.
   */
  lemma CancelledWhileRunning(s: System, c: string, events: seq<Event>)
    requires IsReachable(s) && c in s.store.candidates && s.store.candidates[c].status.Backtesting?
    ensures var r := RunFrom(Act(s, Cancel(c)), events);
      && (forall e | e in r.store.experiments :: r.store.experiments[e].candidateId != c)
      && (forall t | t in r.completions :: r.completions[t].claim.candidate.candidateId != c)
      && (c in r.store.candidates ==> r.store.candidates[c].status.Cancelled?)
  {
    ReachableInv(s);
    hide Inv, RunFrom, Act;
    CancelDiscards(s, c);
    ActKeeps(s, Cancel(c));
    DiscardedForever(Act(s, Cancel(c)), events, c);
  }

  lemma CancelDiscards(s: System, c: string)
    requires Inv(s) && c in s.store.candidates && s.store.candidates[c].status.Backtesting?
    ensures Discarded(Act(s, Cancel(c)), c)
  {
    hide Inv;
    Registered(s, c);
  }
}
