/**
 * How a candidate moves between its statuses, when work may be claimed again, and what reaches the queue, along every
 * run.
 */
module CandidateRetries {
  import opened Wrappers
  import opened CandidateStore
  import opened CandidateProtocol
  import opened CandidateInvariant
  import opened CandidateSteps
  import opened CandidateHistory
  import opened CandidateTheorems
  import opened CandidateOutcomes
  import opened CandidateCounters
  import opened CandidateEffects
  import opened CandidateResults
  import CandidateProgress

  // ---------------------------------------------------------------- reachable states go on

  lemma {:induction false} RunOn(s: System, first: seq<Event>, more: seq<Event>)
    ensures RunFrom(s, first + more) == RunFrom(RunFrom(s, first), more)
    decreases |more|
  {
    hide Act;
    if more == [] {
      assert first + more == first;
    } else {
      var all := first + more;
      RunOn(s, first, more[..|more| - 1]);
      assert all[..|all| - 1] == first + more[..|more| - 1];
    }
  }

  lemma StaysReachable(s: System, events: seq<Event>)
    requires IsReachable(s)
    ensures IsReachable(RunFrom(s, events))
  {
    hide RunFrom;
    var first :| s == RunFrom(INITIAL, first);
    RunOn(INITIAL, first, events);
    assert RunFrom(s, events) == RunFrom(INITIAL, first + events);
  }

  lemma OneStep(s: System, a: Action, at: int)
    requires at >= s.now
    ensures RunFrom(s, [Event(a, at)]) == Act(s.(now := at), a)
  {
    hide Act;
    assert [Event(a, at)][..0] == [];
    assert RunFrom(s, []) == s;
  }

  /** Time may pass without anything happening: rating an experiment that does not exist changes nothing. */
  lemma Waiting(s: System, at: int)
    requires IsReachable(s) && at >= s.now
    ensures IsReachable(s.(now := at))
  {
    hide IsReachable, RunFrom;
    ReachableInv(s);
    var n := CandidateProgress.LongerThanAll(s.used);
    var e := CandidateProgress.Repeated(n);
    ExperimentIds(s);
    OneStep(s, Rescore(e, 0.0, false), at);
    StaysReachable(s, [Event(Rescore(e, 0.0, false), at)]);
  }

  lemma Acting(s: System, a: Action)
    requires IsReachable(s)
    ensures IsReachable(Act(s, a))
  {
    hide IsReachable, RunFrom, Act;
    OneStep(s, a, s.now);
    StaysReachable(s, [Event(a, s.now)]);
    assert s.(now := s.now) == s;
  }

  // ---------------------------------------------------------------- the table of status changes

  /** A report under this token passes the fence of the candidate. */
  predicate Fences(s: System, token: string, c: string) {
    token in s.claims && s.claims[token].candidate.candidateId == c && ActiveFence(s.store, c, token)
  }

  /** A completion claim on this candidate that holds. */
  predicate Completes(s: System, token: string, c: string) {
    Held(s, token) && s.completions[token].claim.candidate.candidateId == c
  }

  /** The changes of status one action may make to a candidate. */
  predicate MayTurn(s: System, a: Action, c: string, x: Status, y: Status) {
    match a
    case ClaimWork(d, _, token) =>
      d == c && token !in s.used && (x.Queued? || x.RetryWait? || x.Backtesting?) && y.Backtesting?
    case Succeed(token, _) => Fences(s, token, c) && x.Backtesting? && y.ProcessingResult?
    case Fail(token, _) => Fences(s, token, c) && x.Backtesting? && (y.RetryWait? || y.TerminalFailurePending?)
    case Recover(d, _) => d == c && x.Backtesting? && (y.RetryWait? || y.TerminalFailurePending?)
    case Repair(d, _) => d == c && !Terminal(x) && y.TerminalFailurePending?
    case Cancel(d) => d == c && !Terminal(x) && y.Cancelled?
    case Finalize(token) => Completes(s, token, c) && x.ProcessingResult? && y.CompletedStatus?
    case FinalizeFailure(token) => Completes(s, token, c) && x.TerminalFailurePending? && y.FailedStatus?
    case GiveUp(token, _, _) =>
      Completes(s, token, c) && !x.CompletedStatus? && !x.FailedStatus? && (y.ProcessingResult? || y.FailedStatus?)
    case _ => false
  }

  /** How this action changes the status of this candidate, if it does. */
  ghost predicate Turns(s: System, a: Action, c: string) {
    && c in s.store.candidates && c in Act(s, a).store.candidates
    && var x, y := s.store.candidates[c].status, Act(s, a).store.candidates[c].status;
      x == y || MayTurn(s, a, c, x, y)
  }

  /** No step changes a status otherwise. */
  lemma StatusTable(s: System, a: Action, c: string)
    requires IsReachable(s) && c in s.store.candidates && c in Act(s, a).store.candidates
    ensures var x, y := s.store.candidates[c].status, Act(s, a).store.candidates[c].status;
      x == y || MayTurn(s, a, c, x, y)
  {
    hide IsReachable, Act, MayTurn;
    match a
    case ClaimWork(d, number, token) => WorkTable(s, d, number, token, c);
    case Succeed(_, _) => OutcomeTable(s, a, c);
    case Fail(_, _) => OutcomeTable(s, a, c);
    case Recover(_, _) => ReconcilingTable(s, a, c);
    case Repair(_, _) => ReconcilingTable(s, a, c);
    case ClaimResult(_, _) => CompletionTable(s, a, c);
    case Finalize(_) => ConclusionTable(s, a, c);
    case FinalizeFailure(_) => ConclusionTable(s, a, c);
    case GiveUp(_, _, _) => ConclusionTable(s, a, c);
    case LoadAttempt(_) => CompletionTable(s, a, c);
    case LoadTrades(_) => CompletionTable(s, a, c);
    case Stage(_, _, _, _) => CompletionTable(s, a, c);
    case _ => UserTable(s, a, c);
  }

  lemma OutcomeTable(s: System, a: Action, c: string)
    requires IsReachable(s) && (a.Succeed? || a.Fail?) && c in s.store.candidates
    ensures Turns(s, a, c)
  {
    hide IsReachable, Act, ActiveFence;
    if a.token !in s.claims {
      Unclaimed(s, a);
    } else {
      FencedAttempt(s, a.token);
      match a
      case Succeed(token, trades) => SucceedEffect(s, token, trades);
      case Fail(token, error) => FailEffect(s, token, error);
    }
  }

  lemma ReconcilingTable(s: System, a: Action, c: string)
    requires IsReachable(s) && (a.Recover? || a.Repair?) && c in s.store.candidates
    ensures Turns(s, a, c)
  {
    hide IsReachable, Act, Settled;
    match a
    case Recover(d, error) => RecoverEffect(s, d, error);
    case Repair(d, error) => RepairEffect(s, d, error);
  }

  lemma UserTable(s: System, a: Action, c: string)
    requires IsReachable(s) && c in s.store.candidates && c in Act(s, a).store.candidates
    requires a.Submit? || a.Cancel? || a.CancelDispatch? || a.DispatchSent? || a.DispatchLost? || a.RemoveScope?
      || a.Rescore?
    ensures Turns(s, a, c)
  {
    hide IsReachable, Act;
    match a
    case Cancel(d) => CancelEffect(s, d);
    case CancelDispatch(d) => DispatchCancelEffect(s, d);
    case DispatchSent(d) => SentEffect(s, d);
    case DispatchLost(d, error) => LostEffect(s, d, error);
    case RemoveScope(scopeId) => RemoveEffect(s, scopeId);
    case Submit(d, scopeId, maxAttempts) => SubmittedElsewhere(s, d, scopeId, maxAttempts, c);
    case Rescore(e, score, eligible) => RescoreEffect(s, e, score, eligible);
  }

  lemma WorkTable(s: System, d: string, number: int, token: string, c: string)
    requires IsReachable(s) && c in s.store.candidates && c in Act(s, ClaimWork(d, number, token)).store.candidates
    ensures var x, y := s.store.candidates[c].status, Act(s, ClaimWork(d, number, token)).store.candidates[c].status;
      x == y || MayTurn(s, ClaimWork(d, number, token), c, x, y)
  {
    hide IsReachable;
    if token in s.used || d !in s.store.dispatches || !(1 <= number <= s.store.dispatches[d].job.maxAttempts) {
      hide ClaimWorkerAttempt;
    } else {
      hide Act;
      ClaimWorkEffect(s, d, number, token);
    }
  }

  /** A token that was never handed out, or is used already, changes nothing. */
  lemma Unclaimed(s: System, a: Action)
    requires match a
      case Succeed(token, _) => token !in s.claims
      case Fail(token, _) => token !in s.claims
      case ClaimResult(_, token) => token in s.used
      case _ => CompletionStep(a) && a.token !in s.completions
    ensures Act(s, a).store == s.store
  {
  }

  lemma SubmittedElsewhere(s: System, d: string, scopeId: string, maxAttempts: int, c: string)
    requires IsReachable(s) && c in s.store.candidates
    ensures var r := Act(s, Submit(d, scopeId, maxAttempts)).store;
      c in r.candidates && r.candidates[c] == s.store.candidates[c]
  {
    hide IsReachable, Inv;
    ReachableInv(s);
    RecordHolds(s, c);
    SubmitEffect(s, d, scopeId, maxAttempts);
  }

  lemma ConclusionTable(s: System, a: Action, c: string)
    requires IsReachable(s) && Concludes(a) && c in s.store.candidates
    ensures Turns(s, a, c)
  {
    hide IsReachable, Act, Held;
    if a.token !in s.completions {
      Unclaimed(s, a);
    } else if a.GiveUp? {
      hide MayTurn, Turns;
      GiveUpTable(s, a.token, a.retryAt, a.error, c);
    } else {
      match a
      case Finalize(token) => FinalizeEffect(s, token);
      case FinalizeFailure(token) => FinalizeFailureEffect(s, token);
    }
  }

  lemma GiveUpTable(s: System, t: string, retryAt: Option<int>, error: string, c: string)
    requires IsReachable(s) && t in s.completions && c in s.store.candidates
    ensures Turns(s, GiveUp(t, retryAt, error), c)
  {
    hide IsReachable, Act, Held;
    if Held(s, t) { HeldRecord(s, t); }
    GiveUpEffect(s, t, retryAt, error);
  }

  lemma CompletionTable(s: System, a: Action, c: string)
    requires IsReachable(s) && c in s.store.candidates
      && (a.ClaimResult? || a.LoadAttempt? || a.LoadTrades? || a.Stage?)
    ensures Turns(s, a, c)
  {
    hide IsReachable, Act;
    if !a.ClaimResult? {
      ReadingKeepsRecords(s, a);
    } else if a.token in s.used {
      Unclaimed(s, a);
    } else {
      ClaimResultEffect(s, a.candidateId, a.token);
    }
  }

  lemma ReadingKeepsRecords(s: System, a: Action)
    requires a.LoadAttempt? || a.LoadTrades? || a.Stage?
    ensures Act(s, a).store.candidates == s.store.candidates
  {
    hide LatestDone, ListTrades, FindExperiment;
  }

  // ---------------------------------------------------------------- after the last attempt

  /** No work is left to be done on the candidate: it has a result or a failure, or was cancelled. */
  predicate PastWork(x: Status) {
    x.ProcessingResult? || x.TerminalFailurePending? || Terminal(x)
  }

  /** The candidate was submitted once, and if its record is still there, it is past work. */
  predicate PastOrGone(s: System, c: string) {
    c in s.used && (c in s.store.candidates ==> PastWork(s.store.candidates[c].status))
  }

  lemma PastStep(s: System, a: Action, c: string)
    requires IsReachable(s) && PastOrGone(s, c)
    ensures PastOrGone(Act(s, a), c)
    ensures forall t | t in Act(s, a).claims && Act(s, a).claims[t].candidate.candidateId == c ::
      t in s.claims && s.claims[t] == Act(s, a).claims[t]
    ensures c in s.store.candidates && c in Act(s, a).store.candidates ==>
      Act(s, a).store.candidates[c].executionGeneration == s.store.candidates[c].executionGeneration
  {
    hide IsReachable, Inv, Act, Moves, Retains, ClaimsWork;
    ReachableInv(s);
    ActRemembers(s, a);
    NoWorkFor(s, a, c);
    if c in s.store.candidates {
      ActMoves(s, a, c);
      if c in Act(s, a).store.candidates { StatusTable(s, a, c); }
    } else if c in Act(s, a).store.candidates {
      ActAppears(s, a, c);
    }
    NewClaims(s, a, c);
  }

  lemma NoWorkFor(s: System, a: Action, c: string)
    requires PastOrGone(s, c)
    ensures !ClaimsWork(s, a, c)
  {
  }

  lemma NewClaims(s: System, a: Action, c: string)
    requires Inv(s) && !ClaimsWork(s, a, c)
    ensures forall t | t in Act(s, a).claims && Act(s, a).claims[t].candidate.candidateId == c :: t in s.claims
  {
    hide Inv, Act, ClaimsWork;
    if a.ClaimWork? {
      if a.token !in s.used { UnusedUnclaimed(s, a.token); }
      GrantedWork(s, a, c);
    } else {
      OtherActsKeepClaims(s, a);
    }
  }

  /** Once a candidate is past work, no run claims work on it again. */
  lemma {:induction false} PastForever(s: System, events: seq<Event>, c: string)
    requires IsReachable(s) && PastOrGone(s, c)
    ensures var r := RunFrom(s, events);
      && PastOrGone(r, c)
      && (forall t | t in r.claims && r.claims[t].candidate.candidateId == c :: t in s.claims)
    decreases |events|
  {
    hide IsReachable, Act;
    if events != [] {
      var m, e := RunFrom(s, events[..|events| - 1]), events[|events| - 1];
      PastForever(s, events[..|events| - 1], c);
      StaysReachable(s, events[..|events| - 1]);
      if e.at >= m.now {
        Waiting(m, e.at);
        PastStep(m.(now := e.at), e.action, c);
      }
    }
  }

  // ---------------------------------------------------------------- failures

  /** Work can be claimed: under every fresh token, for every valid attempt number, from now on. */
  ghost predicate Claimable(s: System, c: string) {
    && c in s.store.dispatches && c in s.store.candidates
      && s.store.dispatches[c].job.maxAttempts == s.store.candidates[c].maxAttempts
    && forall token: string, number: int, at: int | token !in s.used
      && 1 <= number <= s.store.candidates[c].maxAttempts && at >= s.now ::
         token in Act(s.(now := at), ClaimWork(c, number, token)).claims
  }

  lemma WaitingIsClaimable(s: System, c: string)
    requires IsReachable(s) && c in s.store.candidates
    requires s.store.candidates[c].status.Queued? || s.store.candidates[c].status.RetryWait?
    ensures Claimable(s, c)
  {
    hide IsReachable, Inv, Act, AttemptsFit, CompletionsFit;
    ReachableInv(s);
    Registered(s, c);
    forall token: string, number: int, at: int
      | token !in s.used && 1 <= number <= s.store.candidates[c].maxAttempts && at >= s.now
      ensures token in Act(s.(now := at), ClaimWork(c, number, token)).claims
    {
      Waiting(s, at);
      ClaimWorkEffect(s.(now := at), c, number, token);
    }
  }

  /** The error a worker reports is kept with the aborted attempt. */
  predicate AbortedAs(st: Store, id: AttemptId, category: FailureCategory, error: string) {
    id in st.attempts && st.attempts[id].status.Aborted? && st.attempts[id].leaseExpiresAt.None?
      && st.attempts[id].failureCategory == Some(category) && st.attempts[id].failureCode == Some(error)
  }

  /**
   * A failed attempt under the fence. While attempts are left the candidate waits, without a failure of its own, and
   * can be claimed again; after the last it is about to fail for exhausted retries and no run ever claims it. A
   * cancelled one stays cancelled.
   */
  lemma FailureIsRetriedWhileAttemptsAreLeft(s: System, t: string, error: string, events: seq<Event>)
    requires IsReachable(s) && t in s.claims && ActiveFence(s.store, s.claims[t].candidate.candidateId, t)
    ensures var c, id, m := s.claims[t].candidate.candidateId, s.claims[t].attempt.attemptId,
      Act(s, Action.Fail(t, error));
      && c in m.store.candidates && id.Delivery? && s.store.candidates[c].activeAttemptNumber == Some(id.number)
      && var k, after := s.store.candidates[c], m.store.candidates[c];
      && after.activeFenceToken.None?
      && if k.status.Cancelled? then after.status.Cancelled? && AbortedAs(m.store, id, CancelledAudit, error)
         else if id.number < k.maxAttempts then
           && after.status.RetryWait? && after.failureKind.None? && AbortedAs(m.store, id, Retryable, error)
             && Claimable(m, c)
         else
           && after.status.TerminalFailurePending? && after.failureKind == Some(RetryExhausted)
           && AbortedAs(m.store, id, InfrastructureFailure, error)
           && forall u | u in RunFrom(m, events).claims && RunFrom(m, events).claims[u].candidate.candidateId == c ::
             u in s.claims
  {
    hide IsReachable, Act, Inv, Claimable, RunFrom;
    var c, m := s.claims[t].candidate.candidateId, Act(s, Action.Fail(t, error));
    FencedAttempt(s, t);
    FailEffect(s, t, error);
    Acting(s, Action.Fail(t, error));
    OtherActsKeepClaims(s, Action.Fail(t, error));
    if m.store.candidates[c].status.RetryWait? {
      WaitingIsClaimable(m, c);
    } else {
      ReachableInv(m);
      RecordHolds(m, c);
      PastForever(m, events, c);
    }
  }

  // ---------------------------------------------------------------- dispatches

  /** Steps that may touch this dispatch. */
  predicate Touches(a: Action, d: string) {
    match a
    case DispatchSent(j) => j == d
    case DispatchLost(j, _) => j == d
    case CancelDispatch(j) => j == d
    case Cancel(c) => c == d
    case Recover(c, _) => c == d
    case _ => false
  }

  /** A dispatch is touched by no other step, and never lost. */
  lemma DispatchTable(s: System, a: Action, d: string)
    requires IsReachable(s) && d in s.store.dispatches && d in s.used && !Touches(a, d)
    ensures var r := Act(s, a).store; d in r.dispatches && r.dispatches[d] == s.store.dispatches[d]
  {
    hide IsReachable, Act, Held, ActiveFence, Handed, Settled;
    match a
    case ClaimWork(_, _, _) => ClaimKeepsDispatches(s, a);
    case Succeed(token, trades) => if token in s.claims { SucceedEffect(s, token, trades); } else { Unclaimed(s, a); }
    case Fail(token, error) => if token in s.claims { FailEffect(s, token, error); } else { Unclaimed(s, a); }
    case Recover(c, error) => RecoverEffect(s, c, error);
    case Repair(c, error) => RepairEffect(s, c, error);
    case Cancel(c) => CancelEffect(s, c);
    case CancelDispatch(j) => DispatchCancelEffect(s, j);
    case DispatchSent(j) => SentEffect(s, j);
    case DispatchLost(j, error) => LostEffect(s, j, error);
    case RemoveScope(scopeId) => RemoveEffect(s, scopeId);
    case Submit(c, scopeId, maxAttempts) => SubmitEffect(s, c, scopeId, maxAttempts);
    case _ => CompletionKeepsDispatches(s, a);
  }

  lemma ClaimKeepsDispatches(s: System, a: Action)
    requires a.ClaimWork?
    ensures Act(s, a).store.dispatches == s.store.dispatches
  {
  }

  lemma CompletionKeepsDispatches(s: System, a: Action)
    requires CompletionStep(a) || a.ClaimResult? || a.Rescore?
    ensures Act(s, a).store.dispatches == s.store.dispatches
  {
    hide LatestDone, ListTrades, FindExperiment, HoldsCompletion;
  }

  /** The dispatch waits to be sent, and a submission cannot replace it. */
  predicate WaitsToBeSent(s: System, d: string) {
    d in s.used && d in s.store.dispatches && s.store.dispatches[d].state.Pending?
  }

  /** The step sends or cancels this dispatch. */
  predicate SendsOrCancels(a: Action, d: string) {
    (a.DispatchSent? && a.jobId == d) || (a.CancelDispatch? && a.jobId == d) || (a.Cancel? && a.candidateId == d)
  }

  lemma WaitingDispatchStep(s: System, a: Action, d: string)
    requires IsReachable(s) && WaitsToBeSent(s, d) && !SendsOrCancels(a, d)
    ensures WaitsToBeSent(Act(s, a), d)
  {
    hide IsReachable, Inv, Act, Retains;
    ReachableInv(s);
    ActRemembers(s, a);
    if !Touches(a, d) {
      DispatchTable(s, a, d);
    } else if a.DispatchLost? {
      LostEffect(s, d, a.error);
    } else {
      RecoverEffect(s, d, a.error);
    }
  }

  ghost predicate NoneSendsOrCancels(events: seq<Event>, d: string) {
    forall i | 0 <= i < |events| :: !SendsOrCancels(events[i].action, d)
  }

  /** A dispatch that waits to be sent goes on waiting until it is sent or cancelled. */
  lemma {:induction false} WaitsUntilSent(s: System, events: seq<Event>, d: string)
    requires IsReachable(s) && WaitsToBeSent(s, d) && NoneSendsOrCancels(events, d)
    ensures WaitsToBeSent(RunFrom(s, events), d)
    decreases |events|
  {
    hide IsReachable, Act, WaitsToBeSent, SendsOrCancels;
    if events != [] {
      var m, e := RunFrom(s, events[..|events| - 1]), events[|events| - 1];
      WaitsUntilSent(s, events[..|events| - 1], d);
      StaysReachable(s, events[..|events| - 1]);
      if e.at >= m.now {
        Waiting(m, e.at);
        LaterWaits(m, e.at, d);
        WaitingDispatchStep(m.(now := e.at), e.action, d);
      }
    }
  }

  lemma LaterWaits(s: System, at: int, d: string)
    requires WaitsToBeSent(s, d)
    ensures WaitsToBeSent(s.(now := at), d)
  {
  }

  /**
   * Recovery of an abandoned attempt. With attempts left the candidate waits and can be claimed, and its dispatch,
   * unless cancelled, is pending with the error and stays so in every run until it is sent or cancelled; after the last
   * attempt the dispatch stays as it was and no run claims the candidate. Every other dispatch stays as it was.
   */
  lemma RecoveryReopensTheDispatch(s: System, c: string, error: string, events: seq<Event>)
    requires IsReachable(s) && c in s.store.candidates && Abandoned(s.store.candidates[c], s.now)
    requires NoneSendsOrCancels(events, c)
    ensures var st, m := s.store, Act(s, Recover(c, error));
      && c in st.dispatches && c in m.store.candidates && c in m.store.dispatches
        && st.candidates[c].activeAttemptNumber.Some?
      && var k, after, number := st.candidates[c], m.store.candidates[c], st.candidates[c].activeAttemptNumber.value;
      && AbortedAs(m.store, Delivery(c, number), InfrastructureFailure, error)
      && Delivery(c, number) in st.attempts && st.attempts[Delivery(c, number)].fenceToken == k.activeFenceToken
      && (forall d | d in st.dispatches && d != c ::
        d in m.store.dispatches && m.store.dispatches[d] == st.dispatches[d])
      && if number < k.maxAttempts then
           && after.status.RetryWait? && after.failureKind.None? && Claimable(m, c)
           && (st.dispatches[c].state.DispatchCancelled? ==> m.store.dispatches[c] == st.dispatches[c])
           && (!st.dispatches[c].state.DispatchCancelled? ==>
                 && m.store.dispatches[c].state.Pending? && m.store.dispatches[c].lastError == Some(error)
                 && WaitsToBeSent(RunFrom(m, events), c))
         else
           && after.status.TerminalFailurePending? && after.failureKind == Some(Infrastructure)
           && m.store.dispatches[c] == st.dispatches[c]
           && forall u | u in RunFrom(m, events).claims && RunFrom(m, events).claims[u].candidate.candidateId == c ::
             u in s.claims
  {
    hide IsReachable, Act, Inv, Claimable, RunFrom;
    var m := Act(s, Recover(c, error));
    RecoverEffect(s, c, error);
    Acting(s, Recover(c, error));
    OtherActsKeepClaims(s, Recover(c, error));
    ReachableInv(m);
    RecordHolds(m, c);
    if m.store.candidates[c].status.RetryWait? {
      WaitingIsClaimable(m, c);
      if m.store.dispatches[c].state.Pending? { WaitsUntilSent(m, events, c); }
    } else {
      PastForever(m, events, c);
    }
  }
}
