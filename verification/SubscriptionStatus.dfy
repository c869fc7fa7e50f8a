/** What the manager tells its observer, when, and what each event does to the rest of its state. */
module SubscriptionStatus {
  import opened Wrappers
  import opened SubscriptionManager
  import opened SubscriptionSafety
  import opened SubscriptionTheorems
  import opened SubscriptionProgress

  // ---------------------------------------------------------------- when something is told

  predicate Wants(s: State) {
    !s.stopped && s.desired != {}
  }

  /** The call exists and belongs to the current generation, for which subscriptions are wanted. */
  predicate CurrentCall(s: State, i: nat) {
    i < |s.calls| && s.calls[i].generation == s.generation && Wants(s)
  }

  /** A connection has been established and its connected callback has succeeded. */
  predicate Connects(s: State, e: Event) {
    e.Kept? && e.task.Finish? && e.task in s.tasks && e.task.generation == s.generation && Wants(s)
  }

  /** The old connection is gone, and the request that gave it up is still the latest one. */
  predicate Restarts(s: State, e: Event) {
    e.Kept? && e.task.Resubscribe? && e.task in s.tasks && e.task.generation == s.generation && !s.stopped
  }

  predicate ReportsStop(s: State, e: Event) {
    e.Kept? && e.task.ReportStop? && e.task in s.tasks
  }

  predicate Retries(s: State, e: Event) {
    e.TimerFired? && s.reconnectTimer == Some(s.generation) && Wants(s)
  }

  /** The connect routine of a current call fails. */
  predicate FailsToConnect(s: State, e: Event) {
    e.ConnectBroken? && CurrentCall(s, e.call) && !s.calls[e.call].phase.Settled?
  }

  /** The connected callback of the current generation fails. */
  predicate FailsToFinish(s: State, e: Event) {
    e.OnConnectedBroken? && Finish(e.generation) in s.tasks && e.generation == s.generation && Wants(s)
  }

  /** A current call loses its connection. */
  predicate LosesConnection(s: State, e: Event) {
    e.ProviderDisconnected? && CurrentCall(s, e.call)
  }

  predicate Fails(s: State, e: Event) {
    FailsToConnect(s, e) || FailsToFinish(s, e) || LosesConnection(s, e)
  }

  /** After a failure with no timer pending: the retries are used up. */
  predicate GivesUp(o: Options, s: State, e: Event) {
    Fails(s, e) && s.reconnectTimer.None? && s.reconnectAttempt >= o.maximumAttempts
  }

  /** After a failure with no timer pending: a retry is left. */
  predicate ArmsTimer(o: Options, s: State, e: Event) {
    Fails(s, e) && s.reconnectTimer.None? && s.reconnectAttempt < o.maximumAttempts
  }

  /** `base` doubled once for each of the first ten retries. */
  function Doubled(base: int, retry: nat): int {
    if retry == 0 then base else if retry > 10 then Doubled(base, 10) else 2 * Doubled(base, retry - 1)
  }

  /** Neither below `low` nor above `high`; between bounds that cross, `low`. */
  function Within(low: int, high: int, x: int): int {
    if x >= high then if high >= low then high else low else if x >= low then x else low
  }

  /** How long the retry after so many others waits. */
  function Wait(o: Options, retry: nat): int {
    var doubled := Doubled(o.base, retry);
    Within(0, o.maximum, o.jitter(if doubled < o.maximum then doubled else o.maximum, retry + 1))
  }

  /** The outputs of one step, in order. */
  function Says(o: Options, s: State, e: Event): seq<Output> {
    if Connects(s, e) then [Reset, Told(Connected)]
    else if Restarts(s, e) then [Reset, Told(if e.task.next == {} then Disconnected else Reconnecting)]
    else if ReportsStop(s, e) then [Told(Disconnected)]
    else if Retries(s, e) then [Told(Reconnecting)]
    else if Fails(s, e) then
      [Told(if e.ConnectBroken? then Disconnected else Reconnecting)]
      + if GivesUp(o, s, e) then [Told(Disconnected)] else if ArmsTimer(o, s, e)
        then [Armed(Wait(o, s.reconnectAttempt))] else []
    else []
  }

  lemma {:induction false} DoublingIsPower(base: int, retry: nat)
    ensures Doubled(base, retry) == base * PowerOfTwo(Min(retry, 10))
  {
    if retry > 10 {
      DoublingIsPower(base, 10);
    } else if retry > 0 {
      DoublingIsPower(base, retry - 1);
      assert base * PowerOfTwo(retry) == 2 * (base * PowerOfTwo(retry - 1));
    }
  }

  lemma WaitIsDelay(o: Options, retry: nat)
    ensures Wait(o, retry) == Delay(o, retry)
  {
    DoublingIsPower(o.base, retry);
    hide PowerOfTwo, Doubled;
  }

  lemma SaysOnTask(o: Options, s: State, e: Event)
    requires FinishOk(s) && e.Kept?
    ensures Step(o, s, e).log == s.log + Says(o, s, e)
  {
    hide Delay, Wait;
  }

  lemma SaysOnClose(o: Options, s: State, e: Event)
    requires e.CloseBroken?
    ensures Step(o, s, e).log == s.log + Says(o, s, e)
  {
    hide Delay, Wait;
  }

  lemma SaysOnCatch(o: Options, s: State, e: Event)
    requires e.ConnectBroken?
    ensures Step(o, s, e).log == s.log + Says(o, s, e)
  {
    WaitIsDelay(o, s.reconnectAttempt);
    hide Delay, Wait;
  }

  lemma SaysOnCallback(o: Options, s: State, e: Event)
    requires e.OnConnectedBroken?
    ensures Step(o, s, e).log == s.log + Says(o, s, e)
  {
    WaitIsDelay(o, s.reconnectAttempt);
    hide Delay, Wait;
  }

  lemma SaysOnDisconnect(o: Options, s: State, e: Event)
    requires e.ProviderDisconnected?
    ensures Step(o, s, e).log == s.log + Says(o, s, e)
  {
    WaitIsDelay(o, s.reconnectAttempt);
    hide Delay, Wait;
  }

  lemma SaysOtherwise(o: Options, s: State, e: Event)
    requires Inv(o, s) && !e.Kept? && !e.CloseBroken? && !e.ConnectBroken? && !e.OnConnectedBroken?
      && !e.ProviderDisconnected?
    ensures Step(o, s, e).log == s.log + Says(o, s, e)
  {
    hide Delay, Wait, RetriesOk, CallsOk, TasksOk;
  }

  lemma SaysHere(o: Options, s: State, e: Event)
    requires TasksKept(o, s)
    ensures Step(o, s, e).log == s.log + Says(o, s, e)
  {
    hide Step, Says, Inv, FinishOk, ReleaseAlone;
    match e
    case Kept(_) => SaysOnTask(o, s, e);
    case CloseBroken(_) => SaysOnClose(o, s, e);
    case ConnectBroken(_) => SaysOnCatch(o, s, e);
    case OnConnectedBroken(_) => SaysOnCallback(o, s, e);
    case ProviderDisconnected(_) => SaysOnDisconnect(o, s, e);
    case _ => SaysOtherwise(o, s, e);
  }

  lemma ReachableKept(o: Options, s: State)
    requires IsReachable(o, s)
    ensures TasksKept(o, s)
  {
    hide TasksKept, Run;
    var events :| s == Run(o, START, events);
    TasksKeptRun(o, events);
  }

  /** Every step says exactly this. */
  lemma SaysExactly(o: Options, s: State, e: Event)
    requires IsReachable(o, s)
    ensures Step(o, s, e).log == s.log + Says(o, s, e)
  {
    hide *;
    ReachableKept(o, s);
    SaysHere(o, s, e);
  }

  /** The step adds this output. */
  predicate Adds(o: Options, s: State, e: Event, x: Output) {
    |s.log| <= |Step(o, s, e).log| && x in Step(o, s, e).log[|s.log|..]
  }

  /**
   * CONNECTED is told exactly when a connected callback of the current generation has succeeded; RECONNECTING when a
   * connect call begins, or after a lost connection or a failed callback; DISCONNECTED when nothing is wanted any more,
   * a stop is over, a connect call has failed, or the retries are used up.
   */
  lemma ToldExactly(o: Options, s: State, e: Event)
    requires IsReachable(o, s)
    ensures Adds(o, s, e, Told(Connected)) <==> Connects(s, e)
    ensures Adds(o, s, e, Told(Reconnecting)) <==>
      (Restarts(s, e) && s.desired != {}) || Retries(s, e) || LosesConnection(s, e) || FailsToFinish(s, e)
    ensures Adds(o, s, e, Told(Disconnected)) <==>
      (Restarts(s, e) && s.desired == {}) || ReportsStop(s, e) || FailsToConnect(s, e) || GivesUp(o, s, e)
    ensures Adds(o, s, e, Reset) <==> Connects(s, e) || Restarts(s, e)
    ensures forall d :: Adds(o, s, e, Armed(d)) <==> ArmsTimer(o, s, e) && d == Wait(o, s.reconnectAttempt)
  {
    hide IsReachable, Step, Wait, Inv, ReleaseAlone, FinishOk, Says, Connects, Restarts, ReportsStop, Retries, Fails,
      GivesUp,
      ArmsTimer, LosesConnection, FailsToFinish, FailsToConnect;
    SaysExactly(o, s, e);
    ReachableKept(o, s);
    assert Step(o, s, e).log[|s.log|..] == Says(o, s, e);
    SaysAfterTask(o, s, e);
    SaysAfterOther(o, s, e);
  }

  lemma SaysAfterTask(o: Options, s: State, e: Event)
    requires FinishOk(s)
    ensures e.Kept? ==> var says := Says(o, s, e);
      && (Told(Connected) in says <==> Connects(s, e))
      && (Told(Reconnecting) in says <==> Restarts(s, e) && s.desired != {})
      && (Told(Disconnected) in says <==> (Restarts(s, e) && s.desired == {}) || ReportsStop(s, e))
      && (Reset in says <==> Connects(s, e) || Restarts(s, e))
      && (forall d :: Armed(d) !in says)
      && !Retries(s, e) && !LosesConnection(s, e) && !FailsToFinish(s, e) && !FailsToConnect(s, e)
      && !GivesUp(o, s, e) && !ArmsTimer(o, s, e)
  {
    hide Wait, Wants, CurrentCall;
  }

  lemma SaysAfterOther(o: Options, s: State, e: Event)
    ensures !e.Kept? ==> var says := Says(o, s, e);
      && Told(Connected) !in says && Reset !in says
      && (Told(Reconnecting) in says <==> Retries(s, e) || LosesConnection(s, e) || FailsToFinish(s, e))
      && (Told(Disconnected) in says <==> FailsToConnect(s, e) || GivesUp(o, s, e))
      && (forall d :: Armed(d) in says <==> ArmsTimer(o, s, e) && d == Wait(o, s.reconnectAttempt))
      && !Connects(s, e) && !Restarts(s, e) && !ReportsStop(s, e)
  {
    hide Wait, Wants, CurrentCall;
  }
}
