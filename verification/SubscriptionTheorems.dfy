/** What the subscription manager promises along every run, and the runs on which it breaks a promise. */
module SubscriptionTheorems {
  import opened Wrappers
  import opened SubscriptionManager
  import opened SubscriptionSafety

  lemma {:induction false} RunInv(o: Options, s: State, events: seq<Event>)
    requires Inv(o, s)
    ensures Inv(o, Run(o, s, events))
    decreases |events|
  {
    hide Inv, Step;
    if events != [] {
      RunInv(o, s, events[..|events| - 1]);
      StepInv(o, Run(o, s, events[..|events| - 1]), events[|events| - 1]);
    }
  }

  ghost predicate IsReachable(o: Options, s: State) {
    exists events: seq<Event> :: s == Run(o, START, events)
  }

  lemma ReachableInv(o: Options, s: State)
    requires IsReachable(o, s)
    ensures Inv(o, s)
  {
    hide Inv, Run;
    var events :| s == Run(o, START, events);
    StartInv(o);
    RunInv(o, START, events);
  }

  // ---------------------------------------------------------------- bounded retries

  /** Between two resets the manager arms at most `maximumAttempts` timers, each within the configured delay. */
  lemma RetriesBounded(o: Options, s: State)
    requires IsReachable(o, s)
    ensures ArmedSinceReset(s.log) == s.reconnectAttempt
    ensures ArmedSinceReset(s.log) <= (if o.maximumAttempts > 0 then o.maximumAttempts else 0)
    ensures forall k | 0 <= k < |s.log| && s.log[k].Armed? ::
      0 <= s.log[k].delay <= (if o.maximum > 0 then o.maximum else 0)
  {
    ReachableInv(o, s);
  }

  // ---------------------------------------------------------------- stopping

  function Farewell(n: nat): seq<Output> {
    seq(n, _ => Told(Disconnected))
  }

  /** A stopped manager holds nothing, and every link it did not have before is closed. */
  predicate AtRest(s: State, before: map<nat, Link>) {
    s.stopped && s.connection.None? && s.reconnectTimer.None? && forall i | i in s.links && i !in before ::
      s.links[i].Closed?
  }

  /** What one step of a stopped manager leaves alone. */
  predicate Hushed(s: State, r: State, before: map<nat, Link>) {
    && AtRest(r, before) && |r.calls| == |s.calls|
    && (r.log == s.log || (r.log == s.log + [Told(Disconnected)] && StopReports(r.tasks) + 1 == StopReports(s.tasks)))
    && StopReports(r.tasks) <= StopReports(s.tasks)
  }

  lemma StoppedProvider(o: Options, s: State, e: Event, before: map<nat, Link>)
    requires AtRest(s, before)
      && (e.ConnectionOpened? || e.ConnectionReady? || e.ProviderConnected? || e.ConnectBroken?
      || e.ProviderDisconnected?)
    ensures Hushed(s, Step(o, s, e), before)
  {
    hide Delay, ScheduleReconnect;
  }

  lemma StoppedContinue(s: State, task: Task)
    requires s.stopped
    ensures Continue(s, task) == if task.ReportStop? then AfterStop(s) else s
  {
    hide Connect;
  }

  lemma FewerReports(tasks: multiset<Task>, task: Task)
    requires task in tasks
    ensures StopReports(tasks - multiset{task}) == StopReports(tasks) - if task.ReportStop? then 1 else 0
  {
  }

  lemma StoppedTask(o: Options, s: State, e: Event, before: map<nat, Link>)
    requires AtRest(s, before) && (e.Kept? || e.CloseBroken?)
    ensures Hushed(s, Step(o, s, e), before)
  {
    hide Continue, StopReports;
    if e.task in s.tasks {
      FewerReports(s.tasks, e.task);
      StoppedContinue(s.(tasks := s.tasks - multiset{e.task}), e.task);
    }
  }

  lemma StoppedOther(o: Options, s: State, e: Event, before: map<nat, Link>)
    requires AtRest(s, before) && (e.Subscribe? || e.StopRequested? || e.OnConnectedBroken? || e.TimerFired?)
    ensures Hushed(s, Step(o, s, e), before)
  {
    hide ScheduleReconnect;
  }

  lemma StoppedStep(o: Options, s: State, e: Event, before: map<nat, Link>)
    requires AtRest(s, before)
    ensures Hushed(s, Step(o, s, e), before)
  {
    hide Step, AtRest, Hushed;
    if e.ConnectionOpened? || e.ConnectionReady? || e.ProviderConnected? || e.ConnectBroken?
      || e.ProviderDisconnected? {
      StoppedProvider(o, s, e, before);
    } else if e.Kept? || e.CloseBroken? {
      StoppedTask(o, s, e, before);
    } else {
      StoppedOther(o, s, e, before);
    }
  }

  /** After some reports of the stop, out of those that were to come. */
  predicate SaidFarewell(before: State, r: State) {
    exists k: nat :: r.log == before.log + Farewell(k) && k + StopReports(r.tasks) <= StopReports(before.tasks)
  }

  lemma FarewellStep(before: State, s: State, r: State, links: map<nat, Link>)
    requires SaidFarewell(before, s) && Hushed(s, r, links)
    ensures SaidFarewell(before, r)
  {
    hide StopReports, AtRest;
    var k: nat :| s.log == before.log + Farewell(k) && k + StopReports(s.tasks) <= StopReports(before.tasks);
    assert before.log + Farewell(k) + [Told(Disconnected)] == before.log + Farewell(k + 1);
  }

  lemma {:induction false} StoppedRun(o: Options, s: State, events: seq<Event>)
    requires Inv(o, s) && s.stopped
    ensures var r := Run(o, s, events); AtRest(r, s.links) && |r.calls| == |s.calls| && SaidFarewell(s, r)
    decreases |events|
  {
    hide Step, SaidFarewell;
    if events == [] {
      NothingSaid(s);
    } else {
      StoppedRun(o, s, events[..|events| - 1]);
      var m := Run(o, s, events[..|events| - 1]);
      RunInv(o, s, events[..|events| - 1]);
      StoppedStep(o, m, events[|events| - 1], s.links);
      FarewellStep(s, m, Run(o, s, events), s.links);
    }
  }

  lemma NothingSaid(s: State)
    ensures SaidFarewell(s, s)
  {
    assert s.log == s.log + Farewell(0);
  }

  /**
   * Once stopped, whatever still resolves: no connection is retained, no timer is armed, no connect call begins,
   * a connection handed over late is closed, and the observer is told DISCONNECTED, at most once.
   */
  lemma StopIsFinal(o: Options, s: State, events: seq<Event>)
    requires IsReachable(o, s) && s.stopped
    ensures var r := Run(o, s, events);
      && r.stopped && r.connection.None? && r.reconnectTimer.None? && |r.calls| == |s.calls|
      && (forall i | i in r.links && i !in s.links :: r.links[i].Closed?)
      && (r.log == s.log || r.log == s.log + [Told(Disconnected)])
  {
    ReachableInv(o, s);
    hide Run;
    StoppedRun(o, s, events);
    var r := Run(o, s, events);
    var k: nat :| r.log == s.log + Farewell(k) && k + StopReports(r.tasks) <= StopReports(s.tasks);
    if k == 0 { assert Farewell(0) == []; } else { assert Farewell(1) == [Told(Disconnected)]; }
  }

  // ---------------------------------------------------------------- connections without failures

  /**
   * For the current generation at most one of these exists: a pending resubscription, a pending timer, a connect call.
   */
  predicate OneSource(s: State) {
    && (forall i, j | 0 <= i < |s.calls| && 0 <= j < |s.calls|
      && s.calls[i].generation == s.generation == s.calls[j].generation :: i == j)
    && (s.reconnectTimer.Some? ==> s.reconnectTimer.value == s.generation && NoCall(s) && NoResubscription(s))
    && (!NoResubscription(s) ==> NoCall(s))
    && (forall t | t in s.tasks && t.Resubscribe? && t.generation == s.generation :: s.tasks[t] == 1)
    && (forall t, u | t in s.tasks && u in s.tasks && t.Resubscribe? && u.Resubscribe?
      && t.generation == s.generation == u.generation :: t == u)
  }

  predicate NoCall(s: State) {
    forall i | 0 <= i < |s.calls| :: s.calls[i].generation != s.generation
  }

  predicate NoResubscription(s: State) {
    forall t | t in s.tasks && t.Resubscribe? :: t.generation != s.generation
  }

  /** Every connection the provider still keeps open for the manager is the manager's current one. */
  predicate Accounted(s: State) {
    forall i | i in s.links && s.links[i].Live? :: s.connection == Some(i)
  }

  lemma SubscribeUnbroken(o: Options, s: State, e: Event)
    requires Inv(o, s) && OneSource(s) && Accounted(s) && (e.Subscribe?)
    ensures OneSource(Step(o, s, e)) && Accounted(Step(o, s, e))
  {
    hide RetriesOk, Delay;
  }

  lemma StopUnbroken(o: Options, s: State, e: Event)
    requires Inv(o, s) && OneSource(s) && Accounted(s) && (e.StopRequested?)
    ensures OneSource(Step(o, s, e)) && Accounted(Step(o, s, e))
  {
    hide RetriesOk, Delay;
  }

  /** A connect call may begin once nothing else stands for the current generation. */
  lemma ConnectUnbroken(s: State)
    requires OneSource(s) && Accounted(s) && NoCall(s) && NoResubscription(s) && s.reconnectTimer.None?
    ensures OneSource(Connect(s, s.generation)) && Accounted(Connect(s, s.generation))
  {
  }

  lemma TaskDone(s: State, task: Task)
    requires OneSource(s) && Accounted(s) && task in s.tasks
    ensures var t := s.(tasks := s.tasks - multiset{task});
      && OneSource(t) && Accounted(t)
      && (task.Resubscribe? && task.generation == s.generation ==>
        NoCall(t) && NoResubscription(t) && t.reconnectTimer.None?)
  {
  }

  lemma KeptUnbroken(o: Options, s: State, e: Event)
    requires Inv(o, s) && OneSource(s) && Accounted(s) && e.Kept?
    ensures OneSource(Step(o, s, e)) && Accounted(Step(o, s, e))
  {
    hide Inv, OneSource, Accounted, NoCall, NoResubscription, Connect;
    if e.task in s.tasks {
      var t := s.(tasks := s.tasks - multiset{e.task});
      TaskDone(s, e.task);
      if e.task.Resubscribe? {
        var u := t.(reconnectAttempt := 0, log := t.log + [Reset]);
        LogOnly(t, u);
        LogOnly(t, Tell(u, Disconnected));
        if e.task.generation == s.generation { ConnectUnbroken(u); }
      } else {
        LogOnly(t, Continue(t, e.task));
      }
    }
  }

  /** The wanted set, the log and the retry count play no part here. */
  lemma LogOnly(s: State, r: State)
    requires OneSource(s) && Accounted(s)
    requires r == s.(desired := r.desired, log := r.log, reconnectAttempt := r.reconnectAttempt)
    ensures OneSource(r) && Accounted(r) && (NoCall(s) ==> NoCall(r)) && (NoResubscription(s) ==> NoResubscription(r))
  {
  }

  lemma CloseBrokenUnbroken(o: Options, s: State, e: Event)
    requires Inv(o, s) && OneSource(s) && Accounted(s) && (e.CloseBroken?)
    ensures OneSource(Step(o, s, e)) && Accounted(Step(o, s, e))
  {
    hide RetriesOk, Delay;
  }

  lemma MarkUnbroken(s: State, i: nat)
    requires i < |s.calls| && OneSource(s) && Accounted(s)
    ensures OneSource(MarkConnected(s, i)) && Accounted(MarkConnected(s, i))
  {
  }

  lemma PhaseUnbroken(s: State, i: nat, phase: Phase)
    requires i < |s.calls| && OneSource(s) && Accounted(s)
    ensures OneSource(SetPhase(s, i, phase)) && Accounted(SetPhase(s, i, phase))
  {
  }

  lemma OpenedUnbroken(o: Options, s: State, e: Event)
    requires Inv(o, s) && OneSource(s) && Accounted(s) && e.ConnectionOpened?
    ensures OneSource(Step(o, s, e)) && Accounted(Step(o, s, e))
  {
    hide Inv, OneSource, Accounted, MarkConnected;
    if e.call < |s.calls| && s.calls[e.call].phase.Opening? {
      var i := e.call;
      if Current(s, s.calls[i].generation) {
        var phase := if !s.calls[i].readiness && e.hasReady then Waiting else Settled;
        FirstConnection(o, s, i);
        var t := s.(connection := Some(i), links := s.links[i := Live]);
        PhaseUnbroken(t, i, phase);
        MarkUnbroken(SetPhase(t, i, phase), i);
      } else {
        PhaseUnbroken(s, i, LateClose);
        LateUnbroken(SetPhase(s, i, LateClose), i);
      }
    }
  }

  lemma FirstConnection(o: Options, s: State, i: nat)
    requires Inv(o, s) && OneSource(s) && Accounted(s) && i < |s.calls| && s.calls[i].phase.Opening?
      && Current(s, s.calls[i].generation)
    ensures var t := s.(connection := Some(i), links := s.links[i := Live]); OneSource(t) && Accounted(t)
  {
    hide RetriesOk, TasksOk;
  }

  lemma LateUnbroken(s: State, i: nat)
    requires OneSource(s) && Accounted(s)
    ensures var t := s.(links := s.links[i := Closed]); OneSource(t) && Accounted(t)
  {
  }

  lemma ReadyUnbroken(o: Options, s: State, e: Event)
    requires Inv(o, s) && OneSource(s) && Accounted(s) && (e.ConnectionReady? || e.ProviderConnected?)
    ensures OneSource(Step(o, s, e)) && Accounted(Step(o, s, e))
  {
    hide Inv, OneSource, Accounted, MarkConnected, SetPhase;
    if e.call < |s.calls| {
      MarkUnbroken(s, e.call);
      PhaseUnbroken(s, e.call, Settled);
      MarkSettled(s, e.call);
    }
  }

  lemma MarkSettled(s: State, i: nat)
    requires i < |s.calls| && OneSource(SetPhase(s, i, Settled)) && Accounted(SetPhase(s, i, Settled))
    ensures var r := MarkConnected(SetPhase(s, i, Settled), i); OneSource(r) && Accounted(r)
  {
    hide OneSource, Accounted, MarkConnected;
    MarkUnbroken(SetPhase(s, i, Settled), i);
  }

  lemma DisconnectedSource(o: Options, s: State, e: Event)
    requires Inv(o, s) && OneSource(s) && e.ProviderDisconnected?
    ensures OneSource(Step(o, s, e))
  {
    hide RetriesOk, Delay;
  }

  lemma DisconnectedAccounted(o: Options, s: State, e: Event)
    requires Inv(o, s) && OneSource(s) && Accounted(s) && e.ProviderDisconnected?
    ensures Accounted(Step(o, s, e))
  {
    hide RetriesOk, Delay, TasksOk, NoCall, NoResubscription;
  }

  lemma DisconnectedUnbroken(o: Options, s: State, e: Event)
    requires Inv(o, s) && OneSource(s) && Accounted(s) && e.ProviderDisconnected?
    ensures OneSource(Step(o, s, e)) && Accounted(Step(o, s, e))
  {
    hide *;
    DisconnectedSource(o, s, e);
    DisconnectedAccounted(o, s, e);
  }

  lemma TimerUnbroken(o: Options, s: State, e: Event)
    requires Inv(o, s) && OneSource(s) && Accounted(s) && (e.TimerFired?)
    ensures OneSource(Step(o, s, e)) && Accounted(Step(o, s, e))
  {
    hide RetriesOk, Delay;
  }

  lemma NotBroken(e: Event)
    ensures Broken(e) <==> e.ConnectBroken? || e.OnConnectedBroken?
  {
  }

  lemma UnbrokenStep(o: Options, s: State, e: Event)
    requires Inv(o, s) && OneSource(s) && Accounted(s) && !Broken(e)
    ensures OneSource(Step(o, s, e)) && Accounted(Step(o, s, e))
  {
    NotBroken(e);
    hide *;
    match e
    case Subscribe(_) => SubscribeUnbroken(o, s, e);
    case StopRequested => StopUnbroken(o, s, e);
    case Kept(_) => KeptUnbroken(o, s, e);
    case CloseBroken(_) => CloseBrokenUnbroken(o, s, e);
    case ConnectionOpened(_, _) => OpenedUnbroken(o, s, e);
    case ProviderDisconnected(_) => DisconnectedUnbroken(o, s, e);
    case TimerFired => TimerUnbroken(o, s, e);
    case ConnectionReady(_) => ReadyUnbroken(o, s, e);
    case ProviderConnected(_) => ReadyUnbroken(o, s, e);
    case _ =>
  }

  ghost predicate Unbroken(events: seq<Event>) {
    forall k | 0 <= k < |events| :: !Broken(events[k])
  }

  lemma {:induction false} UnbrokenRun(o: Options, events: seq<Event>)
    requires Unbroken(events)
    ensures var s := Run(o, START, events); Inv(o, s) && OneSource(s) && Accounted(s)
    decreases |events|
  {
    hide Inv, OneSource, Accounted, Step, Broken;
    if events == [] {
      StartInv(o);
      StartSource();
    } else {
      UnbrokenRun(o, events[..|events| - 1]);
      StepInv(o, Run(o, START, events[..|events| - 1]), events[|events| - 1]);
      UnbrokenStep(o, Run(o, START, events[..|events| - 1]), events[|events| - 1]);
    }
  }

  lemma StartSource()
    ensures OneSource(START) && Accounted(START)
  {
  }

  /**
   * While no promise of the provider and no connected callback fails, every connection opened is current, dropped by
   * the provider, or closed.
   */
  lemma EveryConnectionAccounted(o: Options, events: seq<Event>, i: nat)
    requires Unbroken(events) && i in Run(o, START, events).links
    ensures var s := Run(o, START, events); s.connection == Some(i) || s.links[i].Dropped? || s.links[i].Closed?
  {
    hide Run;
    UnbrokenRun(o, events);
  }

  // ---------------------------------------------------------------- losing track

  /** The step leaves the current connection open at the provider, but the manager no longer refers to it. */
  predicate LosesTrack(s: State, r: State) {
    s.connection.Some? && r.connection != s.connection && s.connection.value in r.links
      && r.links[s.connection.value].Live?
  }

  /**
   * Exactly three steps lose track of a connection: a second connect call of the same generation hands over its
   * connection, the catch of any connect call runs, or the provider reports a disconnect for another call of the same
   * generation.
   */
  predicate Overlooks(s: State, e: Event) {
    && s.connection.Some?
    && (|| (e.ConnectionOpened? && e.call < |s.calls| && s.calls[e.call].phase.Opening?
      && Current(s, s.calls[e.call].generation))
        || (e.ConnectBroken? && e.call < |s.calls| && !s.calls[e.call].phase.Settled?)
        || (e.ProviderDisconnected? && e.call < |s.calls| && Current(s, s.calls[e.call].generation)
          && e.call != s.connection.value))
  }

  lemma LosesTrackExactly(o: Options, s: State, e: Event)
    requires IsReachable(o, s)
    ensures LosesTrack(s, Step(o, s, e)) <==> Overlooks(s, e)
  {
    ReachableInv(o, s);
    LosesTrackHere(o, s, e);
  }

  lemma LosesTrackHere(o: Options, s: State, e: Event)
    requires Inv(o, s)
    ensures LosesTrack(s, Step(o, s, e)) <==> Overlooks(s, e)
  {
    hide Inv, Step, LosesTrack, Overlooks;
    if e.ConnectionOpened? {
      LosesTrackOnOpen(o, s, e);
    } else if e.ConnectBroken? || e.ProviderDisconnected? {
      LosesTrackOnFailure(o, s, e);
    } else {
      KeepsTrack(o, s, e);
    }
  }

  lemma LosesTrackOnOpen(o: Options, s: State, e: Event)
    requires Inv(o, s) && e.ConnectionOpened?
    ensures LosesTrack(s, Step(o, s, e)) <==> Overlooks(s, e)
  {
    hide RetriesOk, TasksOk;
  }

  lemma LosesTrackOnFailure(o: Options, s: State, e: Event)
    requires Inv(o, s) && (e.ConnectBroken? || e.ProviderDisconnected?)
    ensures LosesTrack(s, Step(o, s, e)) <==> Overlooks(s, e)
  {
    hide RetriesOk, TasksOk, Delay;
  }

  /** Every other step keeps the connection or closes it. */
  lemma KeepsTrack(o: Options, s: State, e: Event)
    requires Inv(o, s) && !e.ConnectionOpened? && !e.ConnectBroken? && !e.ProviderDisconnected?
    ensures !LosesTrack(s, Step(o, s, e)) && !Overlooks(s, e)
  {
    hide RetriesOk, TasksOk, CallsOk, Delay;
  }
}
