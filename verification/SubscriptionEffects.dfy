/** What each event does to everything the manager and its provider hold, and what follows from it along every run. */
module SubscriptionEffects {
  import opened Wrappers
  import opened SubscriptionManager
  import opened SubscriptionSafety
  import opened SubscriptionTheorems
  import opened SubscriptionProgress
  import opened SubscriptionStatus

  // ---------------------------------------------------------------- what takes effect

  /** A request for another set, or for the same one while neither a connection nor a timer stands for it. */
  predicate Accepts(s: State, e: Event) {
    e.Subscribe? && !s.stopped
      && (e.next != s.desired || (e.next != {} && s.connection.None? && s.reconnectTimer.None?))
  }

  predicate Stops(s: State, e: Event) {
    e.StopRequested? && !s.stopped
  }

  /** The provider hands over a connection. */
  predicate Opens(s: State, e: Event) {
    e.ConnectionOpened? && e.call < |s.calls| && s.calls[e.call].phase.Opening?
  }

  predicate HandsOver(s: State, e: Event) {
    Opens(s, e) && CurrentCall(s, e.call)
  }

  predicate TurnsReady(s: State, e: Event) {
    e.ConnectionReady? && e.call < |s.calls| && s.calls[e.call].phase.Waiting?
  }

  predicate CatchRuns(s: State, e: Event) {
    e.ConnectBroken? && e.call < |s.calls| && !s.calls[e.call].phase.Settled?
  }

  /** A connect call of the present generation counts as connected for the first time. */
  predicate Marks(s: State, e: Event) {
    && (TurnsReady(s, e) || (HandsOver(s, e) && !e.hasReady) || (e.ProviderConnected? && e.call < |s.calls|))
    && !s.calls[e.call].readiness && s.calls[e.call].generation == s.generation && !s.stopped
  }

  /** A connect call begins. */
  predicate Begins(s: State, e: Event) {
    (Restarts(s, e) && s.desired != {}) || Retries(s, e)
  }

  /** The present generation is over. */
  predicate MovesOn(s: State, e: Event) {
    Accepts(s, e) || Stops(s, e) || LosesConnection(s, e)
  }

  function PhaseAfter(s: State, e: Event, i: nat): Phase
    requires i < |s.calls|
  {
    if Opens(s, e) && e.call == i then
      if !HandsOver(s, e) then LateClose else if e.hasReady && !s.calls[i].readiness then Waiting else Settled
    else if (TurnsReady(s, e) || CatchRuns(s, e)) && e.call == i then Settled
    else s.calls[i].phase
  }

  predicate CallsChange(s: State, e: Event, r: State) {
    && |r.calls| == |s.calls| + (if Begins(s, e) then 1 else 0)
    && (Begins(s, e) ==> r.calls[|s.calls|] == Call(s.generation, s.desired, false, Opening))
    && (forall i | 0 <= i < |s.calls| ::
          r.calls[i]
            == s.calls[i].(readiness := s.calls[i].readiness
            || (Marks(s, e) && e.call == i), phase := PhaseAfter(s, e, i)))
  }

  predicate LinksChange(s: State, e: Event, r: State) {
    r.links ==
      if Opens(s, e) then s.links[e.call := if HandsOver(s, e) then Live else Closed]
      else if (Accepts(s, e) || Stops(s, e)) && s.connection.Some? then s.links[s.connection.value := Closed]
      else if e.ProviderDisconnected? && e.call < |s.calls| && e.call in s.links && s.links[e.call].Live? then
        s.links[e.call := Dropped]
      else s.links
  }

  /** The continuations that this event runs or abandons, and those it leaves to wait. */
  predicate TasksChange(s: State, e: Event, r: State) {
    r.tasks ==
      if Accepts(s, e) then s.tasks + multiset{Resubscribe(s.generation + 1, e.next, s.connection.Some?)}
      else if Stops(s, e) then s.tasks + multiset{ReportStop(s.connection.Some?)}
      else if Marks(s, e) && s.desired != {} then s.tasks + multiset{Finish(s.generation)}
      else if e.Kept? && e.task in s.tasks then s.tasks - multiset{e.task}
      else if e.CloseBroken? && e.task in s.tasks && !e.task.Finish? && e.task.closing then s.tasks - multiset{e.task}
      else if e.OnConnectedBroken? && Finish(e.generation) in s.tasks then s.tasks - multiset{Finish(e.generation)}
      else s.tasks
  }

  predicate FieldsChange(o: Options, s: State, e: Event, r: State) {
    && r.desired == (if Accepts(s, e) then e.next else if ReportsStop(s, e) then {} else s.desired)
    && r.stopped == (s.stopped || e.StopRequested?)
    && r.generation == s.generation + (if MovesOn(s, e) then 1 else 0)
    && r.connection ==
         (if HandsOver(s, e) then Some(e.call) else if MovesOn(s, e) || CatchRuns(s, e) then None else s.connection)
    && r.reconnectTimer ==
         (if ArmsTimer(o, s, e) then Some(r.generation)
          else if Accepts(s, e) || Stops(s, e) || e.TimerFired? then None else s.reconnectTimer)
    && r.reconnectAttempt ==
         (if Connects(s, e) || Restarts(s, e) then 0
          else if ArmsTimer(o, s, e) then s.reconnectAttempt + 1 else s.reconnectAttempt)
  }

  ghost predicate Changes(o: Options, s: State, e: Event) {
    var r := Step(o, s, e);
    FieldsChange(o, s, e, r) && CallsChange(s, e, r) && LinksChange(s, e, r) && TasksChange(s, e, r)
  }

  lemma SubscribeChanges(o: Options, s: State, e: Event)
    requires e.Subscribe?
    ensures Changes(o, s, e)
  {
  }

  lemma StopChanges(o: Options, s: State, e: Event)
    requires e.StopRequested?
    ensures Changes(o, s, e)
  {
  }

  lemma KeptChanges(o: Options, s: State, e: Event)
    requires FinishOk(s) && e.Kept?
    ensures Changes(o, s, e)
  {
    hide Step, FieldsChange, CallsChange, LinksChange, TasksChange, FinishOk;
    KeptFields(o, s, e);
    KeptCalls(o, s, e);
    KeptTasks(o, s, e);
  }

  lemma KeptFields(o: Options, s: State, e: Event)
    requires FinishOk(s) && e.Kept?
    ensures FieldsChange(o, s, e, Step(o, s, e))
  {
  }

  lemma KeptCalls(o: Options, s: State, e: Event)
    requires FinishOk(s) && e.Kept?
    ensures CallsChange(s, e, Step(o, s, e)) && LinksChange(s, e, Step(o, s, e))
  {
  }

  lemma KeptTasks(o: Options, s: State, e: Event)
    requires FinishOk(s) && e.Kept?
    ensures TasksChange(s, e, Step(o, s, e))
  {
  }

  lemma CloseBrokenChanges(o: Options, s: State, e: Event)
    requires e.CloseBroken?
    ensures Changes(o, s, e)
  {
    hide Step, FieldsChange, CallsChange, LinksChange, TasksChange;
    CloseBrokenFields(o, s, e);
    CloseBrokenCalls(o, s, e);
    CloseBrokenTasks(o, s, e);
  }

  lemma CloseBrokenFields(o: Options, s: State, e: Event)
    requires e.CloseBroken?
    ensures FieldsChange(o, s, e, Step(o, s, e))
  {
  }

  lemma CloseBrokenCalls(o: Options, s: State, e: Event)
    requires e.CloseBroken?
    ensures CallsChange(s, e, Step(o, s, e)) && LinksChange(s, e, Step(o, s, e))
  {
  }

  lemma CloseBrokenTasks(o: Options, s: State, e: Event)
    requires e.CloseBroken?
    ensures TasksChange(s, e, Step(o, s, e))
  {
  }

  lemma TimerChanges(o: Options, s: State, e: Event)
    requires Inv(o, s) && e.TimerFired?
    ensures Changes(o, s, e)
  {
    hide RetriesOk, CallsOk, TasksOk;
  }

  lemma OpenedChanges(o: Options, s: State, e: Event)
    requires e.ConnectionOpened?
    ensures Changes(o, s, e)
  {
    hide Step, FieldsChange, CallsChange, LinksChange, TasksChange;
    OpenedFields(o, s, e);
    OpenedCalls(o, s, e);
    OpenedTasks(o, s, e);
  }

  lemma OpenedFields(o: Options, s: State, e: Event)
    requires e.ConnectionOpened?
    ensures FieldsChange(o, s, e, Step(o, s, e))
  {
  }

  lemma OpenedCalls(o: Options, s: State, e: Event)
    requires e.ConnectionOpened?
    ensures CallsChange(s, e, Step(o, s, e)) && LinksChange(s, e, Step(o, s, e))
  {
  }

  lemma OpenedTasks(o: Options, s: State, e: Event)
    requires e.ConnectionOpened?
    ensures TasksChange(s, e, Step(o, s, e))
  {
  }

  lemma ReadyChanges(o: Options, s: State, e: Event)
    requires e.ConnectionReady?
    ensures Changes(o, s, e)
  {
    hide Step, FieldsChange, CallsChange, LinksChange, TasksChange;
    ReadyFields(o, s, e);
    ReadyCalls(o, s, e);
    ReadyTasks(o, s, e);
  }

  lemma ReadyFields(o: Options, s: State, e: Event)
    requires e.ConnectionReady?
    ensures FieldsChange(o, s, e, Step(o, s, e))
  {
  }

  lemma ReadyCalls(o: Options, s: State, e: Event)
    requires e.ConnectionReady?
    ensures CallsChange(s, e, Step(o, s, e)) && LinksChange(s, e, Step(o, s, e))
  {
  }

  lemma ReadyTasks(o: Options, s: State, e: Event)
    requires e.ConnectionReady?
    ensures TasksChange(s, e, Step(o, s, e))
  {
  }

  lemma MarkedChanges(o: Options, s: State, e: Event)
    requires e.ProviderConnected?
    ensures Changes(o, s, e)
  {
  }

  lemma CatchChanges(o: Options, s: State, e: Event)
    requires e.ConnectBroken?
    ensures Changes(o, s, e)
  {
    hide Delay;
  }

  lemma CallbackChanges(o: Options, s: State, e: Event)
    requires e.OnConnectedBroken?
    ensures Changes(o, s, e)
  {
    hide Step, FieldsChange, CallsChange, LinksChange, TasksChange;
    CallbackFields(o, s, e);
    CallbackCalls(o, s, e);
    CallbackTasks(o, s, e);
  }

  lemma CallbackFields(o: Options, s: State, e: Event)
    requires e.OnConnectedBroken?
    ensures FieldsChange(o, s, e, Step(o, s, e))
  {
    hide Delay;
  }

  lemma CallbackCalls(o: Options, s: State, e: Event)
    requires e.OnConnectedBroken?
    ensures CallsChange(s, e, Step(o, s, e)) && LinksChange(s, e, Step(o, s, e))
  {
    hide Delay;
  }

  lemma CallbackTasks(o: Options, s: State, e: Event)
    requires e.OnConnectedBroken?
    ensures TasksChange(s, e, Step(o, s, e))
  {
    hide Delay;
  }

  lemma DisconnectChanges(o: Options, s: State, e: Event)
    requires e.ProviderDisconnected?
    ensures Changes(o, s, e)
  {
    hide Delay;
  }

  /** Every field, call, link and continuation after one event. */
  lemma ChangesExactly(o: Options, s: State, e: Event)
    requires IsReachable(o, s)
    ensures Changes(o, s, e)
  {
    hide *;
    ReachableKept(o, s);
    ChangesHere(o, s, e);
  }

  lemma ChangesHere(o: Options, s: State, e: Event)
    requires TasksKept(o, s)
    ensures Changes(o, s, e)
  {
    hide Changes, Inv, FinishOk, ReleaseAlone;
    match e
    case Subscribe(_) => SubscribeChanges(o, s, e);
    case StopRequested => StopChanges(o, s, e);
    case Kept(_) => KeptChanges(o, s, e);
    case CloseBroken(_) => CloseBrokenChanges(o, s, e);
    case TimerFired => TimerChanges(o, s, e);
    case ConnectionOpened(_, _) => OpenedChanges(o, s, e);
    case ConnectionReady(_) => ReadyChanges(o, s, e);
    case ProviderConnected(_) => MarkedChanges(o, s, e);
    case ConnectBroken(_) => CatchChanges(o, s, e);
    case OnConnectedBroken(_) => CallbackChanges(o, s, e);
    case ProviderDisconnected(_) => DisconnectChanges(o, s, e);
  }

  // ---------------------------------------------------------------- the provider is asked for what is wanted

  /** Every call of the present generation has asked for what is wanted now. */
  predicate AskedForWanted(s: State) {
    !s.stopped ==>
      forall i | 0 <= i < |s.calls| && s.calls[i].generation == s.generation :: s.calls[i].asked == s.desired
  }

  lemma AskedStep(o: Options, s: State, e: Event)
    requires TasksKept(o, s) && AskedForWanted(s)
    ensures AskedForWanted(Step(o, s, e))
  {
    hide Step, FinishOk, ReleaseAlone, RetriesOk, LinksChange, TasksChange, PhaseAfter, ArmsTimer;
    ChangesHere(o, s, e);
    if ReportsStop(s, e) { StoppedIdle(o, s, e.task); }
  }

  lemma {:induction false} AskedRun(o: Options, events: seq<Event>)
    ensures AskedForWanted(Run(o, START, events))
    decreases |events|
  {
    hide TasksKept, Step;
    if events != [] {
      AskedRun(o, events[..|events| - 1]);
      TasksKeptRun(o, events[..|events| - 1]);
      AskedStep(o, Run(o, START, events[..|events| - 1]), events[|events| - 1]);
    }
  }

  /** The current connection was opened by a call that asked for exactly the subscriptions wanted now. */
  lemma ConnectionServesWanted(o: Options, s: State)
    requires IsReachable(o, s) && s.connection.Some?
    ensures var i := s.connection.value;
      i < |s.calls| && s.calls[i].asked == s.desired != {} && i in s.links && s.links[i].Live?
  {
    hide Run, RetriesOk, CallsOk, TasksOk, FinishOk, ReleaseAlone;
    ReachableKept(o, s);
    var events :| s == Run(o, START, events);
    AskedRun(o, events);
  }

  // ---------------------------------------------------------------- how long each retry waits

  ghost predicate DelaysExact(o: Options, log: seq<Output>) {
    forall p | 0 <= p < |log| && log[p].Armed? :: log[p].delay == Wait(o, ArmedSinceReset(log[..p]))
  }

  lemma DelaysMore(o: Options, log: seq<Output>, x: Output)
    requires DelaysExact(o, log) && (x.Armed? ==> x.delay == Wait(o, ArmedSinceReset(log)))
    ensures DelaysExact(o, log + [x])
  {
    hide Wait, ArmedSinceReset;
    var more := log + [x];
    forall p | 0 <= p < |more| && more[p].Armed?
      ensures more[p].delay == Wait(o, ArmedSinceReset(more[..p]))
    {
      assert more[..p] == log[..p];
      if p == |log| { assert log[..p] == log; }
    }
  }

  lemma DelaysStep(o: Options, s: State, e: Event)
    requires TasksKept(o, s) && DelaysExact(o, s.log)
    ensures DelaysExact(o, Step(o, s, e).log)
  {
    hide DelaysExact, Wait, Step, FinishOk, ReleaseAlone, ArmedSinceReset, HoldingOk, CallsOk, TasksOk;
    SaysHere(o, s, e);
    var says := Says(o, s, e);
    if says == [] {
      assert s.log + says == s.log;
    } else {
      DelaysMore(o, s.log, says[0]);
      Logged(o, s.log, says[0]);
      if |says| == 1 {
        assert says == [says[0]];
      } else {
        DelaysMore(o, s.log + [says[0]], says[1]);
        assert s.log + says == s.log + [says[0]] + [says[1]];
      }
    }
  }

  /**
   * Each armed timer waits for the base doubled once for every timer armed since the last reset, ten times at most,
   * jittered, and within the bounds.
   */
  lemma {:induction false} EveryDelayExact(o: Options, events: seq<Event>)
    ensures var log := Run(o, START, events).log;
      forall p | 0 <= p < |log| && log[p].Armed? :: log[p].delay == Wait(o, ArmedSinceReset(log[..p]))
    decreases |events|
  {
    hide TasksKept, Step, Wait, ArmedSinceReset;
    if events != [] {
      EveryDelayExact(o, events[..|events| - 1]);
      TasksKeptRun(o, events[..|events| - 1]);
      DelaysStep(o, Run(o, START, events[..|events| - 1]), events[|events| - 1]);
    }
  }

  // ---------------------------------------------------------------- connected until interrupted

  function LastTold(log: seq<Output>): Option<Status> {
    if log == [] then None
    else if log[|log| - 1].Told? then Some(log[|log| - 1].status)
    else LastTold(log[..|log| - 1])
  }

  /** A request, a stop, a disconnect or a failure. */
  predicate Interrupts(e: Event) {
    e.Subscribe? || e.StopRequested? || e.ProviderDisconnected? || Broken(e)
  }

  ghost predicate Uninterrupted(events: seq<Event>) {
    forall k | 0 <= k < |events| :: !Interrupts(events[k])
  }

  /** Subscriptions are wanted, a call of the present generation stands for them, and the observer knows. */
  predicate KnownConnected(o: Options, s: State) {
    TasksKept(o, s) && OneSource(s) && Accounted(s) && Wants(s) && !NoCall(s) && LastTold(s.log) == Some(Connected)
  }

  lemma ToldConnected(log: seq<Output>)
    ensures LastTold(log + [Reset, Told(Connected)]) == Some(Connected)
  {
  }

  lemma ConnectsKnown(o: Options, s: State, e: Event)
    requires TasksKept(o, s) && OneSource(s) && Accounted(s) && Connects(s, e)
    ensures KnownConnected(o, Step(o, s, e))
  {
    hide Step, Inv, ReleaseAlone, LinksChange, TasksChange, PhaseAfter, ArmsTimer, OneSource, Accounted, LastTold;
    UnbrokenStep(o, s, e);
    TasksKeptStep(o, s, e);
    ChangesHere(o, s, e);
    SaysHere(o, s, e);
    ToldConnected(s.log);
    var i :| 0 <= i < |s.calls| && s.calls[i].generation == s.generation;
    assert Step(o, s, e).calls[i].generation == s.generation;
  }

  lemma QuietStep(o: Options, s: State, e: Event)
    requires Inv(o, s) && OneSource(s) && Wants(s) && !NoCall(s) && !Interrupts(e)
    ensures Says(o, s, e) == (if Connects(s, e) then [Reset, Told(Connected)] else [])
  {
    hide RetriesOk, HoldingOk, CallsOk;
  }

  lemma KnownStep(o: Options, s: State, e: Event)
    requires KnownConnected(o, s) && !Interrupts(e)
    ensures KnownConnected(o, Step(o, s, e))
  {
    if Connects(s, e) {
      hide TasksKept, OneSource, Accounted, Connects, Step;
      ConnectsKnown(o, s, e);
    } else {
      hide Step, Inv, FinishOk, ReleaseAlone, LinksChange, TasksChange, PhaseAfter, ArmsTimer, OneSource, Accounted,
        LastTold;
      QuietStep(o, s, e);
      UnbrokenStep(o, s, e);
      TasksKeptStep(o, s, e);
      ChangesHere(o, s, e);
      SaysHere(o, s, e);
      assert s.log + [] == s.log;
      var i :| 0 <= i < |s.calls| && s.calls[i].generation == s.generation;
      assert Step(o, s, e).calls[i].generation == s.generation;
      WantsStill(o, s, e);
    }
  }

  lemma WantsStill(o: Options, s: State, e: Event)
    requires Inv(o, s) && Wants(s) && !Interrupts(e) && FieldsChange(o, s, e, Step(o, s, e))
    ensures Wants(Step(o, s, e)) && Step(o, s, e).generation == s.generation
  {
    hide Step, RetriesOk, HoldingOk, CallsOk;
  }

  lemma {:induction false} KnownRun(o: Options, s: State, events: seq<Event>)
    requires KnownConnected(o, s) && Uninterrupted(events)
    ensures KnownConnected(o, Run(o, s, events))
    decreases |events|
  {
    hide KnownConnected, Step, Interrupts;
    if events != [] {
      KnownRun(o, s, events[..|events| - 1]);
      KnownStep(o, Run(o, s, events[..|events| - 1]), events[|events| - 1]);
    }
  }

  /**
   * While no promise of the provider and no connected callback has failed: once CONNECTED is told, it is the last
   * status told until a request, a stop, a disconnect or a failure.
   */
  lemma ConnectedUntilInterrupted(o: Options, before: seq<Event>, e: Event, events: seq<Event>)
    requires Unbroken(before) && Connects(Run(o, START, before), e) && Uninterrupted(events)
    ensures LastTold(Run(o, Step(o, Run(o, START, before), e), events).log) == Some(Connected)
  {
    hide Step, Run, Connects, TasksKept, OneSource, Accounted, Uninterrupted;
    TasksKeptRun(o, before);
    UnbrokenRun(o, before);
    ConnectsKnown(o, Run(o, START, before), e);
    KnownRun(o, Step(o, Run(o, START, before), e), events);
  }
}
