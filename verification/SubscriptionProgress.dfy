/** Whether the manager keeps trying: exactly which steps leave it wanting subscriptions with nothing under way. */
module SubscriptionProgress {
  import opened Wrappers
  import opened SubscriptionManager
  import opened SubscriptionSafety
  import opened SubscriptionTheorems

  // ---------------------------------------------------------------- wanting, and being under way

  /** Subscriptions are wanted and a retry is left. */
  predicate Wanting(o: Options, s: State) {
    !s.stopped && s.desired != {} && s.reconnectAttempt < o.maximumAttempts
  }

  /** A connect call of this generation that still waits for its provider. */
  predicate Pending(c: Call, generation: nat) {
    c.generation == generation && (c.phase.Opening? || c.phase.Waiting?)
  }

  predicate Calling(s: State) {
    exists i | 0 <= i < |s.calls| :: Pending(s.calls[i], s.generation)
  }

  predicate CallingElsewhere(s: State, i: nat) {
    exists j | 0 <= j < |s.calls| && j != i :: Pending(s.calls[j], s.generation)
  }

  /** A timer, a resubscription or a connect call for the current generation, or a connection. */
  predicate UnderWay(s: State) {
    s.reconnectTimer == Some(s.generation) || !NoResubscription(s) || Calling(s) || s.connection.Some?
  }

  predicate Sound(o: Options, s: State) {
    Wanting(o, s) ==> UnderWay(s)
  }

  // ---------------------------------------------------------------- the steps that stall it

  /** The close of the old connection rejects, so the request for the current generation is never carried out. */
  predicate CloseStalls(o: Options, s: State, e: Event) {
    e.CloseBroken? && e.task in s.tasks && e.task.Resubscribe? && e.task.closing && e.task.generation == s.generation
      && Wanting(o, s)
  }

  /** A current disconnect moves the generation on while a timer pends, whose callback will find its generation past. */
  predicate DisconnectStalls(o: Options, s: State, e: Event) {
    e.ProviderDisconnected? && e.call < |s.calls| && Current(s, s.calls[e.call].generation) && s.reconnectTimer.Some?
      && Wanting(o, s)
  }

  /**
   * The catch of a connect call schedules nothing: its generation is past, or a timer of a past generation pends.
   * It drops whatever connection there is, and nothing else is under way.
   */
  predicate CatchStalls(o: Options, s: State, e: Event) {
    && e.ConnectBroken? && e.call < |s.calls| && !s.calls[e.call].phase.Settled? && Wanting(o, s)
    && (Current(s, s.calls[e.call].generation) ==> s.reconnectTimer.Some?)
    && s.reconnectTimer != Some(s.generation) && NoResubscription(s) && !CallingElsewhere(s, e.call)
  }

  /** A connection becomes ready after a catch has dropped it. */
  predicate ReadyStalls(o: Options, s: State, e: Event) {
    && e.ConnectionReady? && e.call < |s.calls| && s.calls[e.call].phase.Waiting?
      && s.calls[e.call].generation == s.generation && Wanting(o, s)
    && s.connection.None? && s.reconnectTimer != Some(s.generation) && !CallingElsewhere(s, e.call)
  }

  /**
   * The connected callback succeeds after the last retry has failed, and sets the retry count back with nothing under
   * way.
   */
  predicate CallbackStalls(o: Options, s: State, e: Event) {
    && e.Kept? && e.task in s.tasks && e.task.Finish? && Current(s, e.task.generation) && !UnderWay(s)
      && o.maximumAttempts > 0
  }

  predicate Stalls(o: Options, s: State, e: Event) {
    CloseStalls(o, s, e) || DisconnectStalls(o, s, e) || CatchStalls(o, s, e) || ReadyStalls(o, s, e)
      || CallbackStalls(o, s, e)
  }

  // ---------------------------------------------------------------- continuations of the current generation

  /**
   * What is under way for the current generation: a connected callback belongs to a call, a resubscription to the
   * wanted set.
   */
  predicate FinishOk(s: State) {
    && (forall t | t in s.tasks && t.Finish? && t.generation == s.generation :: !NoCall(s))
    && (forall t | t in s.tasks && t.Resubscribe? && t.generation == s.generation && !s.stopped :: t.next == s.desired)
  }

  predicate CallsKept(s: State, r: State) {
    |s.calls| <= |r.calls| && forall i | 0 <= i < |s.calls| :: r.calls[i].generation == s.calls[i].generation
  }

  predicate Answers(e: Event) {
    e.ConnectionOpened? || e.ConnectionReady? || e.ConnectBroken? || e.ProviderConnected?
  }

  lemma AnswerKeepsCalls(o: Options, s: State, e: Event)
    requires Answers(e)
    ensures CallsKept(s, Step(o, s, e))
  {
    hide Delay, Current, ReleaseConnection;
    if e.call < |s.calls| { assert CallsKept(s, SetPhase(s, e.call, Settled)); }
  }

  lemma OtherKeepsCalls(o: Options, s: State, e: Event)
    requires !Answers(e)
    ensures CallsKept(s, Step(o, s, e))
  {
    hide Delay;
  }

  lemma FinishStep(o: Options, s: State, e: Event)
    requires Inv(o, s) && FinishOk(s)
    ensures FinishOk(Step(o, s, e))
  {
    if Answers(e) { AnswerKeepsCalls(o, s, e); } else { OtherKeepsCalls(o, s, e); }
    FinishTasks(o, s, e);
    ResubscribeTasks(o, s, e);
    hide Step, RetriesOk, HoldingOk;
    var r := Step(o, s, e);
    forall t | t in r.tasks && t.Finish? && t.generation == r.generation
      ensures !NoCall(r)
    {
      var i :| 0 <= i < |s.calls| && s.calls[i].generation == t.generation;
      assert r.calls[i].generation == r.generation;
    }
  }

  lemma FinishTasks(o: Options, s: State, e: Event)
    requires Inv(o, s) && FinishOk(s)
    ensures forall t | t in Step(o, s, e).tasks && t.Finish? && t.generation == Step(o, s, e).generation ::
      exists i :: 0 <= i < |s.calls| && s.calls[i].generation == t.generation
  {
    hide Step, Inv, FinishOk;
    if e.ConnectionOpened? || e.ConnectionReady? || e.ProviderConnected? {
      FinishTasksProvider(o, s, e);
    } else if e.Kept? || e.CloseBroken? {
      FinishTasksKept(o, s, e);
    } else {
      FinishTasksRest(o, s, e);
    }
  }

  lemma FinishTasksProvider(o: Options, s: State, e: Event)
    requires Inv(o, s) && FinishOk(s) && (e.ConnectionOpened? || e.ConnectionReady? || e.ProviderConnected?)
    ensures forall t | t in Step(o, s, e).tasks && t.Finish? && t.generation == Step(o, s, e).generation ::
      exists i :: 0 <= i < |s.calls| && s.calls[i].generation == t.generation
  {
    hide Delay, RetriesOk, HoldingOk;
  }

  lemma FinishTasksKept(o: Options, s: State, e: Event)
    requires Inv(o, s) && FinishOk(s) && (e.Kept? || e.CloseBroken?)
    ensures forall t | t in Step(o, s, e).tasks && t.Finish? && t.generation == Step(o, s, e).generation ::
      exists i :: 0 <= i < |s.calls| && s.calls[i].generation == t.generation
  {
    hide Delay, RetriesOk, HoldingOk;
  }

  lemma FinishTasksRest(o: Options, s: State, e: Event)
    requires Inv(o, s) && FinishOk(s)
      && (!e.ConnectionOpened? && !e.ConnectionReady? && !e.ProviderConnected? && !e.Kept? && !e.CloseBroken?)
    ensures forall t | t in Step(o, s, e).tasks && t.Finish? && t.generation == Step(o, s, e).generation ::
      exists i :: 0 <= i < |s.calls| && s.calls[i].generation == t.generation
  {
    hide Delay, RetriesOk, HoldingOk;
  }

  lemma ResubscribeTasks(o: Options, s: State, e: Event)
    requires Inv(o, s) && FinishOk(s)
    ensures var r := Step(o, s, e);
      forall t | t in r.tasks && t.Resubscribe? && t.generation == r.generation && !r.stopped :: t.next == r.desired
  {
    hide Step, Inv, FinishOk;
    if e.ConnectionOpened? || e.ConnectionReady? || e.ProviderConnected? {
      ResubscribeTasksProvider(o, s, e);
    } else if e.Kept? || e.CloseBroken? {
      ResubscribeTasksKept(o, s, e);
    } else if e.Subscribe? || e.StopRequested? {
      ResubscribeTasksRequest(o, s, e);
    } else {
      ResubscribeTasksRest(o, s, e);
    }
  }

  lemma ResubscribeTasksProvider(o: Options, s: State, e: Event)
    requires Inv(o, s) && FinishOk(s) && (e.ConnectionOpened? || e.ConnectionReady? || e.ProviderConnected?)
    ensures var r := Step(o, s, e);
      forall t | t in r.tasks && t.Resubscribe? && t.generation == r.generation && !r.stopped :: t.next == r.desired
  {
    hide Delay, RetriesOk, HoldingOk;
  }

  lemma ResubscribeTasksKept(o: Options, s: State, e: Event)
    requires Inv(o, s) && FinishOk(s) && (e.Kept? || e.CloseBroken?)
    ensures var r := Step(o, s, e);
      forall t | t in r.tasks && t.Resubscribe? && t.generation == r.generation && !r.stopped :: t.next == r.desired
  {
    hide Delay, RetriesOk, HoldingOk;
  }

  lemma ResubscribeTasksRequest(o: Options, s: State, e: Event)
    requires FinishOk(s) && Inv(o, s) && (e.Subscribe? || e.StopRequested?)
    ensures var r := Step(o, s, e);
      forall t | t in r.tasks && t.Resubscribe? && t.generation == r.generation && !r.stopped :: t.next == r.desired
  {
    hide RetriesOk, HoldingOk, CallsOk;
  }

  lemma ResubscribeTasksRest(o: Options, s: State, e: Event)
    requires Inv(o, s) && FinishOk(s)
      && (e.OnConnectedBroken? || e.ConnectBroken? || e.ProviderDisconnected? || e.TimerFired?)
    ensures var r := Step(o, s, e);
      forall t | t in r.tasks && t.Resubscribe? && t.generation == r.generation && !r.stopped :: t.next == r.desired
  {
    hide Delay, RetriesOk, HoldingOk, CallsOk;
  }


  /** A resubscription waiting for the old connection to close is the only thing of its generation. */
  predicate ReleaseAlone(s: State) {
    && (!NoResubscription(s) ==> NoCall(s) && s.reconnectTimer.None? && s.connection.None?)
    && (forall t | t in s.tasks && t.Resubscribe? && t.generation == s.generation :: s.tasks[t] == 1)
    && (forall t, u | t in s.tasks && u in s.tasks && t.Resubscribe? && u.Resubscribe?
      && t.generation == s.generation == u.generation :: t == u)
  }

  ghost predicate SameResubscriptions(s: State, r: State) {
    forall t: Task | t.Resubscribe? :: s.tasks[t] == r.tasks[t]
  }

  lemma AloneKept(s: State, r: State)
    requires ReleaseAlone(s) && SameResubscriptions(s, r) && r.generation == s.generation
    requires NoCall(s) ==> NoCall(r)
    requires NoCall(s) && s.reconnectTimer.None? && s.connection.None? ==> r.reconnectTimer.None? && r.connection.None?
    ensures ReleaseAlone(r)
  {
    assert forall t: Task | t.Resubscribe? :: t in s.tasks <==> t in r.tasks;
  }

  /** Nothing waits for a generation that has only just begun. */
  lemma AloneAtFirst(o: Options, s: State, r: State)
    requires Inv(o, s) && SameResubscriptions(s, r) && r.generation == s.generation + 1
    ensures ReleaseAlone(r)
  {
    hide RetriesOk, HoldingOk, CallsOk;
    assert forall t: Task | t.Resubscribe? :: t in s.tasks <==> t in r.tasks;
  }

  lemma AnswerKeepsAlone(o: Options, s: State, e: Event)
    requires Inv(o, s) && ReleaseAlone(s) && Answers(e)
    ensures ReleaseAlone(Step(o, s, e))
  {
    hide RetriesOk, Delay, ReleaseAlone, HoldingOk, CallsOk, TasksOk;
    AloneKept(s, Step(o, s, e));
  }

  lemma DisconnectKeepsAlone(o: Options, s: State, e: Event)
    requires Inv(o, s) && ReleaseAlone(s) && e.ProviderDisconnected?
    ensures ReleaseAlone(Step(o, s, e))
  {
    hide RetriesOk, Delay, ReleaseAlone, HoldingOk, CallsOk, TasksOk;
    var r := Step(o, s, e);
    if r.generation == s.generation { AloneKept(s, r); } else { AloneAtFirst(o, s, r); }
  }

  lemma TimerKeepsAlone(o: Options, s: State, e: Event)
    requires Inv(o, s) && ReleaseAlone(s) && e.TimerFired?
    ensures ReleaseAlone(Step(o, s, e))
  {
    hide RetriesOk, CallsOk, TasksOk;
  }

  lemma CallbackKeepsAlone(o: Options, s: State, e: Event)
    requires Inv(o, s) && FinishOk(s) && ReleaseAlone(s) && e.OnConnectedBroken?
    ensures ReleaseAlone(Step(o, s, e))
  {
    hide RetriesOk, Delay, ReleaseAlone, CallsOk, TasksOk;
    if Finish(e.generation) in s.tasks { AloneKept(s, Step(o, s, e)); }
  }

  lemma RequestKeepsAlone(o: Options, s: State, e: Event)
    requires Inv(o, s) && ReleaseAlone(s) && (e.Subscribe? || e.StopRequested?)
    ensures ReleaseAlone(Step(o, s, e))
  {
    hide RetriesOk, Delay;
  }

  lemma TaskKeepsAlone(s: State, task: Task)
    requires ReleaseAlone(s) && task in s.tasks
    ensures var t := s.(tasks := s.tasks - multiset{task});
      ReleaseAlone(t) && (task.Resubscribe? && task.generation == s.generation ==> NoResubscription(t))
  {
  }

  lemma ContinueKeepsAlone(o: Options, s: State, e: Event)
    requires ReleaseAlone(s) && (e.Kept? || e.CloseBroken?)
    ensures ReleaseAlone(Step(o, s, e))
  {
    hide ReleaseAlone, NoResubscription, NoCall;
    if e.task in s.tasks {
      var t := s.(tasks := s.tasks - multiset{e.task});
      TaskKeepsAlone(s, e.task);
      if e.Kept? {
        if e.task.Resubscribe? && e.task.generation == s.generation {
          SameTasksWithout(t, Step(o, s, e));
          AloneWithout(Step(o, s, e));
        } else {
          SameSourcesAlone(t, Step(o, s, e));
        }
      }
    }
  }

  lemma SameTasksWithout(s: State, r: State)
    requires r.tasks == s.tasks && r.generation == s.generation && NoResubscription(s)
    ensures NoResubscription(r)
  {
  }

  lemma SameSourcesAlone(s: State, r: State)
    requires ReleaseAlone(s) && r == s.(desired := r.desired, log := r.log, reconnectAttempt := r.reconnectAttempt)
    ensures ReleaseAlone(r)
  {
  }

  lemma AloneWithout(s: State)
    requires NoResubscription(s)
    ensures ReleaseAlone(s)
  {
  }

  /** What every run keeps of the continuations. */
  predicate TasksKept(o: Options, s: State) {
    Inv(o, s) && FinishOk(s) && ReleaseAlone(s)
  }

  lemma TasksKeptStep(o: Options, s: State, e: Event)
    requires TasksKept(o, s)
    ensures TasksKept(o, Step(o, s, e))
  {
    StepInv(o, s, e);
    FinishStep(o, s, e);
    hide Inv, FinishOk, ReleaseAlone, Step;
    match e
    case Subscribe(_) => RequestKeepsAlone(o, s, e);
    case StopRequested => RequestKeepsAlone(o, s, e);
    case Kept(_) => ContinueKeepsAlone(o, s, e);
    case CloseBroken(_) => ContinueKeepsAlone(o, s, e);
    case OnConnectedBroken(_) => CallbackKeepsAlone(o, s, e);
    case ProviderDisconnected(_) => DisconnectKeepsAlone(o, s, e);
    case TimerFired => TimerKeepsAlone(o, s, e);
    case _ => AnswerKeepsAlone(o, s, e);
  }

  lemma {:induction false} TasksKeptRun(o: Options, events: seq<Event>)
    ensures TasksKept(o, Run(o, START, events))
    decreases |events|
  {
    hide TasksKept, Step;
    if events == [] {
      StartKept(o);
    } else {
      TasksKeptRun(o, events[..|events| - 1]);
      TasksKeptStep(o, Run(o, START, events[..|events| - 1]), events[|events| - 1]);
    }
  }

  lemma StartKept(o: Options)
    ensures TasksKept(o, START)
  {
  }

  // ---------------------------------------------------------------- exactly the stalling steps

  /** What the step leaves the manager with. */
  predicate Stalled(o: Options, s: State) {
    Wanting(o, s) && !UnderWay(s)
  }

  lemma RequestNeverStalls(o: Options, s: State, e: Event)
    requires TasksKept(o, s) && Sound(o, s) && (e.Subscribe? || e.StopRequested? || e.TimerFired?)
    ensures !Stalled(o, Step(o, s, e)) && !Stalls(o, s, e)
  {
    hide RetriesOk, Delay, CallsOk, FinishOk, ReleaseAlone;
    var r := Step(o, s, e);
    if e.Subscribe? && r != s { assert Resubscribe(r.generation, e.next, s.connection.Some?) in r.tasks; }
    if |r.calls| > |s.calls| { assert Pending(r.calls[|s.calls|], r.generation); }
  }

  /** Everything that is under way in one state is under way in the other. */
  lemma SameUnderWay(s: State, r: State)
    requires r.generation == s.generation && r.reconnectTimer == s.reconnectTimer && r.connection == s.connection
    requires Calling(s) <==> Calling(r)
    requires NoResubscription(s) <==> NoResubscription(r)
    ensures UnderWay(s) <==> UnderWay(r)
  {
  }

  lemma TaskDoneUnderWay(s: State, task: Task)
    requires task in s.tasks && !(task.Resubscribe? && task.generation == s.generation)
    ensures UnderWay(s.(tasks := s.tasks - multiset{task})) <==> UnderWay(s)
  {
    var t := s.(tasks := s.tasks - multiset{task});
    assert forall u | u in s.tasks && u != task :: u in t.tasks;
    SameUnderWay(s, t);
  }

  lemma KeptStallsExactly(o: Options, s: State, e: Event)
    requires TasksKept(o, s) && Sound(o, s) && e.Kept?
    ensures Stalled(o, Step(o, s, e)) <==> Stalls(o, s, e)
  {
    hide RetriesOk, CallsOk, HoldingOk, ReleaseAlone, UnderWay, Connect;
    if e.task in s.tasks {
      var t := s.(tasks := s.tasks - multiset{e.task});
      match e.task
      case Resubscribe(g, next, _) =>
        if g != s.generation {
          TaskDoneUnderWay(s, e.task);
        } else if !s.stopped {
          assert next == s.desired;
          ConnectUnderWay(t.(reconnectAttempt := 0, log := t.log + [Reset]));
        }
      case Finish(g) =>
        TaskDoneUnderWay(s, e.task);
        SameUnderWay(t, Step(o, s, e));
      case ReportStop(_) =>
        assert s.stopped by { StoppedIdle(o, s, e.task); }
    }
  }

  lemma ConnectUnderWay(s: State)
    ensures Current(s, s.generation) ==> UnderWay(Connect(s, s.generation))
  {
    var r := Connect(s, s.generation);
    if Current(s, s.generation) { assert Pending(r.calls[|s.calls|], r.generation); }
  }

  lemma CloseStallsExactly(o: Options, s: State, e: Event)
    requires TasksKept(o, s) && Sound(o, s) && e.CloseBroken?
    ensures Stalled(o, Step(o, s, e)) <==> Stalls(o, s, e)
  {
    hide RetriesOk, CallsOk, HoldingOk;
    if e.task in s.tasks && !e.task.Finish? && e.task.closing {
      var t := s.(tasks := s.tasks - multiset{e.task});
      assert forall u | u in s.tasks && u != e.task :: u in t.tasks;
    }
  }

  lemma CallbackNeverStalls(o: Options, s: State, e: Event)
    requires TasksKept(o, s) && Sound(o, s) && e.OnConnectedBroken?
    ensures !Stalled(o, Step(o, s, e)) && !Stalls(o, s, e)
  {
    hide RetriesOk, CallsOk, Delay, ReleaseAlone, FinishOk;
    var t := s.(tasks := s.tasks - multiset{Finish(e.generation)});
    assert forall u | u in s.tasks && u.Resubscribe? :: u in t.tasks;
  }

  lemma DisconnectStallsExactly(o: Options, s: State, e: Event)
    requires TasksKept(o, s) && Sound(o, s) && e.ProviderDisconnected?
    ensures Stalled(o, Step(o, s, e)) <==> Stalls(o, s, e)
  {
    hide RetriesOk, Delay, ReleaseAlone, FinishOk;
  }

  lemma CatchStallsExactly(o: Options, s: State, e: Event)
    requires TasksKept(o, s) && Sound(o, s) && e.ConnectBroken?
    ensures Stalled(o, Step(o, s, e)) <==> Stalls(o, s, e)
  {
    hide RetriesOk, Delay, FinishOk, CallsOk;
    if e.call < |s.calls| && !s.calls[e.call].phase.Settled? {
      SettledCalls(s, SetPhase(s, e.call, Settled), e.call);
    }
  }

  /** Settling a call leaves the others. */
  lemma SettledCalls(s: State, r: State, i: nat)
    requires i < |s.calls| && r.generation == s.generation && r.calls == s.calls[i := s.calls[i].(phase := Settled)]
    ensures Calling(r) <==> CallingElsewhere(s, i)
  {
    if CallingElsewhere(s, i) {
      var j :| 0 <= j < |s.calls| && j != i && Pending(s.calls[j], s.generation);
      assert Pending(r.calls[j], r.generation);
    }
  }

  lemma ReadyStallsExactly(o: Options, s: State, e: Event)
    requires TasksKept(o, s) && Sound(o, s) && e.ConnectionReady?
    ensures Stalled(o, Step(o, s, e)) <==> Stalls(o, s, e)
  {
    hide RetriesOk, FinishOk, CallsOk, HoldingOk;
    if e.call < |s.calls| && s.calls[e.call].phase.Waiting? {
      var t := SetPhase(s, e.call, Settled);
      SettledCalls(s, t, e.call);
      MarkedUnderWay(t, e.call);
      if s.calls[e.call].generation == s.generation {
        assert Pending(s.calls[e.call], s.generation);
      } else {
        assert Calling(s) ==> CallingElsewhere(s, e.call);
      }
    }
  }

  lemma MarkedUnderWay(s: State, i: nat)
    requires i < |s.calls|
    ensures UnderWay(MarkConnected(s, i)) <==> UnderWay(s)
  {
    var r := MarkConnected(s, i);
    assert Calling(s) <==> Calling(r) by {
      forall j | 0 <= j < |s.calls|
        ensures Pending(s.calls[j], s.generation) <==> Pending(r.calls[j], s.generation)
      {
      }
    }
    assert forall t: Task | t.Resubscribe? :: t in s.tasks <==> t in r.tasks;
    SameUnderWay(s, r);
  }

  lemma OpenNeverStalls(o: Options, s: State, e: Event)
    requires TasksKept(o, s) && Sound(o, s) && (e.ConnectionOpened? || e.ProviderConnected?)
    ensures !Stalled(o, Step(o, s, e)) && !Stalls(o, s, e)
  {
    hide RetriesOk, FinishOk, CallsOk, HoldingOk, ReleaseAlone, Calling;
    if e.ProviderConnected? && e.call < |s.calls| { MarkedUnderWay(s, e.call); }
    if e.ConnectionOpened? && e.call < |s.calls| && s.calls[e.call].phase.Opening?
      && !Current(s, s.calls[e.call].generation) && Wanting(o, s) {
      LateCalls(s, Step(o, s, e), e.call);
      SameUnderWay(s, Step(o, s, e));
    }
  }

  lemma LateCalls(s: State, r: State, i: nat)
    requires i < |s.calls| && s.calls[i].generation != s.generation
    requires r.generation == s.generation && r.calls == s.calls[i := s.calls[i].(phase := LateClose)]
    ensures Calling(r) <==> Calling(s)
  {
    forall j | 0 <= j < |s.calls|
      ensures Pending(s.calls[j], s.generation) <==> Pending(r.calls[j], r.generation)
    {
    }
  }

  lemma StallsHere(o: Options, s: State, e: Event)
    requires TasksKept(o, s) && Sound(o, s)
    ensures Stalled(o, Step(o, s, e)) <==> Stalls(o, s, e)
  {
    hide *;
    match e
    case Subscribe(_) => RequestNeverStalls(o, s, e);
    case StopRequested => RequestNeverStalls(o, s, e);
    case TimerFired => RequestNeverStalls(o, s, e);
    case Kept(_) => KeptStallsExactly(o, s, e);
    case CloseBroken(_) => CloseStallsExactly(o, s, e);
    case OnConnectedBroken(_) => CallbackNeverStalls(o, s, e);
    case ProviderDisconnected(_) => DisconnectStallsExactly(o, s, e);
    case ConnectBroken(_) => CatchStallsExactly(o, s, e);
    case ConnectionReady(_) => ReadyStallsExactly(o, s, e);
    case _ => OpenNeverStalls(o, s, e);
  }

  /**
   * In any reachable state with something under way, or nothing to do, exactly the five kinds of steps above
   * leave the manager wanting subscriptions, with a retry left and nothing under way.
   */
  lemma StallsExactly(o: Options, s: State, e: Event)
    requires IsReachable(o, s) && (Wanting(o, s) ==> UnderWay(s))
    ensures Wanting(o, Step(o, s, e)) && !UnderWay(Step(o, s, e)) <==> Stalls(o, s, e)
  {
    hide Run, Step, Stalls, TasksKept, UnderWay, Wanting;
    var events :| s == Run(o, START, events);
    TasksKeptRun(o, events);
    StallsHere(o, s, e);
  }

  /** The state after the first `k` events. */
  ghost function After(o: Options, events: seq<Event>, k: nat): State
    requires k <= |events|
  {
    Run(o, START, events[..k])
  }

  /**
   * A whole run keeps something under way whenever subscriptions are wanted if and only if none of its steps stalls.
   */
  lemma {:induction false} NeverIdleExactly(o: Options, events: seq<Event>)
    ensures (forall k | 0 <= k <= |events| :: Sound(o, After(o, events, k)))
      <==> (forall k | 0 <= k < |events| :: !Stalls(o, After(o, events, k), events[k]))
  {
    hide Run, Step, Stalls, Sound;
    if forall k | 0 <= k <= |events| :: Sound(o, After(o, events, k)) {
      forall k | 0 <= k < |events|
        ensures !Stalls(o, After(o, events, k), events[k])
      {
        assert Sound(o, After(o, events, k)) && Sound(o, After(o, events, k + 1));
        StepAfter(o, events, k);
      }
    }
    if forall k | 0 <= k < |events| :: !Stalls(o, After(o, events, k), events[k]) {
      SoundSoFar(o, events, |events|);
    }
  }

  lemma StepAfter(o: Options, events: seq<Event>, k: nat)
    requires k < |events| && Sound(o, After(o, events, k))
    ensures Sound(o, After(o, events, k + 1)) <==> !Stalls(o, After(o, events, k), events[k])
  {
    hide Step, Stalls, TasksKept, UnderWay, Wanting;
    assert events[..k + 1][..k] == events[..k];
    TasksKeptRun(o, events[..k]);
    StallsHere(o, After(o, events, k), events[k]);
  }

  lemma EmptyRun(o: Options)
    ensures Run(o, START, []) == START
  {
  }

  lemma {:induction false} SoundSoFar(o: Options, events: seq<Event>, n: nat)
    requires n <= |events| && forall k | 0 <= k < n :: !Stalls(o, After(o, events, k), events[k])
    ensures forall k | 0 <= k <= n :: Sound(o, After(o, events, k))
  {
    hide Step, Stalls, Run;
    if n == 0 {
      assert events[..0] == [];
      EmptyRun(o);
    } else {
      SoundSoFar(o, events, n - 1);
      StepAfter(o, events, n - 1);
    }
  }

  // ---------------------------------------------------------------- runs without failures

  /** No failure at all: also the close of a superseded connection succeeds. */
  predicate Smooth(e: Event) {
    !Broken(e) && !e.CloseBroken?
  }

  /** A call of the current generation that has been answered holds the connection. */
  predicate Answered(s: State) {
    forall i | 0 <= i < |s.calls| && Current(s, s.calls[i].generation) && !s.calls[i].phase.Opening? ::
      s.connection == Some(i)
  }

  lemma AnsweredProvider(o: Options, s: State, e: Event)
    requires Inv(o, s) && OneSource(s) && Answered(s)
      && (e.ConnectionOpened? || e.ConnectionReady? || e.ProviderConnected?)
    ensures Answered(Step(o, s, e))
  {
    hide RetriesOk, HoldingOk, TasksOk;
  }

  lemma AnsweredOther(o: Options, s: State, e: Event)
    requires Inv(o, s) && OneSource(s) && Answered(s) && Smooth(e)
      && !(e.ConnectionOpened? || e.ConnectionReady? || e.ProviderConnected?)
    ensures Answered(Step(o, s, e))
  {
    hide RetriesOk, HoldingOk, TasksOk, Delay;
  }

  /** A connected callback belongs to a call, which is under way itself or has answered. */
  lemma CallbackHasWork(s: State, generation: nat)
    requires FinishOk(s) && Answered(s) && Finish(generation) in s.tasks && Current(s, generation)
    ensures UnderWay(s)
  {
    var i :| 0 <= i < |s.calls| && s.calls[i].generation == s.generation;
    assert Pending(s.calls[i], s.generation) || s.connection == Some(i);
  }

  lemma SmoothNeverStalls(o: Options, s: State, e: Event)
    requires TasksKept(o, s) && OneSource(s) && Answered(s) && Smooth(e)
    ensures !Stalls(o, s, e)
  {
    hide RetriesOk, TasksOk, UnderWay;
    if e.Kept? && e.task in s.tasks && e.task.Finish? && Current(s, e.task.generation) {
      CallbackHasWork(s, e.task.generation);
    }
  }

  lemma {:induction false} SmoothRun(o: Options, events: seq<Event>)
    requires forall k | 0 <= k < |events| :: Smooth(events[k])
    ensures var s := Run(o, START, events);
      TasksKept(o, s) && OneSource(s) && Accounted(s) && Answered(s) && Sound(o, s)
    decreases |events|
  {
    hide Inv, OneSource, Accounted, Answered, Step, FinishOk, ReleaseAlone, Stalls, Wanting, UnderWay;
    TasksKeptRun(o, events);
    if events == [] {
      StartSource();
      StartSound(o);
    } else {
      var before, e := events[..|events| - 1], events[|events| - 1];
      SmoothRun(o, before);
      var s := Run(o, START, before);
      UnbrokenStep(o, s, e);
      if e.ConnectionOpened? || e.ConnectionReady? || e.ProviderConnected? {
        AnsweredProvider(o, s, e);
      } else {
        AnsweredOther(o, s, e);
      }
      SmoothNeverStalls(o, s, e);
      StallsHere(o, s, e);
    }
  }

  lemma StartSound(o: Options)
    ensures Answered(START) && Sound(o, START)
  {
  }

  /** Without failures the manager never sits idle while subscriptions are wanted and retries remain. */
  lemma NeverIdle(o: Options, events: seq<Event>)
    requires forall k | 0 <= k < |events| :: Smooth(events[k])
    ensures var s := Run(o, START, events);
      !s.stopped && s.desired != {} && s.reconnectAttempt < o.maximumAttempts ==> UnderWay(s)
  {
    hide Run, UnderWay;
    SmoothRun(o, events);
  }
}
