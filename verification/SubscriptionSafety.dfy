/** What every interleaving of the subscription manager keeps. */
module SubscriptionSafety {
  import opened Wrappers
  import opened SubscriptionManager

  // ---------------------------------------------------------------- the invariant of every run

  /** How many timers were armed since the retry count was last set back. */
  function ArmedSinceReset(log: seq<Output>): nat {
    if log == [] then 0
    else match log[|log| - 1]
      case Reset => 0
      case Armed(_) => ArmedSinceReset(log[..|log| - 1]) + 1
      case Told(_) => ArmedSinceReset(log[..|log| - 1])
  }

  /** Every armed delay lies between zero and the configured maximum. */
  predicate DelaysBounded(o: Options, log: seq<Output>) {
    forall k | 0 <= k < |log| && log[k].Armed? :: 0 <= log[k].delay && (log[k].delay <= o.maximum || log[k].delay == 0)
  }

  predicate RetriesOk(o: Options, log: seq<Output>, reconnectAttempt: nat) {
    && ArmedSinceReset(log) == reconnectAttempt && (reconnectAttempt <= o.maximumAttempts || reconnectAttempt == 0)
    && DelaysBounded(o, log)
  }

  /** The current connection belongs to the current generation; a timer pends only while subscriptions are wanted. */
  predicate HoldingOk(s: State) {
    && (s.connection.Some? ==>
          && s.connection.value < |s.calls| && Current(s, s.calls[s.connection.value].generation)
          && s.connection.value in s.links && s.links[s.connection.value].Live?)
    && (s.reconnectTimer.Some? ==> s.reconnectTimer.value <= s.generation && !s.stopped && s.desired != {})
  }

  predicate CallsOk(calls: seq<Call>, links: map<nat, Link>, generation: nat) {
    && (forall i | 0 <= i < |calls| :: calls[i].generation <= generation)
    && (forall i | i in links :: i < |calls| && !calls[i].phase.Opening?)
  }

  /** How many reports of a stop are still to come. */
  function StopReports(tasks: multiset<Task>): nat {
    tasks[ReportStop(true)] + tasks[ReportStop(false)]
  }

  predicate TasksOk(tasks: multiset<Task>, generation: nat, stopped: bool) {
    && (forall t | t in tasks :: t.ReportStop? || t.generation <= generation)
    && StopReports(tasks) <= (if stopped then 1 else 0)
  }

  predicate Inv(o: Options, s: State) {
    && RetriesOk(o, s.log, s.reconnectAttempt) && HoldingOk(s)
    && CallsOk(s.calls, s.links, s.generation) && TasksOk(s.tasks, s.generation, s.stopped)
  }

  lemma StartInv(o: Options)
    ensures Inv(o, START)
  {
  }

  lemma Logged(o: Options, log: seq<Output>, x: Output)
    ensures ArmedSinceReset(log + [x]) == (if x.Reset? then 0 else ArmedSinceReset(log) + if x.Armed? then 1 else 0)
    ensures DelaysBounded(o, log) && (x.Armed? ==> 0 <= x.delay && (x.delay <= o.maximum || x.delay == 0)) ==>
      DelaysBounded(o, log + [x])
  {
    assert (log + [x])[..|log|] == log;
  }

  lemma TellInv(o: Options, s: State, status: Status)
    requires Inv(o, s)
    ensures Inv(o, Tell(s, status))
  {
    Logged(o, s.log, Told(status));
    hide ArmedSinceReset, DelaysBounded;
  }

  lemma ResetInv(o: Options, s: State)
    requires Inv(o, s)
    ensures Inv(o, s.(reconnectAttempt := 0, log := s.log + [Reset]))
  {
    Logged(o, s.log, Reset);
    hide ArmedSinceReset, DelaysBounded;
  }

  lemma ScheduleInv(o: Options, s: State, generation: nat)
    requires Inv(o, s)
    ensures Inv(o, ScheduleReconnect(o, s, generation))
  {
    TellInv(o, s, Disconnected);
    Logged(o, s.log, Armed(Delay(o, s.reconnectAttempt)));
    hide ArmedSinceReset, DelaysBounded, Delay;
  }

  lemma ConnectInv(o: Options, s: State, generation: nat)
    requires Inv(o, s)
    ensures Inv(o, Connect(s, generation))
  {
    TellInv(o, s, Reconnecting);
    hide RetriesOk;
  }

  lemma SubscribeInv(o: Options, s: State, next: set<Subscription>)
    requires Inv(o, s)
    ensures Inv(o, SetSubscriptions(s, next))
  {
    hide ArmedSinceReset, DelaysBounded;
  }

  lemma StopInv(o: Options, s: State)
    requires Inv(o, s)
    ensures Inv(o, Stop(s))
  {
    hide ArmedSinceReset, DelaysBounded;
  }

  lemma ContinueInv(o: Options, s: State, task: Task)
    requires Inv(o, s) && task in s.tasks
    ensures Inv(o, Continue(s.(tasks := s.tasks - multiset{task}), task))
  {
    var t := s.(tasks := s.tasks - multiset{task});
    TaskDoneInv(o, s, task);
    match task
    case Resubscribe(generation, next, _) =>
      ResetInv(o, t);
      var u := t.(reconnectAttempt := 0, log := t.log + [Reset]);
      TellInv(o, u, Disconnected);
      ConnectInv(o, u, generation);
      hide Inv;
    case ReportStop(_) =>
      StoppedIdle(o, s, task);
      StopReported(o, t);
    case Finish(_) =>
      ResetInv(o, t);
      TellInv(o, t.(reconnectAttempt := 0, log := t.log + [Reset]), Connected);
      hide Inv;
  }

  lemma TaskDoneInv(o: Options, s: State, task: Task)
    requires Inv(o, s) && task in s.tasks
    ensures Inv(o, s.(tasks := s.tasks - multiset{task}))
  {
    hide RetriesOk, CallsOk;
  }

  lemma StoppedIdle(o: Options, s: State, task: Task)
    requires Inv(o, s) && task in s.tasks && task.ReportStop?
    ensures s.stopped
  {
  }

  lemma StopReported(o: Options, s: State)
    requires Inv(o, s) && s.stopped
    ensures Inv(o, AfterStop(s))
  {
    TellInv(o, s, Disconnected);
    hide RetriesOk;
  }

  lemma MarkInv(o: Options, s: State, i: nat)
    requires Inv(o, s) && i < |s.calls|
    ensures Inv(o, MarkConnected(s, i))
  {
    hide RetriesOk;
  }

  lemma PhaseInv(o: Options, s: State, i: nat, phase: Phase)
    requires Inv(o, s) && i < |s.calls| && !phase.Opening?
    ensures Inv(o, SetPhase(s, i, phase))
  {
    hide RetriesOk;
  }

  lemma OpenedInv(o: Options, s: State, i: nat, hasReady: bool)
    requires Inv(o, s) && i < |s.calls| && s.calls[i].phase.Opening?
    ensures Inv(o, Opened(s, i, hasReady))
  {
    hide RetriesOk;
    if !Current(s, s.calls[i].generation) {
      PhaseInv(o, s, i, LateClose);
    } else {
      var t :=
        SetPhase(s, i, if !s.calls[i].readiness
        && hasReady then Waiting else Settled).(connection := Some(i), links := s.links[i := Live]);
      assert Inv(o, t);
      MarkInv(o, t, i);
    }
  }

  lemma FailedInv(o: Options, s: State, i: nat)
    requires Inv(o, s) && i < |s.calls|
    ensures Inv(o, ConnectFailed(o, s, i))
  {
    hide RetriesOk, ScheduleReconnect;
    PhaseInv(o, s, i, Settled);
    var t := SetPhase(s, i, Settled).(connection := None);
    assert Inv(o, t);
    TellInv(o, t, Disconnected);
    ScheduleInv(o, Tell(t, Disconnected), s.calls[i].generation);
  }

  lemma CallbackFailedInv(o: Options, s: State, generation: nat)
    requires Inv(o, s)
    ensures Inv(o, AfterConnectedFailed(o, s, generation))
  {
    hide Inv, ScheduleReconnect;
    TellInv(o, s, Reconnecting);
    ScheduleInv(o, Tell(s, Reconnecting), generation);
  }

  lemma DisconnectInv(o: Options, s: State, i: nat)
    requires Inv(o, s) && i < |s.calls|
    ensures Inv(o, Step(o, s, ProviderDisconnected(i)))
  {
    hide RetriesOk, ScheduleReconnect;
    var dropped := if i in s.links && s.links[i].Live? then s.(links := s.links[i := Dropped]) else s;
    if Current(s, s.calls[i].generation) {
      var t := dropped.(generation := s.generation + 1, connection := None);
      assert Inv(o, t);
      TellInv(o, t, Reconnecting);
      ScheduleInv(o, Tell(t, Reconnecting), s.generation + 1);
    }
  }

  lemma StepInv(o: Options, s: State, e: Event)
    requires Inv(o, s)
    ensures Inv(o, Step(o, s, e))
  {
    hide Inv, SetSubscriptions, Stop, Continue, AfterConnectedFailed, Opened, MarkConnected, ConnectFailed,
      HandleDisconnect, Connect, SetPhase;
    match e
    case Subscribe(next) => SubscribeInv(o, s, next);
    case StopRequested => StopInv(o, s);
    case Kept(task) => if task in s.tasks { ContinueInv(o, s, task); }
    case CloseBroken(task) => if task in s.tasks { TaskDoneInv(o, s, task); }
    case OnConnectedBroken(g) =>
      if Finish(g) in s.tasks {
        TaskDoneInv(o, s, Finish(g));
        CallbackFailedInv(o, s.(tasks := s.tasks - multiset{Finish(g)}), g);
      }
    case ConnectionOpened(i, hasReady) =>
      if i < |s.calls| && s.calls[i].phase.Opening? {
        OpenedInv(o, s, i, hasReady);
      }
    case ConnectionReady(i) =>
      if i < |s.calls| {
        PhaseInv(o, s, i, Settled);
        MarkAfter(o, s, i);
      }
    case ConnectBroken(i) => if i < |s.calls| { FailedInv(o, s, i); }
    case ProviderConnected(i) => if i < |s.calls| { MarkInv(o, s, i); }
    case ProviderDisconnected(i) => if i < |s.calls| { DisconnectInv(o, s, i); }
    case TimerFired =>
      if s.reconnectTimer.Some? {
        TimerSpent(o, s);
        ConnectInv(o, s.(reconnectTimer := None), s.reconnectTimer.value);
      }
  }

  lemma MarkAfter(o: Options, s: State, i: nat)
    requires i < |s.calls| && Inv(o, SetPhase(s, i, Settled))
    ensures Inv(o, MarkConnected(SetPhase(s, i, Settled), i))
  {
    MarkInv(o, SetPhase(s, i, Settled), i);
  }

  lemma TimerSpent(o: Options, s: State)
    requires Inv(o, s)
    ensures Inv(o, s.(reconnectTimer := None))
  {
    hide RetriesOk, CallsOk;
  }
}
