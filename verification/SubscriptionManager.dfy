/**
 * The market-data subscription manager, cut at its awaits: each function is one segment that runs without interruption.
 * What the outside world holds for it (connect calls under way, provider links, continuations, what it told its
 * observer) is part of the state.
 */
module SubscriptionManager {
  import opened Wrappers

  type Subscription = int

  datatype Status = Connected | Reconnecting | Disconnected

  /** What the manager does in sight of others: a status told, a timer armed, the retry count set back to zero. */
  datatype Output = Told(status: Status) | Armed(delay: int) | Reset

  /** Where one call of the connect routine stands. */
  datatype Phase = Opening | Waiting | LateClose | Settled

  /**
   * `asked` is what the provider is asked to send; `readiness` is the promise the call keeps once it has been marked
   * connected.
   */
  datatype Call = Call(generation: nat, asked: set<Subscription>, readiness: bool, phase: Phase)

  /** The provider's side of the connection that a call opened. */
  datatype Link = Live | Dropped | Closed

  /** Continuations waiting for a promise; `closing` says whether there is an old connection whose close is awaited. */
  datatype Task =
    | Resubscribe(generation: nat, next: set<Subscription>, closing: bool)
    | ReportStop(closing: bool)
    | Finish(generation: nat)

  /** A connection is named by the call that opened it, a pending timer by the generation its callback will connect. */
  datatype State = State(
    desired: set<Subscription>, connection: Option<nat>, reconnectTimer: Option<nat>, generation: nat,
      reconnectAttempt: nat, stopped: bool,
    calls: seq<Call>, links: map<nat, Link>, tasks: multiset<Task>, log: seq<Output>)

  datatype Options = Options(base: int, maximum: int, maximumAttempts: int, jitter: (int, int) -> int)

  const START: State := State({}, None, None, 0, 0, false, [], map[], multiset{}, [])

  // ---------------------------------------------------------------- segments

  function Tell(s: State, status: Status): State {
    s.(log := s.log + [Told(status)])
  }

  predicate Current(s: State, generation: nat) {
    generation == s.generation && !s.stopped && s.desired != {}
  }

  function SetPhase(s: State, i: nat, phase: Phase): State
    requires i < |s.calls|
  {
    s.(calls := s.calls[i := s.calls[i].(phase := phase)])
  }

  /** Gives up the current connection, whose close begins at once. */
  function ReleaseConnection(s: State): State {
    if s.connection.Some? then s.(connection := None, links := s.links[s.connection.value := Closed]) else s
  }

  function SetSubscriptions(s: State, next: set<Subscription>): State {
    if s.stopped then s
    else if next == s.desired && (next == {} || s.connection.Some? || s.reconnectTimer.Some?) then s
    else ReleaseConnection(s.(desired := next, generation := s.generation + 1, reconnectTimer := None))
           .(tasks := s.tasks + multiset{Resubscribe(s.generation + 1, next, s.connection.Some?)})
  }

  function AfterRelease(s: State, generation: nat, next: set<Subscription>): State {
    if generation != s.generation || s.stopped then s
    else
      var t := s.(reconnectAttempt := 0, log := s.log + [Reset]);
      if next == {} then Tell(t, Disconnected) else Connect(t, generation)
  }

  function Stop(s: State): State {
    if s.stopped then s
    else ReleaseConnection(s.(stopped := true, generation := s.generation + 1, reconnectTimer := None)).(tasks :=
      s.tasks + multiset{ReportStop(s.connection.Some?)})
  }

  function AfterStop(s: State): State {
    Tell(s.(desired := {}), Disconnected)
  }

  function Connect(s: State, generation: nat): State {
    if !Current(s, generation) then s
    else Tell(s, Reconnecting).(calls := s.calls + [Call(generation, s.desired, false, Opening)])
  }

  /** The provider hands over the connection of call `i`, which may or may not offer a promise of being ready. */
  function Opened(s: State, i: nat, hasReady: bool): State
    requires i < |s.calls|
  {
    if !Current(s, s.calls[i].generation) then SetPhase(s, i, LateClose).(links := s.links[i := Closed])
    else
      var t := s.(connection := Some(i), links := s.links[i := Live]);
      if !s.calls[i].readiness && hasReady then SetPhase(t, i, Waiting) else MarkConnected(SetPhase(t, i, Settled), i)
  }

  function MarkConnected(s: State, i: nat): State
    requires i < |s.calls|
  {
    if s.calls[i].readiness || s.calls[i].generation != s.generation || s.stopped then s
    else
      var t := s.(calls := s.calls[i := s.calls[i].(readiness := true)]);
      if s.desired == {} then t else t.(tasks := t.tasks + multiset{Finish(s.calls[i].generation)})
  }

  function AfterConnected(s: State, generation: nat): State {
    if !Current(s, generation) then s
    else Tell(s.(reconnectAttempt := 0, log := s.log + [Reset]), Connected)
  }

  function AfterConnectedFailed(o: Options, s: State, generation: nat): State {
    if !Current(s, generation) then s else ScheduleReconnect(o, Tell(s, Reconnecting), generation)
  }

  /** The catch of the connect routine, reached from a failed open, a failed ready promise or a failed late close. */
  function ConnectFailed(o: Options, s: State, i: nat): State
    requires i < |s.calls|
  {
    var t := SetPhase(s, i, Settled).(connection := None);
    if !Current(s, s.calls[i].generation) then t
    else ScheduleReconnect(o, Tell(t, Disconnected), s.calls[i].generation)
  }

  function HandleDisconnect(o: Options, s: State, generation: nat): State {
    if !Current(s, generation) then s
    else ScheduleReconnect(o, Tell(s.(generation := s.generation + 1, connection := None), Reconnecting),
      s.generation + 1)
  }

  function PowerOfTwo(n: nat): int {
    if n == 0 then 1 else 2 * PowerOfTwo(n - 1)
  }

  function Min(a: int, b: int): int {
    if a < b then a else b
  }

  function Delay(o: Options, reconnectAttempt: nat): (d: int)
    ensures 0 <= d && (d <= o.maximum || d == 0)
  {
    var baseDelay := Min(o.maximum, o.base * PowerOfTwo(Min(reconnectAttempt, 10)));
    var delay := Min(o.maximum, o.jitter(baseDelay, reconnectAttempt + 1));
    if delay < 0 then 0 else delay
  }

  function ScheduleReconnect(o: Options, s: State, generation: nat): State {
    if s.reconnectTimer.Some? || !Current(s, generation) then s
    else if s.reconnectAttempt >= o.maximumAttempts then Tell(s, Disconnected)
    else s.(reconnectAttempt := s.reconnectAttempt + 1, reconnectTimer := Some(generation),
      log := s.log + [Armed(Delay(o, s.reconnectAttempt))])
  }

  // ---------------------------------------------------------------- every interleaving

  /** What may happen next. A promise that is kept runs its continuation; one that is broken may not. */
  datatype Event =
    | Subscribe(next: set<Subscription>)
    | StopRequested
    | Kept(task: Task)
    | CloseBroken(task: Task)
    | OnConnectedBroken(generation: nat)
    | ConnectionOpened(call: nat, hasReady: bool)
    | ConnectionReady(call: nat)
    | ConnectBroken(call: nat)
    | ProviderConnected(call: nat)
    | ProviderDisconnected(call: nat)
    | TimerFired

  /** Failures of the provider's connect, ready and close promises, and of the connected callback. */
  predicate Broken(e: Event) {
    e.ConnectBroken? || e.OnConnectedBroken?
  }

  function Continue(s: State, task: Task): State {
    match task
    case Resubscribe(generation, next, _) => AfterRelease(s, generation, next)
    case ReportStop(_) => AfterStop(s)
    case Finish(generation) => AfterConnected(s, generation)
  }

  function Step(o: Options, s: State, e: Event): State {
    match e
    case Subscribe(next) => SetSubscriptions(s, next)
    case StopRequested => Stop(s)
    case Kept(task) => if task in s.tasks then Continue(s.(tasks := s.tasks - multiset{task}), task) else s
    case CloseBroken(task) =>
      if task in s.tasks && !task.Finish? && task.closing then s.(tasks := s.tasks - multiset{task}) else s
    case OnConnectedBroken(g) =>
      if Finish(g) in s.tasks then AfterConnectedFailed(o, s.(tasks := s.tasks - multiset{Finish(g)}), g) else s
    case ConnectionOpened(i, hasReady) =>
      if i < |s.calls| && s.calls[i].phase.Opening? then Opened(s, i, hasReady) else s
    case ConnectionReady(i) =>
      if i < |s.calls| && s.calls[i].phase.Waiting? then MarkConnected(SetPhase(s, i, Settled), i) else s
    case ConnectBroken(i) => if i < |s.calls| && !s.calls[i].phase.Settled? then ConnectFailed(o, s, i) else s
    case ProviderConnected(i) => if i < |s.calls| then MarkConnected(s, i) else s
    case ProviderDisconnected(i) =>
      if i < |s.calls| then
        var dropped := if i in s.links && s.links[i].Live? then s.(links := s.links[i := Dropped]) else s;
        HandleDisconnect(o, dropped, s.calls[i].generation)
      else s
    case TimerFired => if s.reconnectTimer.Some? then Connect(s.(reconnectTimer := None), s.reconnectTimer.value) else s
  }

  function Run(o: Options, s: State, events: seq<Event>): State
    decreases |events|
  {
    if events == [] then s else Step(o, Run(o, s, events[..|events| - 1]), events[|events| - 1])
  }
}
