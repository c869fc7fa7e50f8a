/** Concrete runs on which the manager leaks a connection or stalls, one for each kind of stalling step. */
module SubscriptionRuns {
  import opened Wrappers
  import opened SubscriptionManager
  import opened SubscriptionSafety
  import opened SubscriptionTheorems
  import opened SubscriptionProgress

  // ---------------------------------------------------------------- building runs

  lemma ReachStep(o: Options, s: State, e: Event)
    requires IsReachable(o, s)
    ensures IsReachable(o, Step(o, s, e))
  {
    hide Step;
    var events :| s == Run(o, START, events);
    assert (events + [e])[..|events|] == events;
    assert Run(o, START, events + [e]) == Step(o, s, e);
  }

  lemma StartReachable(o: Options)
    ensures IsReachable(o, START)
  {
    assert START == Run(o, START, []);
  }

  const WANTED: set<Subscription> := {1}

  const OTHER: set<Subscription> := {2}

  /** Subscribing until the first connect call is under way. */
  function FirstCall(): State {
    State(WANTED, None, None, 1, 0, false, [Call(1, WANTED, false, Opening)], map[], multiset{},
      [Reset, Told(Reconnecting)])
  }

  lemma ReachesFirstCall(o: Options)
    ensures IsReachable(o, FirstCall())
  {
    hide IsReachable;
    StartReachable(o);
    var s := START.(desired := WANTED, generation := 1, tasks := multiset{Resubscribe(1, WANTED, false)});
    assert s == Step(o, START, Subscribe(WANTED));
    ReachStep(o, START, Subscribe(WANTED));
    ReachStep(o, s, Kept(Resubscribe(1, WANTED, false)));
    assert s.tasks - multiset{Resubscribe(1, WANTED, false)} == multiset{};
    assert 1 in WANTED;
    assert Step(o, s, Kept(Resubscribe(1, WANTED, false))) == FirstCall();
  }

  // ---------------------------------------------------------------- a leaked connection

  /** The first connection is open and its connected callback is under way. */
  predicate Open(s: State) {
    && s.connection == Some(0) && s.tasks == multiset{Finish(1)} && s.links == map[0 := Live] && Current(s, 1)
      && s.reconnectTimer.None?
    && s.calls == [Call(1, WANTED, true, Settled)] && s.reconnectAttempt == 0 && s.desired == WANTED
  }

  predicate Retrying(s: State) {
    s.reconnectTimer == Some(1) && s.links == map[0 := Live] && Current(s, 1) && |s.calls| == 1 && s.desired == WANTED
  }

  predicate Again(s: State) {
    |s.calls| == 2 && s.calls[1] == Call(1, WANTED, false, Opening) && s.links == map[0 := Live] && Current(s, 1)
  }

  lemma FirstOpens(o: Options)
    ensures Open(Step(o, FirstCall(), ConnectionOpened(0, false)))
  {
    assert 1 in WANTED;
  }

  lemma CallbackFails(o: Options, s: State)
    requires Open(s) && o.maximumAttempts >= 1
    ensures Retrying(Step(o, s, OnConnectedBroken(1)))
  {
    hide Delay;
  }

  lemma TimerConnects(o: Options, s: State)
    requires Retrying(s)
    ensures Again(Step(o, s, TimerFired))
  {
  }

  lemma SecondOpens(o: Options, s: State)
    requires Again(s)
    ensures var r := Step(o, s, ConnectionOpened(1, false)); r.connection == Some(1) && 0 in r.links && r.links[0].Live?
  {
  }

  /** A failing connected callback makes the manager connect again over its live connection, which nobody closes. */
  lemma LeakAfterFailedCallback(o: Options)
    requires o.maximumAttempts >= 1
    ensures exists s: State :: IsReachable(o, s) && s.connection == Some(1) && 0 in s.links && s.links[0].Live?
  {
    hide IsReachable, Step, Open, Retrying, Again;
    ReachesFirstCall(o);
    var s1 := Step(o, FirstCall(), ConnectionOpened(0, false));
    var s2 := Step(o, s1, OnConnectedBroken(1));
    var s3 := Step(o, s2, TimerFired);
    ReachStep(o, FirstCall(), ConnectionOpened(0, false));
    ReachStep(o, s1, OnConnectedBroken(1));
    ReachStep(o, s2, TimerFired);
    ReachStep(o, s3, ConnectionOpened(1, false));
    FirstOpens(o);
    CallbackFails(o, s1);
    TimerConnects(o, s2);
    SecondOpens(o, s3);
  }

  // ---------------------------------------------------------------- giving up for good

  /** Nothing is under way for the current generation, and nothing ever will be unless someone subscribes again. */
  predicate Idle(s: State) {
    s.reconnectTimer.None? && NoCall(s) && forall t | t in s.tasks && !t.ReportStop? :: t.generation != s.generation
  }

  lemma IdleAnswers(o: Options, s: State, e: Event)
    requires Inv(o, s) && Idle(s) && (Answers(e) || e.ProviderDisconnected?)
    ensures Idle(Step(o, s, e)) && |Step(o, s, e).calls| == |s.calls|
  {
    hide RetriesOk, Delay, ScheduleReconnect;
    if e.call < |s.calls| { assert s.calls[e.call].generation != s.generation; }
  }

  lemma IdleRest(o: Options, s: State, e: Event)
    requires Inv(o, s) && Idle(s) && !e.Subscribe? && !Answers(e) && !e.ProviderDisconnected?
    ensures Idle(Step(o, s, e)) && |Step(o, s, e).calls| == |s.calls|
  {
    hide RetriesOk, Delay, ScheduleReconnect;
  }

  lemma IdleStays(o: Options, s: State, e: Event)
    requires Inv(o, s) && Idle(s) && !e.Subscribe?
    ensures Idle(Step(o, s, e)) && Step(o, s, e).connection.None? && |Step(o, s, e).calls| == |s.calls|
    ensures !UnderWay(Step(o, s, e))
  {
    hide Step, RetriesOk;
    StepInv(o, s, e);
    if Answers(e) || e.ProviderDisconnected? { IdleAnswers(o, s, e); } else { IdleRest(o, s, e); }
  }

  lemma {:induction false} IdleRun(o: Options, s: State, events: seq<Event>)
    requires Inv(o, s) && Idle(s) && forall k | 0 <= k < |events| :: !events[k].Subscribe?
    ensures var r := Run(o, s, events); Inv(o, r) && Idle(r) && |r.calls| == |s.calls|
    decreases |events|
  {
    hide Inv, Idle, Step;
    if events != [] {
      var before, e := events[..|events| - 1], events[|events| - 1];
      IdleRun(o, s, before);
      IdleStays(o, Run(o, s, before), e);
      StepInv(o, Run(o, s, before), e);
    }
  }

  /**
   * Only a new subscription request takes the manager out of it: in every other run it holds nothing and tries nothing.
   */
  lemma IdleForever(o: Options, s: State, events: seq<Event>)
    requires IsReachable(o, s) && Idle(s) && forall k | 0 <= k < |events| :: !events[k].Subscribe?
    ensures var r := Run(o, s, events);
      !UnderWay(r) && r.connection.None? && r.reconnectTimer.None? && |r.calls| == |s.calls|
  {
    hide Run, RetriesOk;
    ReachableInv(o, s);
    IdleRun(o, s, events);
  }

  // ---------------------------------------------------------------- the disconnect that stalls

  predicate Failed(s: State) {
    && s.reconnectTimer == Some(1) && Current(s, 1) && s.reconnectAttempt == 1
      && s.calls == [Call(1, WANTED, false, Settled)]
    && s.tasks == multiset{} && s.links == map[]
  }

  predicate MovedOn(s: State) {
    && s.reconnectTimer == Some(1) && Current(s, 2) && s.reconnectAttempt == 1
    && s.calls == [Call(1, WANTED, false, Settled)] && s.tasks == multiset{}
  }

  lemma ConnectFails(o: Options)
    requires o.maximumAttempts >= 1
    ensures Failed(Step(o, FirstCall(), ConnectBroken(0)))
  {
    hide Delay;
    assert 1 in WANTED;
  }

  lemma DisconnectFollows(o: Options, s: State)
    requires Failed(s) && o.maximumAttempts >= 2
    ensures MovedOn(Step(o, s, ProviderDisconnected(0))) && UnderWay(s)
      && DisconnectStalls(o, s, ProviderDisconnected(0))
  {
    hide Delay;
  }

  lemma StaleTimerFires(o: Options, s: State)
    requires MovedOn(s)
    ensures var r := Step(o, s, TimerFired); Idle(r) && !r.stopped && r.desired != {} && r.reconnectAttempt == 1
  {
  }

  /**
   * A connect call that fails and whose provider then reports the disconnect as well leaves the manager idle with
   * retries to spare: the disconnect moves the generation on while the pending timer keeps the old one, and the timer's
   * connect does nothing.
   */
  lemma IdleAfterFailureAndDisconnect(o: Options)
    requires o.maximumAttempts >= 2
    ensures exists s: State, e: Event :: IsReachable(o, s) && UnderWay(s) && DisconnectStalls(o, s, e)
    ensures exists s: State ::
      IsReachable(o, s) && Idle(s) && !s.stopped && s.desired != {} && 0 < s.reconnectAttempt < o.maximumAttempts
  {
    hide IsReachable, Step, Failed, MovedOn, Idle, UnderWay, DisconnectStalls;
    ReachesFirstCall(o);
    var s1 := Step(o, FirstCall(), ConnectBroken(0));
    var s2 := Step(o, s1, ProviderDisconnected(0));
    ReachStep(o, FirstCall(), ConnectBroken(0));
    ReachStep(o, s1, ProviderDisconnected(0));
    ReachStep(o, s2, TimerFired);
    ConnectFails(o);
    DisconnectFollows(o, s1);
    StaleTimerFires(o, s2);
  }

  // ---------------------------------------------------------------- the close that stalls

  predicate Releasing(s: State) {
    && s.tasks == multiset{Finish(1), Resubscribe(2, OTHER, true)} && s.generation == 2 && s.desired == OTHER
      && !s.stopped
    && s.reconnectTimer.None? && s.connection.None? && s.reconnectAttempt == 0
      && s.calls == [Call(1, WANTED, true, Settled)]
  }

  lemma AsksForOther(o: Options, s: State)
    requires Open(s)
    ensures Releasing(Step(o, s, Subscribe(OTHER)))
  {
    assert 1 in WANTED && 2 in OTHER && 1 !in OTHER;
  }

  lemma CloseFails(o: Options, s: State)
    requires Releasing(s) && o.maximumAttempts >= 1
    ensures var e := CloseBroken(Resubscribe(2, OTHER, true)); var r := Step(o, s, e);
      && UnderWay(s) && CloseStalls(o, s, e)
      && Idle(r) && !r.stopped && r.desired != {} && r.reconnectAttempt == 0
  {
    assert 2 in OTHER;
    assert s.tasks - multiset{Resubscribe(2, OTHER, true)} == multiset{Finish(1)};
  }

  /** Asking for another set while connected, with a close that rejects, leaves the manager idle before any retry. */
  lemma IdleAfterFailedClose(o: Options)
    requires o.maximumAttempts >= 1
    ensures exists s: State, e: Event :: IsReachable(o, s) && UnderWay(s) && CloseStalls(o, s, e)
    ensures exists s: State :: IsReachable(o, s) && Idle(s) && !s.stopped && s.desired != {} && s.reconnectAttempt == 0
  {
    hide IsReachable, Step, Open, Releasing, Idle, UnderWay, CloseStalls;
    ReachesFirstCall(o);
    var s1 := Step(o, FirstCall(), ConnectionOpened(0, false));
    var s2 := Step(o, s1, Subscribe(OTHER));
    ReachStep(o, FirstCall(), ConnectionOpened(0, false));
    ReachStep(o, s1, Subscribe(OTHER));
    ReachStep(o, s2, CloseBroken(Resubscribe(2, OTHER, true)));
    FirstOpens(o);
    AsksForOther(o, s1);
    CloseFails(o, s2);
  }

  // ---------------------------------------------------------------- the catch of an older call

  /** The first call still waits, and the request for another set has begun a second one. */
  predicate TwoCalls(s: State) {
    && s.calls == [Call(1, WANTED, false, Opening), Call(2, OTHER, false, Opening)] && s.tasks == multiset{}
      && s.generation == 2
      && s.desired == OTHER
    && !s.stopped && s.reconnectTimer.None? && s.connection.None? && s.reconnectAttempt == 0
  }

  lemma BeginsSecond(o: Options)
    ensures TwoCalls(Step(o, Step(o, FirstCall(), Subscribe(OTHER)), Kept(Resubscribe(2, OTHER, false))))
  {
    assert 1 in WANTED && 2 in OTHER && 1 !in OTHER;
    var s := FirstCall().(desired := OTHER, generation := 2, tasks := multiset{Resubscribe(2, OTHER, false)});
    assert multiset{} + multiset{Resubscribe(2, OTHER, false)} == multiset{Resubscribe(2, OTHER, false)};
    assert Step(o, FirstCall(), Subscribe(OTHER)) == s;
    assert s.tasks - multiset{Resubscribe(2, OTHER, false)} == multiset{};
  }

  /** The second call's connection is there, and awaits being ready if it offers that. */
  predicate SecondHeld(s: State, ready: bool) {
    && |s.calls| == 2 && s.calls[0] == Call(1, WANTED, false, Opening)
      && s.calls[1].phase == (if ready then Waiting else Settled)
    && s.calls[1].generation == 2 && s.connection == Some(1) && NoResubscription(s)
    && s.generation == 2 && s.desired == OTHER && !s.stopped && s.reconnectTimer.None? && s.reconnectAttempt == 0
  }

  lemma OpensSecond(o: Options, s: State, ready: bool)
    requires TwoCalls(s)
    ensures SecondHeld(Step(o, s, ConnectionOpened(1, ready)), ready)
  {
    assert 2 in OTHER;
  }

  lemma OldCatch(o: Options, s: State, ready: bool)
    requires SecondHeld(s, ready) && o.maximumAttempts >= 1
    ensures var r := Step(o, s, ConnectBroken(0)); var e := ConnectionReady(1);
      && (!ready ==> UnderWay(s) && CatchStalls(o, s, ConnectBroken(0)))
      && (ready ==> UnderWay(r) && ReadyStalls(o, r, e))
  {
    hide Delay;
    assert 2 in OTHER;
    var r := Step(o, s, ConnectBroken(0));
    if ready { assert Pending(r.calls[1], r.generation); }
  }

  /** A connect call of a past generation that fails late drops the connection of the present one. */
  lemma StallsAfterOldFailure(o: Options)
    requires o.maximumAttempts >= 1
    ensures exists s: State, e: Event :: IsReachable(o, s) && UnderWay(s) && CatchStalls(o, s, e)
    ensures exists s: State, e: Event :: IsReachable(o, s) && UnderWay(s) && ReadyStalls(o, s, e)
  {
    hide IsReachable, Step, TwoCalls, SecondHeld, UnderWay, CatchStalls, ReadyStalls;
    ReachesFirstCall(o);
    var s1 := Step(o, FirstCall(), Subscribe(OTHER));
    var s2 := Step(o, s1, Kept(Resubscribe(2, OTHER, false)));
    ReachStep(o, FirstCall(), Subscribe(OTHER));
    ReachStep(o, s1, Kept(Resubscribe(2, OTHER, false)));
    BeginsSecond(o);
    var open, waiting := Step(o, s2, ConnectionOpened(1, false)), Step(o, s2, ConnectionOpened(1, true));
    ReachStep(o, s2, ConnectionOpened(1, false));
    ReachStep(o, s2, ConnectionOpened(1, true));
    ReachStep(o, waiting, ConnectBroken(0));
    OpensSecond(o, s2, false);
    OpensSecond(o, s2, true);
    OldCatch(o, open, false);
    OldCatch(o, waiting, true);
  }

  // ---------------------------------------------------------------- the callback that outlives the retries

  /** The provider reported the connection before its connect promise failed, and the one retry is under way. */
  predicate LastRetry(s: State) {
    && s.calls == [Call(1, WANTED, true, Settled), Call(1, WANTED, false, Opening)] && s.tasks == multiset{Finish(1)}
      && Current(s, 1)
    && s.reconnectTimer.None? && s.connection.None? && s.reconnectAttempt == 1
  }

  lemma RetriesOnce(o: Options)
    requires o.maximumAttempts == 1
    ensures LastRetry(Step(o, Step(o, Step(o, FirstCall(), ProviderConnected(0)), ConnectBroken(0)), TimerFired))
  {
    hide Delay;
    assert 1 in WANTED;
    var s := Step(o, FirstCall(), ProviderConnected(0));
    assert s.calls == [Call(1, WANTED, true, Opening)] && s.tasks == multiset{Finish(1)};
    var r := Step(o, s, ConnectBroken(0));
    assert r.calls == [Call(1, WANTED, true, Settled)] && r.reconnectTimer == Some(1) && r.reconnectAttempt == 1;
  }

  lemma LastFails(o: Options, s: State)
    requires LastRetry(s) && o.maximumAttempts == 1
    ensures var r := Step(o, s, ConnectBroken(1)); !Wanting(o, r) && CallbackStalls(o, r, Kept(Finish(1)))
  {
    hide Delay;
    var r := Step(o, s, ConnectBroken(1));
    assert r.calls[0].phase.Settled? && r.calls[1].phase.Settled? && r.tasks == multiset{Finish(1)};
  }

  /**
   * The connected callback of a call that failed succeeds after the last retry, and the manager reports CONNECTED with
   * nothing held.
   */
  lemma StallsAfterLateCallback(o: Options)
    requires o.maximumAttempts == 1
    ensures exists s: State, e: Event :: IsReachable(o, s) && !Wanting(o, s) && CallbackStalls(o, s, e)
  {
    hide IsReachable, Step, LastRetry, Wanting, CallbackStalls;
    ReachesFirstCall(o);
    var s1 := Step(o, FirstCall(), ProviderConnected(0));
    var s2 := Step(o, s1, ConnectBroken(0));
    var s3 := Step(o, s2, TimerFired);
    ReachStep(o, FirstCall(), ProviderConnected(0));
    ReachStep(o, s1, ConnectBroken(0));
    ReachStep(o, s2, TimerFired);
    ReachStep(o, s3, ConnectBroken(1));
    RetriesOnce(o);
    LastFails(o, s3);
  }
}
