/** The manager as the object it is: fields updated in place, one method per uninterrupted segment. */
module SubscriptionObject {
  import opened Wrappers
  import opened SubscriptionManager

  class MarketDataSubscriptionManager {
    const options: Options
    var desired: set<Subscription>
    var connection: Option<nat>
    var reconnectTimer: Option<nat>
    var generation: nat
    var reconnectAttempt: nat
    var stopped: bool

    // What the provider, the scheduler and the observer hold for this manager.
    var calls: seq<Call>
    var links: map<nat, Link>
    var tasks: multiset<Task>
    var log: seq<Output>

    ghost function Snapshot(): State
      reads this
    {
      State(desired, connection, reconnectTimer, generation, reconnectAttempt, stopped, calls, links, tasks, log)
    }

    constructor (o: Options)
      ensures Snapshot() == START && options == o
    {
      options := o;
      desired, connection, reconnectTimer, generation, reconnectAttempt, stopped := {}, None, None, 0, 0, false;
      calls, links, tasks, log := [], map[], multiset{}, [];
    }

    method OnStatus(status: Status)
      modifies this`log
      ensures Snapshot() == Tell(old(Snapshot()), status)
    {
      log := log + [Told(status)];
    }

    method CloseConnection()
      modifies this`connection, this`links
      ensures Snapshot() == ReleaseConnection(old(Snapshot()))
    {
      var previous := connection;
      connection := None;
      if previous.Some? {
        links := links[previous.value := Closed];
      }
    }

    method SetSubscriptions(next: set<Subscription>)
      modifies this
      ensures Snapshot() == SubscriptionManager.SetSubscriptions(old(Snapshot()), next)
    {
      hide ReleaseConnection;
      if stopped { return; }
      if next == desired && (next == {} || connection.Some? || reconnectTimer.Some?) { return; }
      desired := next;
      generation := generation + 1;
      reconnectTimer := None;
      assert Snapshot() == old(Snapshot()).(desired := next, generation := generation, reconnectTimer := None);
      var closing := connection.Some?;
      CloseConnection();
      ghost var released := Snapshot();
      tasks := tasks + multiset{Resubscribe(generation, next, closing)};
      assert Snapshot() == released.(tasks := tasks);
    }

    method AfterRelease(expected: nat, next: set<Subscription>)
      modifies this
      ensures Snapshot() == SubscriptionManager.AfterRelease(old(Snapshot()), expected, next)
    {
      if expected != generation || stopped { return; }
      reconnectAttempt := 0;
      log := log + [Reset];
      if next == {} {
        OnStatus(Disconnected);
        return;
      }
      Connect(expected);
    }

    method Stop()
      modifies this
      ensures Snapshot() == SubscriptionManager.Stop(old(Snapshot()))
    {
      hide ReleaseConnection;
      if stopped { return; }
      stopped := true;
      generation := generation + 1;
      reconnectTimer := None;
      assert Snapshot() == old(Snapshot()).(stopped := true, generation := generation, reconnectTimer := None);
      var closing := connection.Some?;
      CloseConnection();
      ghost var released := Snapshot();
      tasks := tasks + multiset{ReportStop(closing)};
      assert Snapshot() == released.(tasks := tasks);
    }

    method AfterStop()
      modifies this
      ensures Snapshot() == SubscriptionManager.AfterStop(old(Snapshot()))
    {
      desired := {};
      OnStatus(Disconnected);
    }

    method Connect(expected: nat)
      modifies this
      ensures Snapshot() == SubscriptionManager.Connect(old(Snapshot()), expected)
    {
      if expected != generation || stopped || desired == {} { return; }
      OnStatus(Reconnecting);
      calls := calls + [Call(expected, desired, false, Opening)];
    }

    method ConnectionOpened(i: nat, hasReady: bool)
      requires i < |calls|
      modifies this
      ensures Snapshot() == Opened(old(Snapshot()), i, hasReady)
    {
      var expected := calls[i].generation;
      if expected != generation || stopped || desired == {} {
        links := links[i := Closed];
        calls := calls[i := calls[i].(phase := LateClose)];
        return;
      }
      connection := Some(i);
      links := links[i := Live];
      if !calls[i].readiness && hasReady {
        calls := calls[i := calls[i].(phase := Waiting)];
      } else {
        calls := calls[i := calls[i].(phase := Settled)];
        MarkConnected(i);
      }
    }

    method MarkConnected(i: nat)
      requires i < |calls|
      modifies this
      ensures Snapshot() == SubscriptionManager.MarkConnected(old(Snapshot()), i)
    {
      if calls[i].readiness || calls[i].generation != generation || stopped { return; }
      calls := calls[i := calls[i].(readiness := true)];
      if desired != {} {
        tasks := tasks + multiset{Finish(calls[i].generation)};
      }
    }

    method AfterConnected(expected: nat)
      modifies this
      ensures Snapshot() == SubscriptionManager.AfterConnected(old(Snapshot()), expected)
    {
      if expected != generation || stopped || desired == {} { return; }
      reconnectAttempt := 0;
      log := log + [Reset];
      OnStatus(Connected);
    }

    method AfterConnectedFailed(expected: nat)
      modifies this
      ensures Snapshot() == SubscriptionManager.AfterConnectedFailed(options, old(Snapshot()), expected)
    {
      if expected != generation || stopped || desired == {} { return; }
      OnStatus(Reconnecting);
      ScheduleReconnect(expected);
    }

    method ConnectFailed(i: nat)
      requires i < |calls|
      modifies this
      ensures Snapshot() == SubscriptionManager.ConnectFailed(options, old(Snapshot()), i)
    {
      var expected := calls[i].generation;
      calls := calls[i := calls[i].(phase := Settled)];
      connection := None;
      if expected != generation || stopped || desired == {} { return; }
      OnStatus(Disconnected);
      ScheduleReconnect(expected);
    }

    method HandleDisconnect(expected: nat)
      modifies this
      ensures Snapshot() == SubscriptionManager.HandleDisconnect(options, old(Snapshot()), expected)
    {
      if expected != generation || stopped || desired == {} { return; }
      generation := generation + 1;
      connection := None;
      OnStatus(Reconnecting);
      ScheduleReconnect(generation);
    }

    method ScheduleReconnect(expected: nat)
      modifies this
      ensures Snapshot() == SubscriptionManager.ScheduleReconnect(options, old(Snapshot()), expected)
    {
      if reconnectTimer.Some? || expected != generation || stopped || desired == {} { return; }
      if reconnectAttempt >= options.maximumAttempts {
        OnStatus(Disconnected);
        return;
      }
      var delay := Delay(options, reconnectAttempt);
      reconnectAttempt := reconnectAttempt + 1;
      reconnectTimer := Some(expected);
      log := log + [Armed(delay)];
    }

    method TimerFired()
      modifies this
      ensures Snapshot() == Step(options, old(Snapshot()), Event.TimerFired)
    {
      if reconnectTimer.Some? {
        var expected := reconnectTimer.value;
        reconnectTimer := None;
        Connect(expected);
      }
    }
  }
}
