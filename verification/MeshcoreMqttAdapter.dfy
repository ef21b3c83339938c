/** The adapter object, its fields assigned handler by handler and tied to the reconnect machine. */
module MeshcoreMqttAdapterObject {
  import opened Wrappers
  import opened MqttReconnect

  class MeshcoreMqttAdapter {
    var client: Option<int>
    var status: Status
    var lastSettings: Option<Settings>
    var connectAckTimer: Option<int>
    var connectAbortByWatchdog: bool
    var retryCount: int
    var reconnectTimer: Timer
    var lastConnected: Option<int>
    var disconnectCount: int
    var pendingReconnect: bool
    var pendingReconnectTimer: bool
    var powerWakeReconnect: bool
    // The MQTT library: clients made so far and those whose close is still to come.
    var unclosed: set<int>
    var nextClient: int
    ghost var ackedBy: Option<int>
    ghost var opens: int

    ghost function View(): State
      reads this
    {
      State(client, unclosed, nextClient, status, lastSettings, connectAckTimer, reconnectTimer, pendingReconnect,
            pendingReconnectTimer, retryCount, lastConnected, powerWakeReconnect, connectAbortByWatchdog, disconnectCount,
            ackedBy, opens)
    }

    /** The fields are those of some run of the machine, so whatever holds of every run holds of the object. */
    ghost predicate Valid() reads this { Reachable(View()) }

    constructor ()
      ensures View() == Initial && Valid()
    {
      client, unclosed, nextClient, status, lastSettings := None, {}, 0, Idle, None;
      connectAckTimer, reconnectTimer, pendingReconnect, pendingReconnectTimer := None, NoTimer, false, false;
      retryCount, lastConnected, powerWakeReconnect, connectAbortByWatchdog, disconnectCount := 0, None, false, false, 0;
      ackedBy, opens := None, 0;
      new;
      InitiallyReachable();
    }

    method Disconnect()
      requires Valid()
      modifies this
      ensures View() == Dropped(old(View()))
      ensures Valid()
    {
      Extend(View(), Event.Disconnect);
      ClearTimers();
      retryCount, opens := 0, 0;
      client := None;
      lastSettings := None;
      status := Idle;
    }

    method ClearTimers()
      modifies this`connectAckTimer, this`reconnectTimer, this`connectAbortByWatchdog, this`pendingReconnect, this`pendingReconnectTimer
      ensures View() == old(View()).(ackTimer := None, reconnectTimer := NoTimer, abortedByWatchdog := false,
                                     pendingReconnect := false, pendingTimer := false)
    {
      connectAckTimer := None;
      reconnectTimer := NoTimer;
      connectAbortByWatchdog := false;
      pendingReconnect := false;
      pendingReconnectTimer := false;
    }

    method Connect(settings: Settings, wildcardTopic: bool)
      requires Valid()
      modifies this
      ensures View() == Reconfigured(old(View()), settings, wildcardTopic)
      ensures Valid()
    {
      Extend(View(), Event.Connect(settings, wildcardTopic));
      Disconnect();
      if wildcardTopic {
        status := Faulted;
        return;
      }
      lastSettings := Some(settings);
      retryCount := 0;
      DoConnect();
    }

    method DoConnect()
      modifies this
      ensures View() == Opened(old(View()))
    {
      connectAckTimer := None;
      client := None;
      status := Connecting;
      connectAbortByWatchdog := false;
      client := Some(nextClient);
      unclosed := unclosed + {nextClient};
      connectAckTimer := Some(nextClient);
      nextClient := nextClient + 1;
      opens := opens + 1;
    }

    method UpdateToken(expires: bool)
      requires Valid()
      modifies this
      ensures View() == TokenUpdated(old(View()), expires)
      ensures Valid()
    {
      Extend(View(), Event.UpdateToken(expires));
      if lastSettings.Some? { lastSettings := Some(lastSettings.value.(tokenExpires := expires)); }
      if pendingReconnect && lastSettings.Some? {
        pendingReconnect := false;
        pendingReconnectTimer := false;
        DoConnect();
      }
    }

    method RejectOversizedMqttPacket()
      requires Valid()
      modifies this
      ensures View() == Dropped(old(View())).(status := Faulted)
    {
      Disconnect();
      status := Faulted;
    }

    method OnError(session: int, tooLarge: bool)
      requires Valid()
      modifies this
      ensures View() == Errored(old(View()), session, tooLarge)
      ensures Valid()
    {
      Extend(View(), ClientError(session, tooLarge));
      if client != Some(session) { return; }
      if tooLarge {
        RejectOversizedMqttPacket();
        return;
      }
      connectAckTimer := None;
      if status == Connecting { status := Idle; }
    }

    method OnOversizedMessage(session: int)
      requires Valid()
      modifies this
      ensures View() == Oversized(old(View()), session)
      ensures Valid()
    {
      Extend(View(), OversizedMessage(session));
      if client != Some(session) { return; }
      RejectOversizedMqttPacket();
    }

    method OnConnack(session: int, now: int)
      requires Valid() && session in unclosed
      modifies this
      ensures View() == Acked(old(View()), session, now)
      ensures Valid()
    {
      Extend(View(), Connack(session, now));
      if client != Some(session) { return; }
      connectAckTimer := None;
      lastConnected, ackedBy := Some(now), Some(session);
      status := Online;
    }

    method OnConnackTimeout()
      requires Valid() && connectAckTimer.Some?
      modifies this
      ensures View() == AckTimedOut(old(View()))
      ensures Valid()
    {
      Extend(View(), AckTimeout);
      var session := connectAckTimer.value;
      connectAckTimer := None;
      if client != Some(session) || status != Connecting { return; }
      connectAbortByWatchdog := true;
      client := None;
      status := Idle;
    }

    /** The first part of the close handler: the session is over. */
    method EndSession(session: int)
      modifies this
      ensures View() == Settled(old(View()), session)
    {
      unclosed := unclosed - {session};
      connectAckTimer := None;
      reconnectTimer := NoTimer;
      disconnectCount := disconnectCount + 1;
      lastConnected, ackedBy := None, None;
      if status == Online || status == Connecting { status := Idle; }
    }

    /** Its second part: give up, or schedule the next attempt. */
    method ScheduleReconnect()
      requires lastSettings.Some?
      modifies this`status, this`retryCount, this`powerWakeReconnect, this`reconnectTimer
      ensures View() == Retried(old(View()))
    {
      if retryCount >= MaxRetries(lastSettings.value) {
        status := Faulted;
        return;
      }
      retryCount := retryCount + 1;
      if lastSettings.value.tokenExpires {
        powerWakeReconnect := false;
        reconnectTimer := JwtReconnect;
      } else {
        reconnectTimer := PlainReconnect;
      }
    }

    method OnClose(session: int, now: int)
      requires Valid() && session in unclosed
      modifies this
      ensures View() == AfterClose(old(View()), session, now)
      ensures Valid()
    {
      Extend(View(), Closed(session, now));
      if client != Some(session) {
        unclosed := unclosed - {session};
        return;
      }
      var connectedAt := lastConnected;
      var sessionDuration := if connectedAt.Some? && connectedAt.value != 0 then now - connectedAt.value else 0;
      var skipReconnect := status == Faulted || lastSettings.None?;
      ghost var own := ackedBy == Some(session);
      EndSession(session);
      if skipReconnect { return; }
      if sessionDuration >= STABLE_THRESHOLD_MS {
        retryCount := 0;
        if own { opens := 0; }
      }
      ScheduleReconnect();
    }

    method OnOffline(session: int)
      requires Valid()
      modifies this
      ensures View() == WentOffline(old(View()), session)
      ensures Valid()
    {
      Extend(View(), Offline(session));
      if client != Some(session) { return; }
      if status == Online || status == Connecting { status := Idle; }
    }

    method OnReconnectDue()
      requires Valid() && reconnectTimer != NoTimer
      modifies this
      ensures View() == Reconnecting(old(View()))
      ensures Valid()
    {
      Extend(View(), ReconnectDue);
      var kind := reconnectTimer;
      reconnectTimer := NoTimer;
      if lastSettings.None? { return; }
      if kind == PlainReconnect {
        DoConnect();
      } else {
        pendingReconnect := true;
        pendingReconnectTimer := true;
      }
    }

    method OnPendingDue()
      requires Valid() && pendingReconnectTimer
      modifies this
      ensures View() == PendingTimedOut(old(View()))
      ensures Valid()
    {
      Extend(View(), PendingDue);
      if pendingReconnect && lastSettings.Some? {
        pendingReconnect := false;
        pendingReconnectTimer := false;
        DoConnect();
      }
    }

    method HandlePowerSuspend()
      requires Valid()
      modifies this
      ensures View() == Suspended(old(View()))
      ensures Valid()
    {
      Extend(View(), PowerSuspend);
      reconnectTimer := NoTimer;
      pendingReconnectTimer := false;
    }

    method WakeUp()
      modifies this
      ensures View() == Awake(old(View()))
    {
      retryCount, opens := 0, 0;
      powerWakeReconnect := true;
      reconnectTimer := NoTimer;
      pendingReconnectTimer := false;
      pendingReconnect := false;
      client := None;
      if status == Faulted { status := Idle; }
      if status == Online || status == Connecting { status := Idle; }
    }

    method HandlePowerResume()
      requires Valid()
      modifies this
      ensures View() == Resumed(old(View()))
      ensures Valid()
    {
      Extend(View(), PowerResume);
      if lastSettings.None? { return; }
      WakeUp();
      if lastSettings.value.tokenExpires {
        pendingReconnect := true;
        pendingReconnectTimer := true;
      } else {
        DoConnect();
      }
    }
  }
}
