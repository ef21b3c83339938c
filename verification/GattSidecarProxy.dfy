/**
 The proxy object wired to its coordinator: maps, counters and latch updated in place, one method per stretch of
 code between two awaits. Every such method performs one step of `GattProtocol`, so that the object is always in a
 reachable state and the lemmas about reachable states and runs are about this object.
 */
module GattSidecarProxyObject {
  import opened Wrappers
  import opened Coexistence
  import opened GattProtocol
  import GattProperties
  import GattSteps

  class GattSidecarProxy {
    const coordinator: BleCoexistenceCoordinator
    var port: int
    var authToken: Option<Token>
    var sidecarGeneration: int
    var sessions: map<Profile, Live>
    var connectAttempts: map<Profile, int>
    var reservations: map<int, Reservation>
    var rnodeBondRecoveryExclusive: bool
    var quitting: bool
    // Calls suspended at an await, and the next unused attempt and cleanup numbers.
    var calls: map<int, Call>
    var sockets: map<int, Socket>
    var cleanups: map<int, CleanupCall>
    var nextAttempt: int
    var nextCleanup: int
    // Scans and connects running inside `withScan`, and the next unused lease number.
    var leases: map<int, ScanOwner>
    var nextLease: int
    // History that the code does not store.
    ghost var latest: map<Profile, int>
    ghost var heldByRelease: bool
    ghost var log: seq<Output>

    ghost function View(): State
      reads this, coordinator
    {
      State(port, authToken, sidecarGeneration, sessions, connectAttempts, latest, reservations, nextAttempt, calls, sockets,
            cleanups, nextCleanup, rnodeBondRecoveryExclusive, heldByRelease, quitting, coordinator.connections,
            coordinator.Scan(), leases, nextLease, log)
    }

    /** Some run of the protocol leads to the fields as they are. */
    ghost predicate Valid()
      reads this, coordinator
    {
      GattProperties.Reachable(coordinator.normalize, View())
    }

    constructor (coordinator: BleCoexistenceCoordinator)
      requires coordinator.connections == map[] && coordinator.Scan() == ScanLock(None, 0)
      ensures this.coordinator == coordinator && View() == Initial && Valid()
    {
      this.coordinator := coordinator;
      port, authToken, sidecarGeneration := 0, None, 0;
      sessions, connectAttempts, reservations := map[], map[], map[];
      rnodeBondRecoveryExclusive, quitting := false, false;
      calls, sockets, cleanups, nextAttempt, nextCleanup := map[], map[], map[], 0, 0;
      latest, heldByRelease, leases, nextLease, log := map[], false, map[], 0, [];
      new;
      GattProperties.InitiallyReachable(coordinator.normalize);
    }

    method GetConnections() returns (links: seq<LinkEntry>)
      ensures links == AllLinks(View())
    {
      links := [];
      var n := 0;
      while n < nextAttempt
        invariant n == 0 || 0 <= n <= nextAttempt
        invariant links == Links(reservations, n)
      {
        if n in reservations {
          links := links + [LinkEntry(reservations[n].address, Gatt(reservations[n].profile))];
        }
        n := n + 1;
      }
    }

    method SetPort(httpPort: int, token: Token)
      requires Valid()
      modifies this
      ensures View() == old(View()).(port := httpPort, token := if httpPort > 0 then Some(token) else None)
      ensures Valid()
    {
      GattProperties.Extend(coordinator.normalize, View(), Event.SetPort(httpPort, token));
      port := httpPort;
      authToken := if httpPort > 0 then Some(token) else None;
    }

    method SetQuitting()
      requires Valid()
      modifies this`quitting
      ensures View() == old(View()).(quitting := true)
      ensures Valid()
    {
      GattProperties.Extend(coordinator.normalize, View(), Event.SetQuitting);
      quitting := true;
    }

    method ReleaseReservation(id: int)
      modifies this`reservations
      ensures View() == GattProtocol.ReleaseReservation(old(View()), id)
    {
      reservations := reservations - {id};
    }

    method ClearLocalSession(p: Profile)
      modifies this`sessions
      ensures View() == GattProtocol.ClearLocalSession(old(View()), p)
    {
      if p !in sessions {
        assert sessions - {p} == sessions;
        return;
      }
      sessions := sessions - {p};
    }

    method SendDelete(id: int, madeIn: int)
      modifies this`cleanups, this`nextCleanup, this`log
      ensures View() == old(View()).(cleanups := old(cleanups)[old(nextCleanup) := CleanupCall(id, Deleting, madeIn)],
                                     nextCleanup := old(nextCleanup) + 1,
                                     log := old(log) + [Request(DeleteSession, madeIn, sidecarGeneration)])
    {
      cleanups := cleanups[nextCleanup := CleanupCall(id, Deleting, madeIn)];
      nextCleanup := nextCleanup + 1;
      log := log + [Request(DeleteSession, madeIn, sidecarGeneration)];
    }

    method ReconcileRemoteSession(id: int)
      modifies this`reservations, this`cleanups, this`nextCleanup, this`log
      ensures View() == StartReconcile(old(View()), id)
    {
      if id !in reservations || !reservations[id].HasSid() { return; }
      var r := reservations[id].(attempts := reservations[id].attempts + 1);
      reservations := reservations[id := r];
      if r.token.None? {
        ReleaseReservation(id);
        return;
      }
      SendDelete(id, r.madeIn);
    }

    method BeginRemoteCleanup(id: int)
      modifies this`reservations, this`cleanups, this`nextCleanup, this`log
      ensures View() == GattProtocol.BeginRemoteCleanup(old(View()), id)
    {
      if id !in reservations || !reservations[id].HasSid() || reservations[id].cleaningUp { return; }
      reservations := reservations[id := reservations[id].(cleaningUp := true)];
      ReconcileRemoteSession(id);
    }

    method Disconnect(p: Profile)
      requires Valid()
      modifies this
      ensures View() == GattProtocol.Disconnect(old(View()), p)
      ensures Valid()
    {
      GattProperties.Extend(coordinator.normalize, View(), DisconnectCall(p));
      connectAttempts := connectAttempts - {p};
      if p !in sessions { return; }
      var id := sessions[p].attempt;
      ClearLocalSession(p);
      log := log + [Disconnected(p)];
      BeginRemoteCleanup(id);
    }

    /** `connect` up to its first await; false when the hold or the guard refuses it. */
    method Connect(lease: int, p: Profile, address: string) returns (started: bool)
      requires Valid() && lease in leases && leases[lease] == GattScan
      modifies this
      ensures View() == GattProtocol.Connect(coordinator.normalize, old(View()), lease, p, address)
      ensures started <==> !old(rnodeBondRecoveryExclusive)
                           && AssertCanConnect(coordinator.normalize, old(coordinator.connections), AllLinks(old(View())),
                                               old(coordinator.Scan()), Gatt(p), address)
      ensures Valid()
    {
      GattProperties.Extend(coordinator.normalize, View(), ConnectCall(lease, p, address));
      if rnodeBondRecoveryExclusive { return false; }
      var links := GetConnections();
      var admitted := coordinator.CanConnect(links, Gatt(p), address);
      if !admitted { return false; }
      Disconnect(p);
      StartAttempt(lease, p, address);
      started := true;
    }

    method BecomeCurrent(p: Profile)
      modifies this`nextAttempt, this`connectAttempts, this`latest
      ensures View() == old(View()).(nextAttempt := old(nextAttempt) + 1, latest := old(latest)[p := old(nextAttempt)],
                                     connectAttempts := old(connectAttempts)[p := old(nextAttempt)])
    {
      connectAttempts := connectAttempts[p := nextAttempt];
      latest := latest[p := nextAttempt];
      nextAttempt := nextAttempt + 1;
    }

    method StartAttempt(lease: int, p: Profile, address: string)
      modifies this
      ensures View() == AddAttempt(old(View()), lease, p, address)
    {
      var attempt := nextAttempt;
      BecomeCurrent(p);
      reservations := reservations[attempt := Reservation(p, address, 0, None, None, 0, false, 0, false)];
      calls := calls[attempt := Call(p, lease, if port > 0 then PortReady(Some(port)) else Ensuring(sidecarGeneration))];
    }

    method EnsurePortResumed(a: int, result: Option<int>)
      requires Valid() && a in calls && calls[a].pc.Ensuring?
      modifies this
      ensures View() == AfterEnsure(old(View()), a, result)
      ensures Valid()
    {
      GattProperties.Extend(coordinator.normalize, View(), EnsureSettled(a, result));
      var outcome := result;
      if result.Some? {
        if calls[a].pc.generation != sidecarGeneration {
          if port == result.value { port := 0; }
          outcome := None;
        } else {
          port := result.value;
        }
      }
      calls := calls[a := calls[a].(pc := PortReady(outcome))];
    }

    method ConnectFinally(a: int)
      requires a in calls
      modifies this
      ensures View() == Finish(old(View()), a)
    {
      var p := calls[a].profile;
      if p in connectAttempts && connectAttempts[p] == a { connectAttempts := connectAttempts - {p}; }
      if a in reservations && !reservations[a].HasSid() { ReleaseReservation(a); }
      calls := calls - {a};
    }

    method ConnectRejected(a: int)
      requires a in calls
      modifies this
      ensures View() == Rejected(old(View()), a)
    {
      var p := calls[a].profile;
      if p in connectAttempts && connectAttempts[p] == a {
        ClearLocalSession(p);
        BeginRemoteCleanup(a);
        log := log + [Aborted(p)];
      }
      ConnectFinally(a);
    }

    method ConnectWithPort(a: int)
      requires Valid() && a in calls && calls[a].pc.PortReady?
      modifies this
      ensures View() == AfterPort(old(View()), a)
      ensures Valid()
    {
      GattProperties.Extend(coordinator.normalize, View(), ResumeWithPort(a));
      var p := calls[a].profile;
      if calls[a].pc.port.None? {
        ConnectRejected(a);
        return;
      }
      if !(p in connectAttempts && connectAttempts[p] == a) {
        ConnectFinally(a);
        return;
      }
      if a in reservations {
        reservations := reservations[a := reservations[a].(port := calls[a].pc.port.value, token := authToken)];
      }
      calls := calls[a := calls[a].(pc := Posting(authToken.Some?, sidecarGeneration))];
    }

    method RecordAnswer(a: int, sid: Option<string>)
      requires a in calls && calls[a].pc.Posting?
      modifies this`reservations
      ensures View() == WithSid(old(View()), a, sid)
    {
      if sid.Some? && a in reservations {
        reservations := reservations[a := reservations[a].(sid := sid, madeIn := calls[a].pc.generation)];
      }
    }

    method InstallSession(a: int, sid: string)
      requires a in calls && calls[a].pc.Posting? && a in reservations
      modifies this
      ensures View() == Installed(old(View()), a, sid)
    {
      var call := calls[a];
      sessions := sessions[call.profile := Live(a, sid, call.pc.generation, reservations[a].address)];
      sockets := sockets[a := Socket(call.profile, Pending)];
      calls := calls[a := call.(pc := Opening)];
      log := log + [Request(EventSocket, call.pc.generation, sidecarGeneration)];
    }

    method FollowAnswer(a: int, ok: bool, sid: Option<string>, socketThrows: bool)
      requires a in calls && calls[a].pc.Posting?
      modifies this
      ensures View() == AfterAnswer(old(View()), a, ok, sid, socketThrows)
    {
      var p := calls[a].profile;
      if !(p in connectAttempts && connectAttempts[p] == a) {
        BeginRemoteCleanup(a);
        ConnectFinally(a);
      } else if !ok || sid.None? {
        BeginRemoteCleanup(a);
        log := log + [Aborted(p)];
        ConnectFinally(a);
      } else if a !in reservations || reservations[a].token.None? || socketThrows {
        ConnectRejected(a);
      } else {
        InstallSession(a, sid.value);
      }
    }

    method ConnectAnswered(a: int, outcome: PostOutcome)
      requires Valid() && a in calls && calls[a].pc.Posting? && (outcome.PostReply? ==> calls[a].pc.issued)
      modifies this
      ensures View() == AfterPost(old(View()), a, outcome)
      ensures Valid()
    {
      GattProperties.Extend(coordinator.normalize, View(), PostSettled(a, outcome));
      if outcome.PostThrew? {
        ConnectRejected(a);
      } else {
        RecordAnswer(a, outcome.sid);
        FollowAnswer(a, outcome.ok, outcome.sid, outcome.socketThrows);
      }
    }

    method ConnectReady(a: int)
      requires Valid() && a in calls && calls[a].pc.Opening? && a in sockets && sockets[a].ready != Pending
      modifies this
      ensures View() == AfterReady(old(View()), a)
      ensures Valid()
    {
      GattProperties.Extend(coordinator.normalize, View(), ReadySettled(a));
      var p := calls[a].profile;
      if sockets[a].ready == Failed {
        ConnectRejected(a);
        return;
      }
      if p in connectAttempts && connectAttempts[p] == a && p in sessions && sessions[p].attempt == a {
        log := log + [Connected(p)];
      }
      ConnectFinally(a);
    }

    /** The first open, error or close of a socket settles its `ready` promise. */
    method SettleReady(a: int, ready: Ready)
      requires a in sockets
      modifies this`sockets
      ensures View() == SettleSocket(old(View()), a, ready)
    {
      if sockets[a].ready == Pending { sockets := sockets[a := sockets[a].(ready := ready)]; }
    }

    method SocketOpened(a: int)
      requires Valid() && a in sockets
      modifies this
      ensures View() == SettleSocket(old(View()), a, Opened)
      ensures Valid()
    {
      GattProperties.Extend(coordinator.normalize, View(), Event.SocketOpened(a));
      SettleReady(a, Opened);
    }

    method SocketBroke(a: int)
      requires Valid() && a in sockets
      modifies this
      ensures View() == SocketGone(SettleSocket(old(View()), a, Failed), a)
      ensures Valid()
    {
      GattProperties.Extend(coordinator.normalize, View(), SocketBroken(a));
      SettleReady(a, Failed);
      SocketDisconnected(a);
    }

    method SocketSaidGone(a: int)
      requires Valid() && a in sockets
      modifies this
      ensures View() == SocketGone(old(View()), a)
      ensures Valid()
    {
      GattProperties.Extend(coordinator.normalize, View(), SocketSaysGone(a));
      SocketDisconnected(a);
    }

    /** `toRadio`, `isConnected` and `getRssi` ask the sidecar about the live session, if there is one. */
    method AskSession(p: Profile, kind: RequestKind) returns (sent: bool)
      requires Valid() && (kind.WriteSession? || kind.ProbeSession? || kind.ReadRssi?)
      modifies this`log
      ensures View() == Ask(old(View()), p, kind) && sent == (p in sessions)
      ensures Valid()
    {
      GattProperties.Extend(coordinator.normalize, View(), SessionCall(p, kind));
      sent := p in sessions;
      if sent { log := log + [Request(kind, sessions[p].madeIn, sidecarGeneration)]; }
    }

    method SocketDisconnected(a: int)
      requires a in sockets
      modifies this
      ensures View() == SocketGone(old(View()), a)
    {
      var p := sockets[a].profile;
      if p !in sessions || sessions[p].attempt != a { return; }
      ClearLocalSession(p);
      BeginRemoteCleanup(a);
      log := log + [Disconnected(p)];
    }

    method ReleaseAllReservations()
      modifies this`reservations
      ensures View() == old(View()).(reservations := map[])
    {
      while reservations != map[]
        invariant View() == old(View()).(reservations := reservations)
        decreases |reservations|
      {
        assert (forall id :: id !in reservations) ==> reservations == map[];
        var id :| id in reservations;
        ReleaseReservation(id);
      }
    }

    method DropAllSessions()
      modifies this`sessions, this`log
      ensures View() == old(View()).(sessions := map[], log := old(log) + ExitLog(old(View())))
    {
      ghost var before := sessions;
      if Meshtastic in sessions {
        ClearLocalSession(Meshtastic);
        log := log + [Disconnected(Meshtastic)];
      }
      assert sessions == before - {Meshtastic};
      if Meshcore in sessions {
        ClearLocalSession(Meshcore);
        log := log + [Disconnected(Meshcore)];
      }
      GattSteps.BothDropped(before);
    }

    method ForgetProcess()
      modifies this`port, this`authToken, this`sidecarGeneration, this`connectAttempts
      ensures View() == old(View()).(port := 0, token := None, generation := old(sidecarGeneration) + 1, connectAttempts := map[])
    {
      port, authToken := 0, None;
      sidecarGeneration := sidecarGeneration + 1;
      connectAttempts := map[];
    }

    method InvalidateAfterSidecarExit()
      requires Valid()
      modifies this
      ensures View() == AfterExit(old(View()))
      ensures Valid()
    {
      GattProperties.Extend(coordinator.normalize, View(), SidecarExited);
      ForgetProcess();
      ReleaseAllReservations();
      DropAllSessions();
    }

    /** Both profiles go before the first await, so the sweep after the race has nothing left to clear. */
    method DisconnectAll()
      requires Valid()
      modifies this
      ensures View() == GattProtocol.DisconnectAll(old(View()))
      ensures sessions == map[] && connectAttempts == map[]
      ensures Valid()
    {
      GattProperties.Extend(coordinator.normalize, View(), DisconnectAllCall);
      ghost var before := View();
      Disconnect(Meshtastic);
      GattSteps.DisconnectFrame(before, Meshtastic);
      ghost var middle := View();
      Disconnect(Meshcore);
      GattSteps.DisconnectFrame(middle, Meshcore);
      GattSteps.BothDropped(before.sessions);
      GattSteps.BothDropped(before.connectAttempts);
    }

    method DeleteAnswered(c: int, outcome: DeleteOutcome)
      requires Valid() && c in cleanups && cleanups[c].pc == Deleting
      modifies this
      ensures View() == AfterDelete(old(View()), c, outcome)
      ensures Valid()
    {
      GattProperties.Extend(coordinator.normalize, View(), DeleteSettled(c, outcome));
      var call := cleanups[c];
      if outcome == Confirmed || (outcome == DeleteThrew && quitting) {
        cleanups := cleanups - {c};
        ReleaseReservation(call.attempt);
        return;
      }
      if call.attempt !in reservations {
        cleanups := cleanups - {c};
        return;
      }
      cleanups := cleanups[c := call.(pc := Probing)];
      log := log + [Request(ProbeSession, call.madeIn, sidecarGeneration)];
    }

    method ProbeAnswered(c: int, gone: bool)
      requires Valid() && c in cleanups && cleanups[c].pc == Probing
      modifies this
      ensures View() == AfterProbe(old(View()), c, gone)
      ensures Valid()
    {
      GattProperties.Extend(coordinator.normalize, View(), ProbeSettled(c, gone));
      var id := cleanups[c].attempt;
      cleanups := cleanups - {c};
      if gone {
        ReleaseReservation(id);
        return;
      }
      if id !in reservations { return; }
      if reservations[id].attempts >= CLEANUP_MAX_ATTEMPTS {
        ReleaseReservation(id);
        return;
      }
      reservations := reservations[id := reservations[id].(timer := true)];
    }

    method CleanupTimerFired(id: int)
      requires Valid() && id in reservations && reservations[id].timer
      modifies this
      ensures View() == AfterTimer(old(View()), id)
      ensures Valid()
    {
      GattProperties.Extend(coordinator.normalize, View(), Event.CleanupTimerFired(id));
      reservations := reservations[id := reservations[id].(timer := false)];
      ReconcileRemoteSession(id);
    }

    method SetRnodeBondRecoveryExclusive(active: bool)
      requires Valid()
      modifies this
      ensures View() == SetHold(old(View()), active)
      ensures Valid()
    {
      GattProperties.Extend(coordinator.normalize, View(), SetExclusive(active));
      rnodeBondRecoveryExclusive := active;
      heldByRelease := active && heldByRelease;
    }

    method ExclusiveTimerFired()
      requires Valid()
      modifies this
      ensures View() == HoldExpired(old(View()))
      ensures Valid()
    {
      GattProperties.Extend(coordinator.normalize, View(), ExclusiveExpired);
      if rnodeBondRecoveryExclusive {
        rnodeBondRecoveryExclusive := false;
        heldByRelease := false;
      }
    }

    method ReleaseBleCentral()
      requires Valid()
      modifies this
      ensures View() == Release(old(View()))
      ensures !old(rnodeBondRecoveryExclusive) ==> sessions == map[] && connectAttempts == map[]
      ensures Valid()
    {
      GattProperties.Extend(coordinator.normalize, View(), ReleaseCentral);
      var alreadyExclusive := rnodeBondRecoveryExclusive;
      SetRnodeBondRecoveryExclusive(true);
      if alreadyExclusive { return; }
      DisconnectAll();
      heldByRelease := true;
    }

    // The coordinator, wired to this proxy's links

    /** `withScan` begins: a granted scan is a lease. */
    method AcquireScan(owner: ScanOwner) returns (grant: ScanGrant, lease: int)
      requires Valid() && coordinator.Settled()
      modifies this, coordinator
      ensures coordinator.Settled() && View() == Acquire(old(View()), owner)
      ensures grant == AfterAcquire(old(coordinator.Scan()), owner).1
      ensures grant.Granted? ==> lease in leases && leases[lease] == owner
      ensures Valid()
    {
      GattProperties.Extend(coordinator.normalize, View(), ScanAcquire(owner));
      lease := nextLease;
      grant := coordinator.AcquireScan(owner);
      if grant.Granted? {
        leases := leases[nextLease := owner];
        nextLease := nextLease + 1;
      }
    }

    /** `withScan` ends, after the operation it ran. */
    method ReleaseScan(lease: int)
      requires Valid() && lease in leases && forall a | a in calls :: calls[a].lease != lease
      modifies this, coordinator
      ensures View() == old(View()).(scan := AfterRelease(old(coordinator.Scan()), old(leases)[lease]), leases := old(leases) - {lease})
      ensures Valid()
    {
      GattProperties.Extend(coordinator.normalize, View(), ScanRelease(lease));
      coordinator.ReleaseScan(leases[lease]);
      leases := leases - {lease};
    }

    method RegisterPeripheral(mac: string, owner: Owner) returns (ok: bool)
      requires Valid()
      modifies coordinator
      ensures View() == old(View()).(registry := AfterRegister(coordinator.normalize, old(coordinator.connections),
                                                                AllLinks(old(View())), mac, owner))
      ensures Valid()
    {
      GattProperties.Extend(coordinator.normalize, View(), RegisterMac(mac, owner));
      var links := GetConnections();
      ok := coordinator.Register(links, mac, owner);
    }

    method UnregisterPeripheral(mac: string, owner: Owner)
      requires Valid()
      modifies coordinator
      ensures View() == old(View()).(registry := AfterUnregister(coordinator.normalize, old(coordinator.connections), mac, owner))
      ensures Valid()
    {
      GattProperties.Extend(coordinator.normalize, View(), UnregisterMac(mac, owner));
      coordinator.Unregister(mac, owner);
    }
  }
}
