/** Every step of the GATT proxy keeps the invariant. */
module GattSteps {
  import opened Wrappers
  import opened Coexistence
  import opened GattProtocol
  import opened GattInvariants

  // Weakening and frames

  lemma Weaken(normalize: string -> string, s: State, stray: int, ending: int)
    requires Inv(normalize, s)
    ensures Mid(normalize, s, stray, ending)
  {
  }

  /** A call that has not reached its socket has no live session. */
  lemma EarlyCallNotLive(normalize: string -> string, s: State, a: int)
    requires Inv(normalize, s) && a in s.calls && !s.calls[a].pc.Opening?
    ensures NotLive(s.sessions, a)
  {
  }

  lemma OnlyOwnSession(normalize: string -> string, s: State, a: int, ending: int)
    requires Mid(normalize, s, a, ending) && a in s.calls
    ensures forall q | q in s.sessions && s.sessions[q].attempt == a :: q == s.calls[a].profile
  {
  }

  /** The reservations of `ts` are reservations of `rs` for the same profile and address. */
  ghost predicate SameMacs(rs: Reservations, ts: Reservations) {
    forall a | a in ts :: a in rs && ts[a].profile == rs[a].profile && ts[a].address == rs[a].address
  }

  /** A disconnect or a cleanup touches sessions, attempts and teardowns, and adds no reservation. */
  ghost predicate SameLinks(s: State, t: State) {
    && t == s.(sessions := t.sessions, connectAttempts := t.connectAttempts, reservations := t.reservations,
               cleanups := t.cleanups, nextCleanup := t.nextCleanup, log := t.log)
    && SameMacs(s.reservations, t.reservations)
  }

  lemma RoundSameMacs(rs: Reservations, cleanups: Cleanups, n: int, generation: int, a: int)
    ensures SameMacs(rs, StartRound(rs, cleanups, n, generation, a).reservations)
    ensures SameMacs(rs, BeginRound(rs, cleanups, n, generation, a).reservations)
  {
  }

  lemma CleanupFrame(s: State, a: int)
    ensures SameLinks(s, BeginRemoteCleanup(s, a))
  {
    RoundSameMacs(s.reservations, s.cleanups, s.nextCleanup, s.generation, a);
  }

  // disconnect

  lemma DropAttemptKeeps(normalize: string -> string, s: State, p: Profile)
    requires Inv(normalize, s)
    ensures Inv(normalize, s.(connectAttempts := s.connectAttempts - {p}))
  {
    assert s.connectAttempts == map[] ==> s.connectAttempts - {p} == map[];
  }

  lemma DisconnectKeeps(normalize: string -> string, s: State, p: Profile)
    requires Inv(normalize, s)
    ensures Inv(normalize, Disconnect(s, p))
  {
    var dropped := s.(connectAttempts := s.connectAttempts - {p});
    DropAttemptKeeps(normalize, s, p);
    if p in s.sessions {
      ClearToldKeeps(normalize, dropped, p, NOBODY);
      var cleared := Emit(ClearLocalSession(dropped, p), Disconnected(p));
      CleanupKeeps(normalize, cleared, s.sessions[p].attempt, NOBODY);
    }
  }

  lemma DisconnectFrame(s: State, p: Profile)
    ensures SameLinks(s, Disconnect(s, p))
    ensures Disconnect(s, p).sessions == s.sessions - {p}
    ensures Disconnect(s, p).connectAttempts == s.connectAttempts - {p}
  {
    if p in s.sessions {
      var cleared := Emit(ClearLocalSession(s.(connectAttempts := s.connectAttempts - {p}), p), Disconnected(p));
      CleanupFrame(cleared, s.sessions[p].attempt);
    } else {
      assert s.sessions - {p} == s.sessions;
    }
  }

  lemma BothDropped<T>(m: map<Profile, T>)
    ensures (m - {Meshtastic}) - {Meshcore} == map[]
  {
    forall p | p in m ensures p in {Meshtastic, Meshcore} {
      assert p.Meshtastic? || p.Meshcore?;
    }
  }

  lemma DisconnectAllKeeps(normalize: string -> string, s: State)
    requires Inv(normalize, s)
    ensures Inv(normalize, DisconnectAll(s))
    ensures DisconnectAll(s).sessions == map[] && DisconnectAll(s).connectAttempts == map[]
    ensures SameLinks(s, DisconnectAll(s))
  {
    DisconnectKeeps(normalize, s, Meshtastic);
    DisconnectFrame(s, Meshtastic);
    DisconnectKeeps(normalize, Disconnect(s, Meshtastic), Meshcore);
    DisconnectFrame(Disconnect(s, Meshtastic), Meshcore);
    BothDropped(s.sessions);
    BothDropped(s.connectAttempts);
  }

  // The catch block

  lemma RejectedKeeps(normalize: string -> string, s: State, a: int)
    requires a in s.calls && Mid(normalize, s, a, a)
    requires (IsCurrent(s, s.calls[a].profile, a) && s.calls[a].profile !in s.sessions) || Mid(normalize, s, NOBODY, a)
    ensures Inv(normalize, Rejected(s, a))
  {
    hide Mid, Finish, BeginRemoteCleanup;
    var p := s.calls[a].profile;
    if !IsCurrent(s, p, a) {
      FinishKeeps(normalize, s, a);
    } else {
      AbortedKeeps(normalize, s, a);
      CleanupEnds(normalize, ClearLocalSession(s, p), a);
    }
  }

  /** The `catch` block drops the session that was never announced. */
  lemma AbortedKeeps(normalize: string -> string, s: State, a: int)
    requires a in s.calls && Mid(normalize, s, a, a) && IsCurrent(s, s.calls[a].profile, a)
    requires s.calls[a].profile !in s.sessions || Mid(normalize, s, NOBODY, a)
    ensures Mid(normalize, ClearLocalSession(s, s.calls[a].profile), a, a)
    ensures NotLive(s.sessions - {s.calls[a].profile}, a)
  {
    var p := s.calls[a].profile;
    OnlyOwnSession(normalize, s, a, a);
    if p in s.sessions {
      assert s.sessions[p].attempt == a && !Up(s.log, p);
      hide Mid;
      ClearSilentKeeps(normalize, s, p, a);
    } else {
      assert s.sessions - {p} == s.sessions;
    }
  }

  // connect, up to its first await

  /** The guard admits a profile only when every holder of that MAC is the profile itself. */
  lemma GuardAdmits(normalize: string -> string, s: State, p: Profile, address: string)
    requires Inv(normalize, s) && AssertCanConnect(normalize, s.registry, AllLinks(s), s.scan, Gatt(p), address)
    ensures normalize(address) != "" ==>
              (forall b | b in s.reservations && normalize(s.reservations[b].address) == normalize(address) ::
                s.reservations[b].profile == p)
    ensures normalize(address) in s.registry ==> s.registry[normalize(address)] == Gatt(p)
  {
    var key := normalize(address);
    if key != "" {
      MacsAreOwned(normalize, s);
      FreeMeansNoOtherHolder(normalize, s.registry, AllLinks(s), Gatt(p), key);
      forall b | b in s.reservations && normalize(s.reservations[b].address) == key
        ensures s.reservations[b].profile == p
      {
        LinkOf(s.reservations, s.nextAttempt, b);
        assert Holds(normalize, s.registry, AllLinks(s), key, Gatt(s.reservations[b].profile));
      }
      if key in s.registry { assert Holds(normalize, s.registry, AllLinks(s), key, s.registry[key]); }
    }
  }

  lemma {:induction false} LinkOf(rs: Reservations, n: int, a: int)
    requires a in rs && 0 <= a < n
    ensures exists i :: 0 <= i < |Links(rs, n)| && Links(rs, n)[i] == LinkEntry(rs[a].address, Gatt(rs[a].profile))
  {
    if a == n - 1 {
      assert Links(rs, n)[|Links(rs, n)| - 1] == LinkEntry(rs[a].address, Gatt(rs[a].profile));
    } else {
      LinkOf(rs, n - 1, a);
      var i :| 0 <= i < |Links(rs, n - 1)| && Links(rs, n - 1)[i] == LinkEntry(rs[a].address, Gatt(rs[a].profile));
      assert Links(rs, n)[i] == Links(rs, n - 1)[i];
    }
  }

  lemma {:induction false} ReservationOf(rs: Reservations, n: int, i: int) returns (a: int)
    requires 0 <= i < |Links(rs, n)|
    ensures a in rs && Links(rs, n)[i] == LinkEntry(rs[a].address, Gatt(rs[a].profile))
    decreases n
  {
    if n - 1 in rs && i == |Links(rs, n)| - 1 {
      a := n - 1;
    } else {
      assert Links(rs, n)[i] == Links(rs, n - 1)[i];
      a := ReservationOf(rs, n - 1, i);
    }
  }

  /** The invariant's reading of the reservations is the coordinator's reading of the links. */
  lemma MacsAreOwned(normalize: string -> string, s: State)
    requires Numbered(s.reservations, s.calls, s.sockets, s.latest, s.nextAttempt)
    ensures MacsOwned(normalize, s.registry, s.reservations) <==> OneOwner(normalize, s.registry, AllLinks(s))
  {
    var links := AllLinks(s);
    if MacsOwned(normalize, s.registry, s.reservations) {
      forall key, o1, o2 | key != "" && Holds(normalize, s.registry, links, key, o1) && Holds(normalize, s.registry, links, key, o2)
        ensures o1 == o2
      {
        var a := HolderOf(normalize, s, key, o1);
        var b := HolderOf(normalize, s, key, o2);
      }
    }
    if OneOwner(normalize, s.registry, links) {
      forall a | a in s.reservations
        ensures Holds(normalize, s.registry, links, normalize(s.reservations[a].address), Gatt(s.reservations[a].profile))
      {
        LinkOf(s.reservations, s.nextAttempt, a);
      }
      forall key | key in s.registry ensures Holds(normalize, s.registry, links, key, s.registry[key]) { }
    }
  }

  /** Who stands behind a holder of `key`: a reservation, or the registry (answered by NOBODY). */
  lemma HolderOf(normalize: string -> string, s: State, key: string, o: Owner) returns (a: int)
    requires Holds(normalize, s.registry, AllLinks(s), key, o)
    ensures (key in s.registry && s.registry[key] == o) ||
            (a in s.reservations && normalize(s.reservations[a].address) == key && o == Gatt(s.reservations[a].profile))
  {
    a := NOBODY;
    if !(key in s.registry && s.registry[key] == o) {
      var i :| 0 <= i < |AllLinks(s)| && normalize(AllLinks(s)[i].mac) == key && AllLinks(s)[i].owner == o;
      a := ReservationOf(s.reservations, s.nextAttempt, i);
    }
  }

  lemma NewMac(normalize: string -> string, registry: Registry, rs: Reservations, a: int, r: Reservation)
    requires MacsOwned(normalize, registry, rs)
    requires normalize(r.address) != "" ==>
               (forall b | b in rs && normalize(rs[b].address) == normalize(r.address) :: rs[b].profile == r.profile)
    requires normalize(r.address) in registry ==> registry[normalize(r.address)] == Gatt(r.profile)
    ensures MacsOwned(normalize, registry, rs[a := r])
  {
  }

  lemma NewPhased(rs: Reservations, sessions: Sessions, calls: Calls, cleanups: Cleanups, nextAttempt: int, nextCleanup: int,
                  latest: Attempts, sockets: Sockets, a: int, r: Reservation, call: Call)
    requires a == nextAttempt && Numbered(rs, calls, sockets, latest, a) && Phased(rs, sessions, calls, cleanups, NOBODY)
    requires CleanupsNumbered(cleanups, nextAttempt, nextCleanup)
    requires r.sid == None && !r.cleaningUp && !r.timer && r.attempts == 0
    ensures Phased(rs[a := r], sessions, calls[a := call], cleanups, NOBODY)
  {
  }

  lemma NewCall(rs: Reservations, sessions: Sessions, attempts: Attempts, latest: Attempts, calls: Calls, sockets: Sockets,
                a: int, r: Reservation, call: Call)
    requires Numbered(rs, calls, sockets, latest, a)
    requires AttemptsInFlight(attempts, latest, calls) && CurrentHolds(calls, attempts, rs, sessions, NOBODY)
    requires call.profile !in sessions && call.profile !in attempts
    ensures Numbered(rs[a := r], calls[a := call], sockets, latest[call.profile := a], a + 1)
    ensures AttemptsInFlight(attempts[call.profile := a], latest[call.profile := a], calls[a := call])
    ensures CurrentHolds(calls[a := call], attempts[call.profile := a], rs[a := r], sessions, NOBODY)
  {
  }

  lemma NewOwner(rs: Reservations, latest: Attempts, calls: Calls, sockets: Sockets, generation: int, a: int, r: Reservation, call: Call)
    requires Numbered(rs, calls, sockets, latest, a) && CallsOwn(calls, sockets, rs, NOBODY) && Fresh(generation, rs, calls)
    requires r.profile == call.profile && r.sid == None && !call.pc.Opening? && !call.pc.Posting?
    ensures CallsOwn(calls[a := call], sockets, rs[a := r], NOBODY) && Fresh(generation, rs[a := r], calls[a := call])
  {
  }

  lemma NewSessions(rs: Reservations, sessions: Sessions, latest: Attempts, calls: Calls, sockets: Sockets, cleanups: Cleanups,
                    log: seq<Output>, generation: int, nextCleanup: int, a: int, r: Reservation, call: Call)
    requires Numbered(rs, calls, sockets, latest, a) && CleanupsNumbered(cleanups, a, nextCleanup)
    requires SessionsNewest(sessions, latest, sockets, calls, generation) && SessionsBacked(sessions, rs, calls)
    requires CleanupsFresh(generation, rs, cleanups) && Announced(log, sessions, calls)
    requires call.profile !in sessions
    ensures SessionsNewest(sessions, latest[call.profile := a], sockets, calls[a := call], generation)
    ensures SessionsBacked(sessions, rs[a := r], calls[a := call])
    ensures CleanupsFresh(generation, rs[a := r], cleanups) && CleanupsNumbered(cleanups, a + 1, nextCleanup)
    ensures Announced(log, sessions, calls[a := call])
  {
  }

  lemma NewLeased(scan: ScanLock, leases: map<int, ScanOwner>, nextLease: int, calls: Calls, a: int, call: Call,
                  exclusive: bool, sessions: Sessions, attempts: Attempts)
    requires Leased(scan, leases, nextLease, calls) && call.lease in leases && leases[call.lease] == GattScan
    ensures Leased(scan, leases, nextLease, calls[a := call]) && Held(false, exclusive, sessions, attempts)
  {
  }

  /** A fresh attempt whose MAC nobody else holds joins a profile that was just disconnected. */
  lemma AddAttemptKeeps(normalize: string -> string, d: State, lease: int, p: Profile, address: string)
    requires Inv(normalize, d) && !d.heldByRelease
    requires lease in d.leases && d.leases[lease] == GattScan && p !in d.sessions && p !in d.connectAttempts
    requires normalize(address) != "" ==>
               (forall b | b in d.reservations && normalize(d.reservations[b].address) == normalize(address) ::
                 d.reservations[b].profile == p)
    requires normalize(address) in d.registry ==> d.registry[normalize(address)] == Gatt(p)
    ensures Inv(normalize, AddAttempt(d, lease, p, address))
  {
    hide Numbered, CleanupsNumbered, AttemptsInFlight, CallsOwn, CurrentHolds, SessionsNewest, SessionsBacked, Phased, Fresh;
    hide CleanupsFresh, Logged, MacsOwned, Held, Leased, Announced;
    var a, t := d.nextAttempt, AddAttempt(d, lease, p, address);
    var r, call := t.reservations[a], t.calls[a];
    NewMac(normalize, d.registry, d.reservations, a, r);
    NewPhased(d.reservations, d.sessions, d.calls, d.cleanups, a, d.nextCleanup, d.latest, d.sockets, a, r, call);
    NewLeased(d.scan, d.leases, d.nextLease, d.calls, a, call, d.exclusive, d.sessions, t.connectAttempts);
    NewCall(d.reservations, d.sessions, d.connectAttempts, d.latest, d.calls, d.sockets, a, r, call);
    NewOwner(d.reservations, d.latest, d.calls, d.sockets, d.generation, a, r, call);
    NewSessions(d.reservations, d.sessions, d.latest, d.calls, d.sockets, d.cleanups, d.log, d.generation, d.nextCleanup, a, r, call);
  }

  lemma NotHeld(normalize: string -> string, s: State)
    requires Inv(normalize, s) && !s.exclusive
    ensures !s.heldByRelease
  {
  }

  lemma ConnectKeeps(normalize: string -> string, s: State, lease: int, p: Profile, address: string)
    requires Inv(normalize, s) && Enabled(s, ConnectCall(lease, p, address))
    ensures Inv(normalize, Connect(normalize, s, lease, p, address))
  {
    hide Mid, AddAttempt, Disconnect, AssertCanConnect, AllLinks;
    if !s.exclusive && AssertCanConnect(normalize, s.registry, AllLinks(s), s.scan, Gatt(p), address) {
      DisconnectKeeps(normalize, s, p);
      DisconnectFrame(s, p);
      NotHeld(normalize, s);
      GuardAdmits(normalize, s, p, address);
      AddAttemptKeeps(normalize, Disconnect(s, p), lease, p, address);
    }
  }

  // connect, between its awaits

  lemma PcOnly(rs: Reservations, sessions: Sessions, attempts: Attempts, latest: Attempts, calls: Calls, sockets: Sockets,
               cleanups: Cleanups, generation: int, a: int, pc: Pc, nextAttempt: int)
    requires a in calls && !calls[a].pc.Opening? && !pc.Opening?
    requires Numbered(rs, calls, sockets, latest, nextAttempt) && AttemptsInFlight(attempts, latest, calls)
    requires CallsOwn(calls, sockets, rs, NOBODY) && CurrentHolds(calls, attempts, rs, sessions, NOBODY)
    requires SessionsNewest(sessions, latest, sockets, calls, generation) && SessionsBacked(sessions, rs, calls)
    requires Fresh(generation, rs, calls)
    requires pc.Posting? && a in rs ==> pc.generation == generation && (pc.issued ==> rs[a].token.Some?)
    ensures var moved := calls[a := calls[a].(pc := pc)];
            && Numbered(rs, moved, sockets, latest, nextAttempt) && AttemptsInFlight(attempts, latest, moved)
            && CallsOwn(moved, sockets, rs, NOBODY) && CurrentHolds(moved, attempts, rs, sessions, NOBODY)
            && SessionsNewest(sessions, latest, sockets, moved, generation) && SessionsBacked(sessions, rs, moved)
            && Fresh(generation, rs, moved)
  {
  }

  lemma PcPhased(rs: Reservations, sessions: Sessions, calls: Calls, cleanups: Cleanups, log: seq<Output>, scan: ScanLock,
                 leases: map<int, ScanOwner>, nextLease: int, a: int, pc: Pc)
    requires a in calls
    requires Phased(rs, sessions, calls, cleanups, NOBODY) && Announced(log, sessions, calls) && Leased(scan, leases, nextLease, calls)
    ensures var moved := calls[a := calls[a].(pc := pc)];
            Phased(rs, sessions, moved, cleanups, NOBODY) && Announced(log, sessions, moved) && Leased(scan, leases, nextLease, moved)
  {
  }

  function WithPc(s: State, a: int, pc: Pc): State
    requires a in s.calls
  {
    s.(calls := s.calls[a := s.calls[a].(pc := pc)])
  }

  lemma WithPcKeeps(normalize: string -> string, s: State, a: int, pc: Pc)
    requires Inv(normalize, s) && a in s.calls && !s.calls[a].pc.Opening? && !pc.Opening?
    requires pc.Posting? && a in s.reservations ==>
               pc.generation == s.generation && (pc.issued ==> s.reservations[a].token.Some?)
    ensures Inv(normalize, WithPc(s, a, pc))
  {
    hide Numbered, CleanupsNumbered, AttemptsInFlight, CallsOwn, CurrentHolds, SessionsNewest, SessionsBacked, Phased, Fresh;
    hide CleanupsFresh, Logged, MacsOwned, Held, Leased, Announced;
    PcOnly(s.reservations, s.sessions, s.connectAttempts, s.latest, s.calls, s.sockets, s.cleanups, s.generation, a, pc, s.nextAttempt);
    PcPhased(s.reservations, s.sessions, s.calls, s.cleanups, s.log, s.scan, s.leases, s.nextLease, a, pc);
  }

  /** Port, token and the quit latch are not part of the invariant. */
  lemma EndpointKeeps(normalize: string -> string, s: State, port: int, token: Option<Token>, quitting: bool)
    requires Inv(normalize, s)
    ensures Inv(normalize, s.(port := port, token := token, quitting := quitting))
  {
  }

  lemma PortFieldKeeps(normalize: string -> string, s: State, port: int)
    requires Inv(normalize, s)
    ensures Inv(normalize, s.(port := port))
  {
  }

  lemma EnsureKeeps(normalize: string -> string, s: State, a: int, result: Option<int>)
    requires Inv(normalize, s) && a in s.calls && s.calls[a].pc.Ensuring?
    ensures Inv(normalize, AfterEnsure(s, a, result))
  {
    hide Mid;
    var t := AfterEnsure(s, a, result);
    PortFieldKeeps(normalize, s, t.port);
    WithPcKeeps(normalize, s.(port := t.port), a, t.calls[a].pc);
  }

  /** Pinning port and token of an anonymous reservation. */
  lemma PinKeeps(normalize: string -> string, s: State, a: int, port: int)
    requires Inv(normalize, s) && a in s.calls && s.calls[a].pc.PortReady? && a in s.reservations
    ensures Inv(normalize, s.(reservations := s.reservations[a := s.reservations[a].(port := port, token := s.token)]))
  {
    var r := s.reservations[a].(port := port, token := s.token);
    PinReservations(normalize, s.registry, s.reservations, s.sessions, s.connectAttempts, s.calls, s.sockets, s.generation, a, r);
    PinPhased(s.reservations, s.sessions, s.calls, s.cleanups, a, r);
  }

  lemma PinReservations(normalize: string -> string, registry: Registry, rs: Reservations, sessions: Sessions,
                        attempts: Attempts, calls: Calls, sockets: Sockets, generation: int, a: int, r: Reservation)
    requires a in rs && a in calls && calls[a].pc.PortReady?
    requires r == rs[a].(port := r.port, token := r.token) && rs[a].sid == None
    ensures MacsOwned(normalize, registry, rs) ==> MacsOwned(normalize, registry, rs[a := r])
    ensures SessionsBacked(sessions, rs, calls) ==> SessionsBacked(sessions, rs[a := r], calls)
    ensures CurrentHolds(calls, attempts, rs, sessions, NOBODY) ==> CurrentHolds(calls, attempts, rs[a := r], sessions, NOBODY)
    ensures CallsOwn(calls, sockets, rs, NOBODY) ==> CallsOwn(calls, sockets, rs[a := r], NOBODY)
    ensures Fresh(generation, rs, calls) ==> Fresh(generation, rs[a := r], calls)
  {
  }

  lemma PinPhased(rs: Reservations, sessions: Sessions, calls: Calls, cleanups: Cleanups, a: int, r: Reservation)
    requires a in rs && rs[a].sid == None && r == rs[a].(port := r.port, token := r.token)
    requires Phased(rs, sessions, calls, cleanups, NOBODY)
    ensures Phased(rs[a := r], sessions, calls, cleanups, NOBODY)
  {
  }

  lemma PortKeeps(normalize: string -> string, s: State, a: int)
    requires Inv(normalize, s) && a in s.calls && s.calls[a].pc.PortReady?
    ensures Inv(normalize, AfterPort(s, a))
  {
    Weaken(normalize, s, a, a);
    Weaken(normalize, s, NOBODY, a);
    if s.calls[a].pc.port.None? {
      RejectedKeeps(normalize, s, a);
    } else if !IsCurrent(s, s.calls[a].profile, a) {
      FinishKeeps(normalize, s, a);
    } else {
      assert a in s.reservations;
      PinKeeps(normalize, s, a, s.calls[a].pc.port.value);
      var r := s.reservations[a].(port := s.calls[a].pc.port.value, token := s.token);
      WithPcKeeps(normalize, s.(reservations := s.reservations[a := r]), a, Posting(s.token.Some?, s.generation));
    }
  }

  // connect, after the create-session request

  /** Recording the session id turns the anonymous reservation into a stray of this call. */
  lemma NameKeeps(normalize: string -> string, s: State, a: int, sid: Option<string>)
    requires Inv(normalize, s) && a in s.calls && s.calls[a].pc.Posting? && s.calls[a].pc.issued && a in s.reservations
    ensures Mid(normalize, WithSid(s, a, sid), a, a)
  {
    hide Numbered, CleanupsNumbered, AttemptsInFlight, CallsOwn, CurrentHolds, SessionsNewest, SessionsBacked, Phased, Fresh;
    hide CleanupsFresh, Logged, MacsOwned, Held, Leased, Announced;
    if sid.None? {
      Weaken(normalize, s, a, a);
    } else {
      EarlyCallNotLive(normalize, s, a);
      var r := s.reservations[a].(sid := sid, madeIn := s.calls[a].pc.generation);
      NameReservations(normalize, s.registry, s.reservations, s.sessions, s.connectAttempts, s.latest, s.calls, s.sockets,
                       s.cleanups, s.generation, s.nextAttempt, a, r);
      NamePhased(s.reservations, s.sessions, s.latest, s.calls, s.sockets, s.cleanups, s.nextAttempt, a, r);
    }
  }

  lemma NameReservations(normalize: string -> string, registry: Registry, rs: Reservations, sessions: Sessions,
                         attempts: Attempts, latest: Attempts, calls: Calls, sockets: Sockets, cleanups: Cleanups,
                         generation: int, nextAttempt: int, a: int, r: Reservation)
    requires a in rs && a in calls && calls[a].pc.Posting? && calls[a].pc.issued && NotLive(sessions, a)
    requires r == rs[a].(sid := r.sid, madeIn := calls[a].pc.generation)
    requires Numbered(rs, calls, sockets, latest, nextAttempt)
    ensures Numbered(rs[a := r], calls, sockets, latest, nextAttempt)
    ensures MacsOwned(normalize, registry, rs) ==> MacsOwned(normalize, registry, rs[a := r])
    ensures SessionsBacked(sessions, rs, calls) ==> SessionsBacked(sessions, rs[a := r], calls)
    ensures CurrentHolds(calls, attempts, rs, sessions, NOBODY) ==> CurrentHolds(calls, attempts, rs[a := r], sessions, a)
    ensures CallsOwn(calls, sockets, rs, NOBODY) ==> CallsOwn(calls, sockets, rs[a := r], a)
    ensures Fresh(generation, rs, calls) ==> Fresh(generation, rs[a := r], calls)
    ensures CleanupsFresh(generation, rs, cleanups) ==> CleanupsFresh(generation, rs[a := r], cleanups)
  {
  }

  lemma NamePhased(rs: Reservations, sessions: Sessions, latest: Attempts, calls: Calls, sockets: Sockets, cleanups: Cleanups,
                   nextAttempt: int, a: int, r: Reservation)
    requires a in rs && a in calls && calls[a].pc.Posting? && NotLive(sessions, a)
    requires CallsOwn(calls, sockets, rs, NOBODY) && Numbered(rs, calls, sockets, latest, nextAttempt)
    requires r == rs[a].(sid := r.sid, madeIn := r.madeIn)
    requires Phased(rs, sessions, calls, cleanups, NOBODY)
    ensures Phased(rs[a := r], sessions, calls, cleanups, a)
  {
  }

  /** The session goes live under the attempt that asked for it. */
  lemma InstallKeeps(normalize: string -> string, s: State, a: int, sid: string)
    requires a in s.calls && a in s.reservations && s.calls[a].pc.Posting? && Mid(normalize, s, a, a)
    requires IsCurrent(s, s.calls[a].profile, a) && s.calls[a].profile !in s.sessions
    requires s.reservations[a].sid == Some(sid) && s.calls[a].pc.generation == s.generation && !s.reservations[a].cleaningUp
    ensures Inv(normalize, Installed(s, a, sid))
  {
    hide Numbered, CleanupsNumbered, AttemptsInFlight, CallsOwn, CurrentHolds, SessionsNewest, SessionsBacked, Phased, Fresh;
    hide CleanupsFresh, Logged, MacsOwned, Held, Leased, Announced;
    var live := Live(a, sid, s.generation, s.reservations[a].address);
    var request := Request(EventSocket, s.generation, s.generation);
    InstallSessions(s.reservations, s.sessions, s.connectAttempts, s.latest, s.calls, s.sockets, s.generation, a, live);
    InstallCalls(s.reservations, s.sessions, s.connectAttempts, s.latest, s.calls, s.sockets, s.generation, a, live, s.nextAttempt);
    InstallPhased(s.reservations, s.sessions, s.calls, s.sockets, s.cleanups, a, live);
    InstallHeld(s.heldByRelease, s.exclusive, s.sessions, s.connectAttempts, s.calls[a].profile, live);
    InstallAnnounced(s.log, s.sessions, s.calls, s.scan, s.leases, s.nextLease, a, live, request);
  }

  lemma InstallSessions(rs: Reservations, sessions: Sessions, attempts: Attempts, latest: Attempts, calls: Calls, sockets: Sockets,
                        generation: int, a: int, live: Live)
    requires a in calls && a in rs && live.attempt == a && live.madeIn == generation && rs[a].sid == Some(live.sid)
    requires live.address == rs[a].address
    requires !rs[a].cleaningUp && calls[a].profile in attempts && attempts[calls[a].profile] == a
    requires AttemptsInFlight(attempts, latest, calls) && CallsOwn(calls, sockets, rs, a)
    requires SessionsNewest(sessions, latest, sockets, calls, generation) && SessionsBacked(sessions, rs, calls)
    ensures var p := calls[a].profile;
            var moved := calls[a := calls[a].(pc := Opening)];
            && SessionsNewest(sessions[p := live], latest, sockets[a := Socket(p, Pending)], moved, generation)
            && SessionsBacked(sessions[p := live], rs, moved)
  {
  }

  lemma InstallCalls(rs: Reservations, sessions: Sessions, attempts: Attempts, latest: Attempts, calls: Calls, sockets: Sockets,
                     generation: int, a: int, live: Live, nextAttempt: int)
    requires a in calls && calls[a].profile in attempts && attempts[calls[a].profile] == a
    requires Numbered(rs, calls, sockets, latest, nextAttempt) && AttemptsInFlight(attempts, latest, calls)
    requires CallsOwn(calls, sockets, rs, a) && CurrentHolds(calls, attempts, rs, sessions, a) && Fresh(generation, rs, calls)
    ensures var p := calls[a].profile;
            var moved := calls[a := calls[a].(pc := Opening)];
            && Numbered(rs, moved, sockets[a := Socket(p, Pending)], latest, nextAttempt)
            && AttemptsInFlight(attempts, latest, moved)
            && CallsOwn(moved, sockets[a := Socket(p, Pending)], rs, NOBODY)
            && CurrentHolds(moved, attempts, rs, sessions[p := live], NOBODY)
            && Fresh(generation, rs, moved)
  {
  }

  lemma InstallPhased(rs: Reservations, sessions: Sessions, calls: Calls, sockets: Sockets, cleanups: Cleanups, a: int, live: Live)
    requires a in calls && a in rs && live.attempt == a && rs[a].sid == Some(live.sid) && CallsOwn(calls, sockets, rs, a)
    requires calls[a].profile !in sessions && !rs[a].cleaningUp
    requires Phased(rs, sessions, calls, cleanups, a)
    ensures Phased(rs, sessions[calls[a].profile := live], calls[a := calls[a].(pc := Opening)], cleanups, NOBODY)
  {
  }

  /** A profile with a current attempt is under no hold. */
  lemma InstallHeld(held: bool, exclusive: bool, sessions: Sessions, attempts: Attempts, p: Profile, live: Live)
    requires p in attempts && Held(held, exclusive, sessions, attempts)
    ensures Held(held, exclusive, sessions[p := live], attempts)
  {
  }

  lemma InstallAnnounced(log: seq<Output>, sessions: Sessions, calls: Calls, scan: ScanLock, leases: map<int, ScanOwner>,
                         nextLease: int, a: int, live: Live, request: Output)
    requires Logged(log) && request.Request? && request.madeIn == request.sentIn
    requires a in calls && calls[a].profile !in sessions && Announced(log, sessions, calls) && Leased(scan, leases, nextLease, calls)
    ensures var moved := calls[a := calls[a].(pc := Opening)];
            && Announced(log + [request], sessions[calls[a].profile := live], moved) && Logged(log + [request])
            && Leased(scan, leases, nextLease, moved)
  {
    Append(log, request);
  }

  lemma PostKeeps(normalize: string -> string, s: State, a: int, outcome: PostOutcome)
    requires Inv(normalize, s) && Enabled(s, PostSettled(a, outcome))
    ensures Inv(normalize, AfterPost(s, a, outcome))
  {
    hide Rejected, AfterAnswer;
    EarlyCallNotLive(normalize, s, a);
    Weaken(normalize, s, a, a);
    if outcome.PostThrew? {
      Weaken(normalize, s, NOBODY, a);
      RejectedKeeps(normalize, s, a);
    } else {
      var named := WithSid(s, a, outcome.sid);
      if a in s.reservations {
        NameKeeps(normalize, s, a, outcome.sid);
        assert OwnedByConnect(s.reservations[a], a, s.calls, s.cleanups);
      }
      AnswerKeeps(normalize, named, a, outcome.ok, outcome.sid, outcome.socketThrows);
    }
  }

  /** Whatever the answer says, the stray goes live or starts its teardown. */
  lemma AnswerKeeps(normalize: string -> string, s: State, a: int, ok: bool, sid: Option<string>, socketThrows: bool)
    requires a in s.calls && s.calls[a].pc.Posting? && Mid(normalize, s, a, a) && NotLive(s.sessions, a)
    requires IsCurrent(s, s.calls[a].profile, a) ==> s.calls[a].profile !in s.sessions
    requires a in s.reservations ==> s.calls[a].pc.generation == s.generation && !s.reservations[a].cleaningUp
    requires a in s.reservations && sid.Some? ==> s.reservations[a].sid == sid
    ensures Inv(normalize, AfterAnswer(s, a, ok, sid, socketThrows))
  {
    hide Mid, Finish, BeginRemoteCleanup, Rejected, Installed;
    var p := s.calls[a].profile;
    if !IsCurrent(s, p, a) || !ok || sid.None? {
      CleanupEnds(normalize, s, a);
    } else if a !in s.reservations || s.reservations[a].token.None? || socketThrows {
      RejectedKeeps(normalize, s, a);
    } else {
      InstallKeeps(normalize, s, a, sid.value);
    }
  }

  /** A cleanup, told or not, then the end of the call. */
  lemma CleanupEnds(normalize: string -> string, s: State, a: int)
    requires a in s.calls && Mid(normalize, s, a, a) && NotLive(s.sessions, a)
    ensures Inv(normalize, Finish(BeginRemoteCleanup(s, a), a))
    ensures Inv(normalize, Finish(Emit(BeginRemoteCleanup(s, a), Aborted(s.calls[a].profile)), a))
  {
    hide Mid, Finish;
    var aborted := Aborted(s.calls[a].profile);
    CleanupKeeps(normalize, s, a, a);
    FinishKeeps(normalize, BeginRemoteCleanup(s, a), a);
    EmitKeeps(normalize, BeginRemoteCleanup(s, a), aborted, NOBODY, a);
    FinishKeeps(normalize, Emit(BeginRemoteCleanup(s, a), aborted), a);
  }

  // connect, at its event socket

  lemma ReadyKeeps(normalize: string -> string, s: State, a: int)
    requires Inv(normalize, s) && Enabled(s, ReadySettled(a))
    ensures Inv(normalize, AfterReady(s, a))
  {
    var p := s.calls[a].profile;
    Weaken(normalize, s, a, a);
    Weaken(normalize, s, NOBODY, a);
    if s.sockets[a].ready == Failed {
      RejectedKeeps(normalize, s, a);
    } else {
      FinishKeeps(normalize, s, a);
      if IsCurrent(s, p, a) && p in s.sessions && s.sessions[p].attempt == a {
        FinishEmit(s, a, Connected(p));
        FinishLeaves(s, a);
        assert !Up(s.log, p);
        EmitKeeps(normalize, Finish(s, a), Connected(p), NOBODY, NOBODY);
      }
    }
  }

  lemma FinishEmit(s: State, a: int, o: Output)
    requires a in s.calls
    ensures Finish(Emit(s, o), a) == Emit(Finish(s, a), o)
  {
  }

  lemma FinishLeaves(s: State, a: int)
    requires a in s.calls
    ensures var t := Finish(s, a);
            t.sessions == s.sessions && t.calls == s.calls - {a} && t.log == s.log
  {
  }

  // Socket events

  lemma SettleKeeps(normalize: string -> string, s: State, a: int, ready: Ready)
    requires Inv(normalize, s) && a in s.sockets
    ensures Inv(normalize, SettleSocket(s, a, ready))
  {
    hide Numbered, CleanupsNumbered, AttemptsInFlight, CallsOwn, CurrentHolds, SessionsNewest, SessionsBacked, Phased, Fresh;
    hide CleanupsFresh, Logged, MacsOwned, Held, Leased, Announced;
    SettleSockets(s.reservations, s.sessions, s.latest, s.calls, s.sockets, s.generation, s.nextAttempt, a, ready);
  }

  lemma SettleSockets(rs: Reservations, sessions: Sessions, latest: Attempts, calls: Calls, sockets: Sockets, generation: int,
                      nextAttempt: int, a: int, ready: Ready)
    requires a in sockets && Numbered(rs, calls, sockets, latest, nextAttempt)
    requires CallsOwn(calls, sockets, rs, NOBODY) && SessionsNewest(sessions, latest, sockets, calls, generation)
    ensures var settled := sockets[a := sockets[a].(ready := ready)];
            && Numbered(rs, calls, settled, latest, nextAttempt) && CallsOwn(calls, settled, rs, NOBODY)
            && SessionsNewest(sessions, latest, settled, calls, generation)
  {
  }

  lemma SwapLedger(log: seq<Output>, sessions: Sessions, calls: Calls, o: Output, sent: seq<Output>)
    requires sent == [] || (|sent| == 1 && sent[0].Request?)
    requires !o.Request? && Logged(log + [o] + sent) && Announced(log + [o] + sent, sessions, calls)
    ensures Logged(log + sent + [o]) && Announced(log + sent + [o], sessions, calls)
  {
    if sent == [] {
      assert log + [o] + sent == log + sent + [o];
    } else {
      Append(log, o);
      Append(log + [o], sent[0]);
      Append(log, sent[0]);
      Append(log + sent, o);
      assert sent == [sent[0]];
      forall i | 0 <= i < |log + sent + [o]| && (log + sent + [o])[i].Request?
        ensures (log + sent + [o])[i].madeIn == (log + sent + [o])[i].sentIn
      {
        var j := if i == |log| then i + 1 else i;
        assert (log + sent + [o])[i] == (log + [o] + sent)[j];
      }
    }
  }

  /** The order of the announcement and the request in the log does not matter. */
  lemma SwapKeeps(normalize: string -> string, s: State, log: seq<Output>, o: Output, sent: seq<Output>)
    requires Inv(normalize, s) && s.log == log + [o] + sent && !o.Request?
    requires sent == [] || (|sent| == 1 && sent[0].Request?)
    ensures Inv(normalize, s.(log := log + sent + [o]))
  {
    SwapLedger(log, s.sessions, s.calls, o, sent);
  }

  lemma RoundSent(rs: Reservations, cleanups: Cleanups, n: int, generation: int, a: int)
    ensures var sent := BeginRound(rs, cleanups, n, generation, a).sent; sent == [] || (|sent| == 1 && sent[0].Request?)
  {
  }

  lemma GoneKeeps(normalize: string -> string, s: State, a: int)
    requires Inv(normalize, s) && a in s.sockets
    ensures Inv(normalize, SocketGone(s, a))
  {
    hide Mid, BeginRound;
    var p := s.sockets[a].profile;
    if p in s.sessions && s.sessions[p].attempt == a {
      ClearToldKeeps(normalize, s, p, NOBODY);
      var told := Emit(ClearLocalSession(s, p), Disconnected(p));
      CleanupKeeps(normalize, told, a, NOBODY);
      var d := BeginRound(s.reservations, s.cleanups, s.nextCleanup, s.generation, a);
      RoundSent(s.reservations, s.cleanups, s.nextCleanup, s.generation, a);
      SwapKeeps(normalize, WithRound(told, d), s.log, Disconnected(p), d.sent);
    }
  }

  lemma BrokenKeeps(normalize: string -> string, s: State, a: int)
    requires Inv(normalize, s) && a in s.sockets
    ensures Inv(normalize, SocketGone(SettleSocket(s, a, Failed), a))
  {
    SettleKeeps(normalize, s, a, Failed);
    GoneKeeps(normalize, SettleSocket(s, a, Failed), a);
  }

  // Sidecar exit

  lemma ExitKeeps(normalize: string -> string, s: State)
    requires Inv(normalize, s)
    ensures Inv(normalize, AfterExit(s))
  {
    hide Numbered, CleanupsNumbered, AttemptsInFlight, CallsOwn, CurrentHolds, SessionsNewest, SessionsBacked, Phased, Fresh;
    hide CleanupsFresh, Logged, MacsOwned, Held, Leased, Announced;
    ExitLedger(s.log, s.sessions, s.calls, s);
    ExitCleared(normalize, s.registry, s.reservations, s.connectAttempts, s.latest, s.calls, s.sockets, s.cleanups,
                s.generation + 1, s.nextAttempt, s.heldByRelease, s.exclusive, s.sessions);
  }

  lemma ExitCleared(normalize: string -> string, registry: Registry, rs: Reservations, attempts: Attempts, latest: Attempts,
                    calls: Calls, sockets: Sockets, cleanups: Cleanups, generation: int, nextAttempt: int, held: bool,
                    exclusive: bool, sessions: Sessions)
    requires Numbered(rs, calls, sockets, latest, nextAttempt) && AttemptsInFlight(attempts, latest, calls)
    requires CallsOwn(calls, sockets, rs, NOBODY) && MacsOwned(normalize, registry, rs) && Held(held, exclusive, sessions, attempts)
    ensures Numbered(map[], calls, sockets, latest, nextAttempt) && AttemptsInFlight(map[], latest, calls)
    ensures CallsOwn(calls, sockets, map[], NOBODY) && CurrentHolds(calls, map[], map[], map[], NOBODY)
    ensures SessionsNewest(map[], latest, sockets, calls, generation) && SessionsBacked(map[], map[], calls)
    ensures Phased(map[], map[], calls, cleanups, NOBODY) && Held(held, exclusive, map[], map[])
    ensures MacsOwned(normalize, registry, map[]) && Fresh(generation, map[], calls) && CleanupsFresh(generation, map[], cleanups)
  {
  }

  lemma ExitLedger(log: seq<Output>, sessions: Sessions, calls: Calls, s: State)
    requires Logged(log) && Announced(log, sessions, calls) && sessions == s.sessions
    ensures Logged(log + ExitLog(s)) && Announced(log + ExitLog(s), map[], calls)
  {
    var first := if Meshtastic in sessions then log + [Disconnected(Meshtastic)] else log;
    var second := if Meshcore in sessions then first + [Disconnected(Meshcore)] else first;
    assert log + ExitLog(s) == second;
    Append(log, Disconnected(Meshtastic));
    Append(first, Disconnected(Meshcore));
    assert !Up(second, Meshtastic) && !Up(second, Meshcore);
    forall p ensures !Up(second, p) { if p.Meshtastic? { } }
  }

  // Remote cleanup replies

  lemma DropCallPhased(rs: Reservations, sessions: Sessions, calls: Calls, cleanups: Cleanups, c: int, ts: Reservations)
    requires c in cleanups && Phased(rs, sessions, calls, cleanups, NOBODY)
    requires var id := cleanups[c].attempt;
             ts == rs - {id} || (id !in rs && ts == rs)
             || (id in rs && rs[id].attempts < CLEANUP_MAX_ATTEMPTS && ts == rs[id := rs[id].(timer := true)])
    ensures Phased(ts, sessions, calls, cleanups - {c}, NOBODY)
  {
    var id := cleanups[c].attempt;
    var left := cleanups - {c};
    forall a | a in ts ensures InSomePhase(ts[a], a, sessions, calls, left, NOBODY) {
      assert InSomePhase(rs[a], a, sessions, calls, cleanups, NOBODY);
      if a == id {
        assert Tearing(cleanups, a);
        assert InCleanup(rs[a], a, sessions, cleanups);
        assert !Tearing(left, a);
      } else {
        forall d | d in cleanups && cleanups[d].attempt == a ensures Tearing(left, a) { assert left[d].attempt == a; }
      }
    }
  }

  /** A reservation being torn down can leave the map: nothing else relies on it. */
  lemma ReleasedReservations(normalize: string -> string, registry: Registry, rs: Reservations, sessions: Sessions,
                             attempts: Attempts, latest: Attempts, calls: Calls, sockets: Sockets, generation: int,
                             nextAttempt: int, a: int)
    requires a in rs ==> rs[a].HasSid() && rs[a].cleaningUp
    requires Numbered(rs, calls, sockets, latest, nextAttempt)
    requires CallsOwn(calls, sockets, rs, NOBODY) && SessionsBacked(sessions, rs, calls)
    ensures MacsOwned(normalize, registry, rs) ==> MacsOwned(normalize, registry, rs - {a})
    ensures SessionsBacked(sessions, rs - {a}, calls) && CallsOwn(calls, sockets, rs - {a}, NOBODY)
    ensures CurrentHolds(calls, attempts, rs, sessions, NOBODY) ==> CurrentHolds(calls, attempts, rs - {a}, sessions, NOBODY)
    ensures Fresh(generation, rs, calls) ==> Fresh(generation, rs - {a}, calls)
  {
  }

  lemma CleaningCall(normalize: string -> string, s: State, c: int)
    requires Inv(normalize, s) && c in s.cleanups && s.cleanups[c].attempt in s.reservations
    ensures var id := s.cleanups[c].attempt; InCleanup(s.reservations[id], id, s.sessions, s.cleanups)
  {
    var id := s.cleanups[c].attempt;
    assert Tearing(s.cleanups, id);
    assert InSomePhase(s.reservations[id], id, s.sessions, s.calls, s.cleanups, NOBODY);
  }

  lemma DropCall(rs: Reservations, calls: Calls, sockets: Sockets, latest: Attempts, nextAttempt: int, cleanups: Cleanups,
                 nextCleanup: int, generation: int, c: int, a: int)
    requires Numbered(rs, calls, sockets, latest, nextAttempt) && CleanupsNumbered(cleanups, nextAttempt, nextCleanup)
    requires CleanupsFresh(generation, rs, cleanups)
    ensures Numbered(rs - {a}, calls, sockets, latest, nextAttempt) && CleanupsNumbered(cleanups - {c}, nextAttempt, nextCleanup)
    ensures CleanupsFresh(generation, rs - {a}, cleanups - {c}) && CleanupsFresh(generation, rs, cleanups - {c})
  {
  }

  /** A cleanup call that ends by releasing its reservation. */
  lemma EndByRelease(normalize: string -> string, s: State, c: int)
    requires Inv(normalize, s) && c in s.cleanups
    ensures Inv(normalize, ReleaseReservation(s.(cleanups := s.cleanups - {c}), s.cleanups[c].attempt))
  {
    hide Numbered, CleanupsNumbered, AttemptsInFlight, CallsOwn, CurrentHolds, SessionsNewest, SessionsBacked, Phased, Fresh;
    hide CleanupsFresh, Logged, MacsOwned, Held, Leased, Announced;
    var id := s.cleanups[c].attempt;
    if id in s.reservations { CleaningCall(normalize, s, c); }
    DropCallPhased(s.reservations, s.sessions, s.calls, s.cleanups, c, s.reservations - {id});
    ReleasedReservations(normalize, s.registry, s.reservations, s.sessions, s.connectAttempts, s.latest, s.calls, s.sockets,
                         s.generation, s.nextAttempt, id);
    DropCall(s.reservations, s.calls, s.sockets, s.latest, s.nextAttempt, s.cleanups, s.nextCleanup, s.generation, c, id);
  }

  /** A cleanup call whose reservation is gone just ends. */
  lemma EndDetached(normalize: string -> string, s: State, c: int)
    requires Inv(normalize, s) && c in s.cleanups && s.cleanups[c].attempt !in s.reservations
    ensures Inv(normalize, s.(cleanups := s.cleanups - {c}))
  {
    DropCallPhased(s.reservations, s.sessions, s.calls, s.cleanups, c, s.reservations);
  }

  lemma ProbingPhased(rs: Reservations, sessions: Sessions, calls: Calls, cleanups: Cleanups, c: int, pc: CleanupPc)
    requires c in cleanups && Phased(rs, sessions, calls, cleanups, NOBODY)
    ensures Phased(rs, sessions, calls, cleanups[c := cleanups[c].(pc := pc)], NOBODY)
  {
    var moved := cleanups[c := cleanups[c].(pc := pc)];
    forall a | a in rs ensures Tearing(moved, a) <==> Tearing(cleanups, a) {
      forall d | d in cleanups && cleanups[d].attempt == a ensures Tearing(moved, a) { assert moved[d].attempt == a; }
      forall d | d in moved && moved[d].attempt == a ensures Tearing(cleanups, a) { assert cleanups[d].attempt == a; }
    }
    forall a | a in rs ensures InSomePhase(rs[a], a, sessions, calls, moved, NOBODY) {
      assert InSomePhase(rs[a], a, sessions, calls, cleanups, NOBODY);
    }
  }

  lemma ProbingKeeps(normalize: string -> string, s: State, c: int)
    requires Inv(normalize, s) && c in s.cleanups
    ensures Inv(normalize, s.(cleanups := s.cleanups[c := s.cleanups[c].(pc := Probing)]))
  {
    ProbingPhased(s.reservations, s.sessions, s.calls, s.cleanups, c, Probing);
  }

  lemma ProbedFreshly(normalize: string -> string, s: State, c: int)
    requires Inv(normalize, s) && c in s.cleanups && s.cleanups[c].attempt in s.reservations
    ensures s.cleanups[c].madeIn == s.generation
  {
  }

  lemma DeleteKeeps(normalize: string -> string, s: State, c: int, outcome: DeleteOutcome)
    requires Inv(normalize, s) && c in s.cleanups
    ensures Inv(normalize, AfterDelete(s, c, outcome))
  {
    hide Mid;
    var call := s.cleanups[c];
    if outcome == Confirmed || (outcome == DeleteThrew && s.quitting) {
      EndByRelease(normalize, s, c);
    } else if call.attempt !in s.reservations {
      EndDetached(normalize, s, c);
    } else {
      ProbingKeeps(normalize, s, c);
      ProbedFreshly(normalize, s, c);
      EmitKeeps(normalize, s.(cleanups := s.cleanups[c := call.(pc := Probing)]),
                Request(ProbeSession, call.madeIn, s.generation), NOBODY, NOBODY);
    }
  }

  lemma ArmReservations(normalize: string -> string, registry: Registry, rs: Reservations, sessions: Sessions,
                        attempts: Attempts, calls: Calls, sockets: Sockets, cleanups: Cleanups, generation: int, a: int,
                        latest: Attempts, nextAttempt: int)
    requires a in rs && Numbered(rs, calls, sockets, latest, nextAttempt)
    ensures var ts := rs[a := rs[a].(timer := true)];
            && (MacsOwned(normalize, registry, rs) ==> MacsOwned(normalize, registry, ts))
            && (SessionsBacked(sessions, rs, calls) ==> SessionsBacked(sessions, ts, calls))
            && (CallsOwn(calls, sockets, rs, NOBODY) ==> CallsOwn(calls, sockets, ts, NOBODY))
            && (CurrentHolds(calls, attempts, rs, sessions, NOBODY) ==> CurrentHolds(calls, attempts, ts, sessions, NOBODY))
            && (Fresh(generation, rs, calls) ==> Fresh(generation, ts, calls))
            && (CleanupsFresh(generation, rs, cleanups) ==> CleanupsFresh(generation, ts, cleanups))
            && Numbered(ts, calls, sockets, latest, nextAttempt)
  {
  }

  /** An unanswered probe arms the retry timer. */
  lemma ArmKeeps(normalize: string -> string, s: State, c: int)
    requires Inv(normalize, s) && c in s.cleanups && s.cleanups[c].attempt in s.reservations
    requires s.reservations[s.cleanups[c].attempt].attempts < CLEANUP_MAX_ATTEMPTS
    ensures var id := s.cleanups[c].attempt;
            Inv(normalize, s.(cleanups := s.cleanups - {c},
                              reservations := s.reservations[id := s.reservations[id].(timer := true)]))
  {
    hide Numbered, CleanupsNumbered, AttemptsInFlight, CallsOwn, CurrentHolds, SessionsNewest, SessionsBacked, Phased, Fresh;
    hide CleanupsFresh, Logged, MacsOwned, Held, Leased, Announced;
    var id := s.cleanups[c].attempt;
    DropCallPhased(s.reservations, s.sessions, s.calls, s.cleanups, c, s.reservations[id := s.reservations[id].(timer := true)]);
    ArmReservations(normalize, s.registry, s.reservations, s.sessions, s.connectAttempts, s.calls, s.sockets, s.cleanups - {c},
                    s.generation, id, s.latest, s.nextAttempt);
    DropCall(s.reservations, s.calls, s.sockets, s.latest, s.nextAttempt, s.cleanups, s.nextCleanup, s.generation, c, id);
  }

  lemma ProbeKeeps(normalize: string -> string, s: State, c: int, gone: bool)
    requires Inv(normalize, s) && c in s.cleanups
    ensures Inv(normalize, AfterProbe(s, c, gone))
  {
    hide Mid;
    var id := s.cleanups[c].attempt;
    if gone || id !in s.reservations || s.reservations[id].attempts >= CLEANUP_MAX_ATTEMPTS {
      EndByRelease(normalize, s, c);
    } else {
      ArmKeeps(normalize, s, c);
    }
  }

  lemma TimerKeeps(normalize: string -> string, s: State, a: int)
    requires Inv(normalize, s) && a in s.reservations && s.reservations[a].timer
    ensures Inv(normalize, AfterTimer(s, a))
  {
    assert InSomePhase(s.reservations[a], a, s.sessions, s.calls, s.cleanups, NOBODY);
    assert InCleanup(s.reservations[a], a, s.sessions, s.cleanups);
    BackedNotLive(normalize, s, a);
    Weaken(normalize, s, a, NOBODY);
    assert s.reservations[a].(timer := false) == s.reservations[a].(cleaningUp := true, timer := false);
    StartKeeps(normalize, s, a, NOBODY);
  }

  lemma BackedNotLive(normalize: string -> string, s: State, a: int)
    requires Inv(normalize, s) && a in s.reservations && InCleanup(s.reservations[a], a, s.sessions, s.cleanups)
    ensures NotLive(s.sessions, a)
  {
  }

  // Hold, registry and scan lock

  lemma HoldKeeps(normalize: string -> string, s: State, exclusive: bool, held: bool)
    requires Inv(normalize, s) && Held(held, exclusive, s.sessions, s.connectAttempts)
    ensures Inv(normalize, s.(exclusive := exclusive, heldByRelease := held))
  {
  }

  lemma SetHoldKeeps(normalize: string -> string, s: State, active: bool)
    requires Inv(normalize, s)
    ensures Inv(normalize, SetHold(s, active))
  {
  }

  lemma HoldExpiredKeeps(normalize: string -> string, s: State)
    requires Inv(normalize, s)
    ensures Inv(normalize, HoldExpired(s))
  {
  }

  lemma ReleaseKeeps(normalize: string -> string, s: State)
    requires Inv(normalize, s)
    ensures Inv(normalize, Release(s))
  {
    HoldKeeps(normalize, s, true, s.heldByRelease);
    if !s.exclusive {
      DisconnectAllKeeps(normalize, SetHold(s, true));
      HoldKeeps(normalize, DisconnectAll(SetHold(s, true)), true, true);
    }
  }

  lemma RegistryKeeps(normalize: string -> string, s: State, mac: string, owner: Owner)
    requires Inv(normalize, s)
    ensures Inv(normalize, s.(registry := AfterRegister(normalize, s.registry, AllLinks(s), mac, owner)))
    ensures Inv(normalize, s.(registry := AfterUnregister(normalize, s.registry, mac, owner)))
  {
    MacsAreOwned(normalize, s);
    RegistryKeepsOneOwner(normalize, s.registry, AllLinks(s), mac, owner);
    MacsAreOwned(normalize, s.(registry := AfterRegister(normalize, s.registry, AllLinks(s), mac, owner)));
    MacsAreOwned(normalize, s.(registry := AfterUnregister(normalize, s.registry, mac, owner)));
  }

  lemma AcquireLeased(scan: ScanLock, leases: map<int, ScanOwner>, nextLease: int, calls: Calls, owner: ScanOwner)
    requires Leased(scan, leases, nextLease, calls) && AfterAcquire(scan, owner).1.Granted?
    ensures Leased(AfterAcquire(scan, owner).0, leases[nextLease := owner], nextLease + 1, calls)
  {
  }

  lemma AcquireKeeps(normalize: string -> string, s: State, owner: ScanOwner)
    requires Inv(normalize, s)
    ensures Inv(normalize, Acquire(s, owner))
  {
    hide Numbered, CleanupsNumbered, AttemptsInFlight, CallsOwn, CurrentHolds, SessionsNewest, SessionsBacked, Phased, Fresh;
    hide CleanupsFresh, Logged, MacsOwned, Held, Leased, Announced;
    if AfterAcquire(s.scan, owner).1.Granted? {
      AcquireLeased(s.scan, s.leases, s.nextLease, s.calls, owner);
    }
  }

  lemma ScanReleaseKeeps(normalize: string -> string, s: State, lease: int)
    requires Inv(normalize, s) && Enabled(s, ScanRelease(lease))
    ensures Inv(normalize, s.(scan := AfterRelease(s.scan, s.leases[lease]), leases := s.leases - {lease}))
  {
    var left := s.leases - {lease};
    assert s.leases == left[lease := s.leases[lease]];
    assert |left| == |s.leases| - 1;
    if s.scan.depth > 1 {
      assert left != map[];
    } else {
      assert |left| == 0;
      assert left == map[];
    }
  }

  lemma AskKeeps(normalize: string -> string, s: State, p: Profile, kind: RequestKind)
    requires Inv(normalize, s)
    ensures Inv(normalize, Ask(s, p, kind))
  {
    if p in s.sessions {
      EmitKeeps(normalize, s, Request(kind, s.sessions[p].madeIn, s.generation), NOBODY, NOBODY);
    }
  }

  /** Events of a `connect` call and its socket. */
  predicate OfCall(e: Event) {
    || e.ConnectCall? || e.EnsureSettled? || e.ResumeWithPort? || e.PostSettled? || e.ReadySettled? || e.SocketOpened?
    || e.SocketBroken? || e.SocketSaysGone?
  }

  /** Events that end sessions or tear down reservations. */
  predicate OfTeardown(e: Event) {
    || e.DisconnectCall? || e.DisconnectAllCall? || e.SidecarExited? || e.DeleteSettled? || e.ProbeSettled?
    || e.CleanupTimerFired? || e.ReleaseCentral?
  }

  lemma CallStepKeeps(normalize: string -> string, s: State, e: Event)
    requires Inv(normalize, s) && Enabled(s, e) && OfCall(e)
    ensures Inv(normalize, Step(normalize, s, e))
  {
    hide Mid, AllLinks, Disconnect, Rejected;
    match e
    case ConnectCall(lease, p, address) => ConnectKeeps(normalize, s, lease, p, address);
    case EnsureSettled(a, result) => EnsureKeeps(normalize, s, a, result);
    case ResumeWithPort(a) => PortKeeps(normalize, s, a);
    case PostSettled(a, outcome) => PostKeeps(normalize, s, a, outcome);
    case ReadySettled(a) => ReadyKeeps(normalize, s, a);
    case SocketOpened(a) => SettleKeeps(normalize, s, a, Opened);
    case SocketBroken(a) => BrokenKeeps(normalize, s, a);
    case SocketSaysGone(a) => GoneKeeps(normalize, s, a);
  }

  lemma TeardownStepKeeps(normalize: string -> string, s: State, e: Event)
    requires Inv(normalize, s) && Enabled(s, e) && OfTeardown(e)
    ensures Inv(normalize, Step(normalize, s, e))
  {
    hide Mid;
    match e
    case DisconnectCall(p) => DisconnectKeeps(normalize, s, p);
    case DisconnectAllCall => DisconnectAllKeeps(normalize, s);
    case SidecarExited => ExitKeeps(normalize, s);
    case DeleteSettled(c, outcome) => DeleteKeeps(normalize, s, c, outcome);
    case ProbeSettled(c, gone) => ProbeKeeps(normalize, s, c, gone);
    case CleanupTimerFired(a) => TimerKeeps(normalize, s, a);
    case ReleaseCentral => ReleaseKeeps(normalize, s);
  }

  /** Every enabled step keeps the invariant. */
  lemma StepKeeps(normalize: string -> string, s: State, e: Event)
    requires Inv(normalize, s) && Enabled(s, e)
    ensures Inv(normalize, Step(normalize, s, e))
  {
    hide Mid;
    if OfCall(e) { CallStepKeeps(normalize, s, e); return; }
    if OfTeardown(e) { TeardownStepKeeps(normalize, s, e); return; }
    match e
    case SetPort(port, token) => EndpointKeeps(normalize, s, port, if port > 0 then Some(token) else None, s.quitting);
    case SessionCall(p, kind) => AskKeeps(normalize, s, p, kind);
    case SetQuitting => EndpointKeeps(normalize, s, s.port, s.token, true);
    case SetExclusive(active) => SetHoldKeeps(normalize, s, active);
    case ExclusiveExpired => HoldExpiredKeeps(normalize, s);
    case RegisterMac(mac, owner) => RegistryKeeps(normalize, s, mac, owner);
    case UnregisterMac(mac, owner) => RegistryKeeps(normalize, s, mac, owner);
    case ScanAcquire(owner) => AcquireKeeps(normalize, s, owner);
    case ScanRelease(lease) => ScanReleaseKeeps(normalize, s, lease);
  }

  lemma InitialHolds(normalize: string -> string)
    ensures Inv(normalize, Initial)
  {
  }

  /** The invariant holds at the end of every run. */
  lemma {:induction false} RunKeeps(normalize: string -> string, s: State, run: seq<Event>)
    requires Inv(normalize, s) && ValidRun(normalize, s, run)
    ensures Inv(normalize, Run(normalize, s, run))
    decreases |run|
  {
    if run != [] {
      StepKeeps(normalize, s, run[0]);
      RunKeeps(normalize, Step(normalize, s, run[0]), run[1..]);
    }
  }
}
