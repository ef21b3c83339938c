/** The inductive invariant of the GATT proxy over every interleaving. */
module GattInvariants {
  import opened Wrappers
  import opened Coexistence
  import opened GattProtocol

  type Sessions = map<Profile, Live>
  type Attempts = map<Profile, int>
  type Reservations = map<int, Reservation>
  type Calls = map<int, Call>
  type Sockets = map<int, Socket>
  type Cleanups = map<int, CleanupCall>

  const NOBODY := -1

  /** Attempts, calls and cleanup calls are numbered below the counters. */
  ghost predicate Numbered(rs: Reservations, calls: Calls, sockets: Sockets, latest: Attempts, nextAttempt: int) {
    && 0 <= nextAttempt
    && (forall a | a in rs :: 0 <= a < nextAttempt)
    && (forall a | a in calls :: 0 <= a < nextAttempt)
    && (forall a | a in sockets :: 0 <= a < nextAttempt)
    && (forall p | p in latest :: 0 <= latest[p] < nextAttempt)
  }

  ghost predicate CleanupsNumbered(cleanups: Cleanups, nextAttempt: int, nextCleanup: int) {
    forall c | c in cleanups :: c < nextCleanup && cleanups[c].attempt < nextAttempt
  }

  /** A current attempt is the newest of its profile and is still running its `connect` call. */
  ghost predicate AttemptsInFlight(attempts: Attempts, latest: Attempts, calls: Calls) {
    && (forall p | p in attempts ::
          p in latest && attempts[p] == latest[p] && latest[p] in calls && calls[latest[p]].profile == p)
    && (forall a | a in calls :: calls[a].profile in latest && a <= latest[calls[a].profile])
  }

  /** A running call past its request owns a socket; before that its reservation is anonymous. */
  ghost predicate CallsOwn(calls: Calls, sockets: Sockets, rs: Reservations, ending: int) {
    && (forall a | a in calls && a != ending && calls[a].pc.Opening? :: a in sockets && sockets[a].profile == calls[a].profile)
    && (forall a | a in sockets && a in calls && a != ending :: calls[a].pc.Opening?)
    && (forall a | a in calls && a in rs :: rs[a].profile == calls[a].profile)
    && (forall a | a in calls && a in rs && a != ending && !calls[a].pc.Opening? :: rs[a].sid == None)
  }

  /** A current attempt that has not reached its socket holds its MAC and its profile has no session. */
  ghost predicate CurrentHolds(calls: Calls, attempts: Attempts, rs: Reservations, sessions: Sessions, ending: int) {
    forall p | p in attempts && attempts[p] in calls && attempts[p] != ending && !calls[attempts[p]].pc.Opening? ::
      attempts[p] in rs && p !in sessions
  }

  /** A live session belongs to the newest attempt of its profile and the running sidecar. */
  ghost predicate SessionsNewest(sessions: Sessions, latest: Attempts, sockets: Sockets, calls: Calls, generation: int) {
    forall p | p in sessions ::
      && p in latest && sessions[p].attempt == latest[p]
      && latest[p] in sockets && sockets[latest[p]].profile == p
      && sessions[p].madeIn == generation
      && (latest[p] in calls ==> calls[latest[p]].profile == p)
  }

  /** Only an empty session id leaves a live session without a reservation of its own. */
  ghost predicate SessionsBacked(sessions: Sessions, rs: Reservations, calls: Calls) {
    forall p | p in sessions ::
      var a := sessions[p].attempt;
      && (a in rs ==> rs[a].profile == p && rs[a].address == sessions[p].address)
      && if sessions[p].sid != "" then
        a in rs && rs[a].sid == Some(sessions[p].sid) && !rs[a].cleaningUp
      else (a in rs <==> a in calls) && (a in rs ==> !rs[a].HasSid())
  }

  ghost predicate Backs(r: Reservation, a: int, sessions: Sessions) {
    r.profile in sessions && sessions[r.profile].attempt == a && sessions[r.profile].sid != ""
  }

  /** `a` is the attempt of no live session. */
  ghost predicate NotLive(sessions: Sessions, a: int) {
    forall p | p in sessions :: sessions[p].attempt != a
  }

  ghost predicate Tearing(cleanups: Cleanups, a: int) {
    exists c :: c in cleanups && cleanups[c].attempt == a
  }

  /** No teardown has begun. */
  ghost predicate Untouched(r: Reservation, a: int, cleanups: Cleanups) {
    !r.cleaningUp && !r.timer && r.attempts == 0 && !Tearing(cleanups, a)
  }

  /** Phase 1: no session id yet, owned by a running `connect`. */
  ghost predicate OwnedByConnect(r: Reservation, a: int, calls: Calls, cleanups: Cleanups) {
    a in calls && !r.HasSid() && Untouched(r, a, cleanups)
  }

  /** Phase 2: backs the live session of its profile. */
  ghost predicate BacksSession(r: Reservation, a: int, sessions: Sessions, cleanups: Cleanups) {
    r.HasSid() && Backs(r, a, sessions) && Untouched(r, a, cleanups)
  }

  /** Exactly one pending cleanup activity: the retry timer or one request. */
  ghost predicate OneActivity(r: Reservation, a: int, cleanups: Cleanups) {
    && (r.timer <==> !Tearing(cleanups, a))
    && (forall c, d | c in cleanups && d in cleanups && cleanups[c].attempt == a && cleanups[d].attempt == a :: c == d)
  }

  /** Phase 3: being torn down remotely. */
  ghost predicate InCleanup(r: Reservation, a: int, sessions: Sessions, cleanups: Cleanups) {
    && r.HasSid() && r.cleaningUp && !Backs(r, a, sessions)
    && 1 <= r.attempts <= CLEANUP_MAX_ATTEMPTS
    && (r.timer ==> r.attempts < CLEANUP_MAX_ATTEMPTS)
    && OneActivity(r, a, cleanups)
  }

  /** Lost its session inside the running step and is not yet being torn down. */
  ghost predicate Stray(r: Reservation, a: int, sessions: Sessions, cleanups: Cleanups) {
    r.HasSid() && !Backs(r, a, sessions) && Untouched(r, a, cleanups)
  }

  ghost predicate InSomePhase(r: Reservation, a: int, sessions: Sessions, calls: Calls, cleanups: Cleanups, stray: int) {
    || OwnedByConnect(r, a, calls, cleanups)
    || BacksSession(r, a, sessions, cleanups)
    || InCleanup(r, a, sessions, cleanups)
    || (a == stray && Stray(r, a, sessions, cleanups))
  }

  ghost predicate Phased(rs: Reservations, sessions: Sessions, calls: Calls, cleanups: Cleanups, stray: int) {
    forall a | a in rs :: InSomePhase(rs[a], a, sessions, calls, cleanups, stray)
  }

  /** Session ids held by reservations were made by the running sidecar process. */
  ghost predicate Fresh(generation: int, rs: Reservations, calls: Calls) {
    && (forall a | a in rs && rs[a].HasSid() :: rs[a].madeIn == generation && rs[a].token.Some?)
    && (forall a | a in calls && a in rs && calls[a].pc.Posting? ::
          calls[a].pc.generation == generation && (calls[a].pc.issued ==> rs[a].token.Some?))
  }

  ghost predicate CleanupsFresh(generation: int, rs: Reservations, cleanups: Cleanups) {
    forall c | c in cleanups && cleanups[c].attempt in rs :: cleanups[c].madeIn == generation
  }

  /** Every session-bound request went to the process that made the session. */
  ghost predicate Logged(log: seq<Output>) {
    forall i | 0 <= i < |log| && log[i].Request? :: log[i].madeIn == log[i].sentIn
  }

  /** One owner per tracked key, read off the reservations and the registry. */
  ghost predicate MacsOwned(normalize: string -> string, registry: Registry, rs: Reservations) {
    && "" !in registry
    && (forall a, b | a in rs && b in rs && normalize(rs[a].address) == normalize(rs[b].address) != "" ::
          rs[a].profile == rs[b].profile)
    && (forall a | a in rs && normalize(rs[a].address) in registry ::
          registry[normalize(rs[a].address)] == Gatt(rs[a].profile))
  }

  /** The hold entered through releaseBleCentral has no session and no attempt that can become one. */
  ghost predicate Held(held: bool, exclusive: bool, sessions: Sessions, attempts: Attempts) {
    held ==> exclusive && sessions == map[] && attempts == map[]
  }

  /** Scan lock and outstanding leases agree, and every `connect` runs under a lease of its own side. */
  ghost predicate Leased(scan: ScanLock, leases: map<int, ScanOwner>, nextLease: int, calls: Calls) {
    && scan.depth == |leases|
    && (scan.owner == None <==> leases == map[])
    && (forall l | l in leases :: l < nextLease && scan.owner == Some(leases[l]))
    && (forall a | a in calls :: calls[a].lease in leases && leases[calls[a].lease] == GattScan)
  }

  /** The last connected/disconnected event of a profile, if any, is `Connected`. */
  ghost predicate Up(log: seq<Output>, p: Profile) {
    if log == [] then false
    else if log[|log| - 1] == Connected(p) then true
    else if log[|log| - 1] == Disconnected(p) then false
    else Up(log[..|log| - 1], p)
  }

  /** Between two `Connected` events of a profile there is a `Disconnected`. */
  ghost predicate Alternates(log: seq<Output>, p: Profile) {
    log == [] ||
    (Alternates(log[..|log| - 1], p) && (log[|log| - 1] == Connected(p) ==> !Up(log[..|log| - 1], p)))
  }

  ghost predicate Announced(log: seq<Output>, sessions: Sessions, calls: Calls) {
    && (forall p :: Alternates(log, p))
    && (forall p | Up(log, p) :: p in sessions && sessions[p].attempt !in calls)
  }

  /** The invariant inside a step: `stray` awaits cleanup, `ending` is the call about to finish. */
  ghost predicate Mid(normalize: string -> string, s: State, stray: int, ending: int) {
    match s
    case State(_, _, generation, sessions, connectAttempts, latest, reservations, nextAttempt, calls, sockets, cleanups,
               nextCleanup, exclusive, heldByRelease, _, registry, scan, leases, nextLease, log) =>
      && Numbered(reservations, calls, sockets, latest, nextAttempt)
      && CleanupsNumbered(cleanups, nextAttempt, nextCleanup)
      && AttemptsInFlight(connectAttempts, latest, calls)
      && CallsOwn(calls, sockets, reservations, ending)
      && CurrentHolds(calls, connectAttempts, reservations, sessions, ending)
      && SessionsNewest(sessions, latest, sockets, calls, generation)
      && SessionsBacked(sessions, reservations, calls)
      && Phased(reservations, sessions, calls, cleanups, stray)
      && Fresh(generation, reservations, calls)
      && CleanupsFresh(generation, reservations, cleanups)
      && Logged(log)
      && MacsOwned(normalize, registry, reservations)
      && Held(heldByRelease, exclusive, sessions, connectAttempts)
      && Leased(scan, leases, nextLease, calls)
      && Announced(log, sessions, calls)
  }

  ghost predicate Inv(normalize: string -> string, s: State) { Mid(normalize, s, NOBODY, NOBODY) }

  lemma {:induction false} Append(log: seq<Output>, o: Output)
    ensures forall p :: Up(log + [o], p) <==> (o == Connected(p) || (o != Disconnected(p) && Up(log, p)))
    ensures forall p :: Alternates(log + [o], p) <==> Alternates(log, p) && (o == Connected(p) ==> !Up(log, p))
  {
  }

  lemma EmitKeeps(normalize: string -> string, s: State, o: Output, stray: int, ending: int)
    requires Mid(normalize, s, stray, ending)
    requires o.Request? ==> o.madeIn == o.sentIn
    requires o.Connected? ==> o.profile in s.sessions && s.sessions[o.profile].attempt !in s.calls && !Up(s.log, o.profile)
    ensures Mid(normalize, Emit(s, o), stray, ending)
  {
    Append(s.log, o);
  }

  // Dropping the session of one profile

  lemma ClearPhased(rs: Reservations, sessions: Sessions, calls: Calls, cleanups: Cleanups, p: Profile)
    requires p in sessions && Phased(rs, sessions, calls, cleanups, NOBODY)
    requires forall a | a in rs :: 0 <= a
    ensures Phased(rs, sessions - {p}, calls, cleanups, sessions[p].attempt)
  {
  }

  lemma ClearSessions(sessions: Sessions, attempts: Attempts, latest: Attempts, sockets: Sockets, rs: Reservations,
                      calls: Calls, generation: int, ending: int, p: Profile)
    requires SessionsNewest(sessions, latest, sockets, calls, generation) && SessionsBacked(sessions, rs, calls)
    requires CurrentHolds(calls, attempts, rs, sessions, ending)
    ensures SessionsNewest(sessions - {p}, latest, sockets, calls, generation) && SessionsBacked(sessions - {p}, rs, calls)
    ensures CurrentHolds(calls, attempts, rs, sessions - {p}, ending)
  {
  }

  lemma ClearAnnounced(log: seq<Output>, sessions: Sessions, calls: Calls, p: Profile)
    requires Announced(log, sessions, calls)
    ensures !Up(log, p) ==> Announced(log, sessions - {p}, calls)
    ensures Announced(log + [Disconnected(p)], sessions - {p}, calls)
  {
    Append(log, Disconnected(p));
  }

  /** Losing the local session turns its reservation into a stray. */
  lemma ClearKeeps(normalize: string -> string, s: State, p: Profile, log: seq<Output>, ending: int)
    requires Mid(normalize, s, NOBODY, ending) && p in s.sessions
    requires Logged(log) && Announced(log, s.sessions - {p}, s.calls)
    ensures Mid(normalize, s.(sessions := s.sessions - {p}, log := log), s.sessions[p].attempt, ending)
  {
    ClearPhased(s.reservations, s.sessions, s.calls, s.cleanups, p);
    ClearSessions(s.sessions, s.connectAttempts, s.latest, s.sockets, s.reservations, s.calls, s.generation, ending, p);
    assert s.sessions == map[] ==> s.sessions - {p} == map[];
  }

  /** Each profile's session has its own attempt. */
  lemma ClearedNotLive(normalize: string -> string, s: State, p: Profile, ending: int)
    requires Mid(normalize, s, NOBODY, ending) && p in s.sessions
    ensures NotLive(s.sessions - {p}, s.sessions[p].attempt)
  {
  }

  /** Dropping the session and telling the profile so. */
  lemma ClearToldKeeps(normalize: string -> string, s: State, p: Profile, ending: int)
    requires Mid(normalize, s, NOBODY, ending) && p in s.sessions
    ensures Mid(normalize, Emit(ClearLocalSession(s, p), Disconnected(p)), s.sessions[p].attempt, ending)
    ensures NotLive(s.sessions - {p}, s.sessions[p].attempt)
  {
    ClearAnnounced(s.log, s.sessions, s.calls, p);
    ClearKeeps(normalize, s, p, s.log + [Disconnected(p)], ending);
    ClearedNotLive(normalize, s, p, ending);
  }

  /** Dropping it in silence is fine while it was never announced. */
  lemma ClearSilentKeeps(normalize: string -> string, s: State, p: Profile, ending: int)
    requires Mid(normalize, s, NOBODY, ending) && p in s.sessions && !Up(s.log, p)
    ensures Mid(normalize, ClearLocalSession(s, p), s.sessions[p].attempt, ending)
    ensures NotLive(s.sessions - {p}, s.sessions[p].attempt)
  {
    ClearAnnounced(s.log, s.sessions, s.calls, p);
    ClearKeeps(normalize, s, p, s.log, ending);
    ClearedNotLive(normalize, s, p, ending);
  }

  // Starting a cleanup round

  function Restarted(r: Reservation): Reservation {
    r.(cleaningUp := true, timer := false, attempts := r.attempts + 1)
  }

  lemma StartPhased(rs: Reservations, sessions: Sessions, calls: Calls, cleanups: Cleanups, a: int, n: int, call: CleanupCall)
    requires Phased(rs, sessions, calls, cleanups, a)
    requires a in rs && rs[a].HasSid() && !Backs(rs[a], a, sessions) && !Tearing(cleanups, a)
    requires 0 <= rs[a].attempts < CLEANUP_MAX_ATTEMPTS
    requires n !in cleanups && call.attempt == a
    ensures Phased(rs[a := Restarted(rs[a])], sessions, calls, cleanups[n := call], NOBODY)
  {
    var r := Restarted(rs[a]);
    var after := cleanups[n := call];
    assert after[n].attempt == a;
    assert InCleanup(r, a, sessions, after);
    forall b | b in rs && b != a
      ensures Tearing(after, b) <==> Tearing(cleanups, b)
    {
      forall c | c in cleanups && cleanups[c].attempt == b ensures Tearing(after, b) {
        assert after[c] == cleanups[c];
      }
    }
  }

  lemma StartReservations(normalize: string -> string, registry: Registry, rs: Reservations, sessions: Sessions,
                          attempts: Attempts, calls: Calls, sockets: Sockets, generation: int, ending: int, a: int, r: Reservation)
    requires a in rs && r.profile == rs[a].profile && r.address == rs[a].address && r.sid == rs[a].sid
    requires r.token == rs[a].token && r.madeIn == rs[a].madeIn
    requires forall p | p in sessions :: sessions[p].attempt != a || (sessions[p].sid == "" && !rs[a].HasSid())
    ensures MacsOwned(normalize, registry, rs) ==> MacsOwned(normalize, registry, rs[a := r])
    ensures SessionsBacked(sessions, rs, calls) ==> SessionsBacked(sessions, rs[a := r], calls)
    ensures CurrentHolds(calls, attempts, rs, sessions, ending) ==> CurrentHolds(calls, attempts, rs[a := r], sessions, ending)
    ensures CallsOwn(calls, sockets, rs, ending) ==> CallsOwn(calls, sockets, rs[a := r], ending)
    ensures Fresh(generation, rs, calls) ==> Fresh(generation, rs[a := r], calls)
  {
  }

  lemma StartCleanups(generation: int, rs: Reservations, calls: Calls, sockets: Sockets, latest: Attempts, cleanups: Cleanups,
                      nextAttempt: int, a: int, r: Reservation, n: int, call: CleanupCall)
    requires a in rs && call.attempt == a && call.madeIn == generation
    requires CleanupsFresh(generation, rs, cleanups) && CleanupsNumbered(cleanups, nextAttempt, n)
    requires Numbered(rs, calls, sockets, latest, nextAttempt)
    ensures CleanupsFresh(generation, rs[a := r], cleanups[n := call])
    ensures CleanupsNumbered(cleanups[n := call], nextAttempt, n + 1)
    ensures Numbered(rs[a := r], calls, sockets, latest, nextAttempt)
  {
  }

  /** One more cleanup round for `a`, its request in flight but not yet logged. */
  function Restart(s: State, a: int): State
    requires a in s.reservations
  {
    s.(reservations := s.reservations[a := Restarted(s.reservations[a])],
       cleanups := s.cleanups[s.nextCleanup := CleanupCall(a, Deleting, s.reservations[a].madeIn)],
       nextCleanup := s.nextCleanup + 1)
  }

  lemma RestartKeeps(normalize: string -> string, s: State, a: int, ending: int)
    requires Mid(normalize, s, a, ending)
    requires a in s.reservations && s.reservations[a].HasSid() && NotLive(s.sessions, a) && !Tearing(s.cleanups, a)
    requires 0 <= s.reservations[a].attempts < CLEANUP_MAX_ATTEMPTS
    ensures Mid(normalize, Restart(s, a), NOBODY, ending)
  {
    var r := Restarted(s.reservations[a]);
    var call := CleanupCall(a, Deleting, s.reservations[a].madeIn);
    StartPhased(s.reservations, s.sessions, s.calls, s.cleanups, a, s.nextCleanup, call);
    StartReservations(normalize, s.registry, s.reservations, s.sessions, s.connectAttempts, s.calls, s.sockets,
                      s.generation, ending, a, r);
    StartCleanups(s.generation, s.reservations, s.calls, s.sockets, s.latest, s.cleanups, s.nextAttempt, a, r, s.nextCleanup, call);
  }

  /** With a token at hand, `reconcileRemoteSession` runs one counted round and sends the DELETE. */
  lemma StartIs(s: State, a: int, r: Reservation)
    requires a in s.reservations && r.HasSid() && r.token.Some?
    requires r == s.reservations[a].(cleaningUp := true, timer := false)
    ensures WithRound(s, StartRound(s.reservations[a := r], s.cleanups, s.nextCleanup, s.generation, a))
            == Emit(Restart(s, a), Request(DeleteSession, r.madeIn, s.generation))
  {
  }

  lemma StartKeeps(normalize: string -> string, s: State, a: int, ending: int)
    requires Mid(normalize, s, a, ending)
    requires a in s.reservations && s.reservations[a].HasSid() && NotLive(s.sessions, a) && !Tearing(s.cleanups, a)
    requires 0 <= s.reservations[a].attempts < CLEANUP_MAX_ATTEMPTS
    ensures var r := s.reservations[a].(cleaningUp := true, timer := false);
            Mid(normalize, WithRound(s, StartRound(s.reservations[a := r], s.cleanups, s.nextCleanup, s.generation, a)), NOBODY, ending)
  {
    RestartKeeps(normalize, s, a, ending);
    EmitKeeps(normalize, Restart(s, a), Request(DeleteSession, s.reservations[a].madeIn, s.generation), NOBODY, ending);
    StartIs(s, a, s.reservations[a].(cleaningUp := true, timer := false));
  }

  /** A round that changes nothing. */
  lemma NoRound(s: State)
    ensures WithRound(s, Round(s.reservations, s.cleanups, s.nextCleanup, [])) == s
  {
  }

  /** A reservation with an id, no live session and no teardown is the stray. */
  lemma StrayUntouched(normalize: string -> string, s: State, a: int, ending: int)
    requires Mid(normalize, s, a, ending) && NotLive(s.sessions, a)
    requires a in s.reservations && s.reservations[a].HasSid() && !s.reservations[a].cleaningUp
    ensures Untouched(s.reservations[a], a, s.cleanups)
  {
  }

  lemma StayKeeps(normalize: string -> string, s: State, a: int, ending: int)
    requires Mid(normalize, s, a, ending)
    requires a !in s.reservations || !s.reservations[a].HasSid() || s.reservations[a].cleaningUp
    ensures Mid(normalize, s, NOBODY, ending)
  {
  }

  /** Tearing down a stray gives it exactly one request in flight. */
  lemma CleanupKeeps(normalize: string -> string, s: State, a: int, ending: int)
    requires Mid(normalize, s, a, ending) && NotLive(s.sessions, a)
    ensures Mid(normalize, BeginRemoteCleanup(s, a), NOBODY, ending)
  {
    hide Mid, WithRound, StartRound;
    if a in s.reservations && s.reservations[a].HasSid() && !s.reservations[a].cleaningUp {
      StrayUntouched(normalize, s, a, ending);
      assert s.reservations[a].(cleaningUp := true, timer := false) == s.reservations[a].(cleaningUp := true);
      StartKeeps(normalize, s, a, ending);
    } else {
      StayKeeps(normalize, s, a, ending);
      NoRound(s);
    }
  }

  // Ending a connect call

  lemma FinishReservations(normalize: string -> string, registry: Registry, rs: Reservations, sessions: Sessions,
                           attempts: Attempts, calls: Calls, sockets: Sockets, generation: int, a: int, kept: Reservations)
    requires a in calls
    requires kept == if a in rs && !rs[a].HasSid() then rs - {a} else rs
    ensures MacsOwned(normalize, registry, rs) ==> MacsOwned(normalize, registry, kept)
    ensures SessionsBacked(sessions, rs, calls) ==> SessionsBacked(sessions, kept, calls - {a})
    ensures CallsOwn(calls, sockets, rs, a) ==> CallsOwn(calls - {a}, sockets, kept, NOBODY)
    ensures Fresh(generation, rs, calls) ==> Fresh(generation, kept, calls - {a})
  {
  }

  lemma FinishPhased(rs: Reservations, sessions: Sessions, calls: Calls, cleanups: Cleanups, a: int, kept: Reservations)
    requires kept == if a in rs && !rs[a].HasSid() then rs - {a} else rs
    requires Phased(rs, sessions, calls, cleanups, NOBODY)
    ensures Phased(kept, sessions, calls - {a}, cleanups, NOBODY)
  {
  }

  lemma FinishAttempts(attempts: Attempts, latest: Attempts, calls: Calls, rs: Reservations, sessions: Sessions,
                       a: int, kept: Reservations)
    requires a in calls
    requires kept == if a in rs && !rs[a].HasSid() then rs - {a} else rs
    requires AttemptsInFlight(attempts, latest, calls) && CurrentHolds(calls, attempts, rs, sessions, a)
    ensures var p := calls[a].profile;
            var left := if p in attempts && attempts[p] == a then attempts - {p} else attempts;
            AttemptsInFlight(left, latest, calls - {a}) && CurrentHolds(calls - {a}, left, kept, sessions, NOBODY)
  {
  }

  lemma FinishKeeps(normalize: string -> string, s: State, a: int)
    requires a in s.calls && Mid(normalize, s, NOBODY, a)
    ensures Inv(normalize, Finish(s, a))
  {
    var t := Finish(s, a);
    FinishReservations(normalize, s.registry, s.reservations, s.sessions, s.connectAttempts, s.calls, s.sockets,
                       s.generation, a, t.reservations);
    FinishPhased(s.reservations, s.sessions, s.calls, s.cleanups, a, t.reservations);
    FinishAttempts(s.connectAttempts, s.latest, s.calls, s.reservations, s.sessions, a, t.reservations);
  }
}
