/**
 State machine of the LoRa GATT proxy (`gatt-sidecar-proxy.ts`) together with the coexistence
 coordinator. One step is one stretch of code between two awaits; replies of the sidecar, socket
 events and timers are chosen by the environment.
 */
module GattProtocol {
  import opened Wrappers
  import opened Coexistence

  const CLEANUP_MAX_ATTEMPTS: int := 8

  type Token = int

  /** A MAC held for a connect attempt; the map key is the attempt. */
  datatype Reservation = Reservation(
    profile: Profile, address: string, port: int, token: Option<Token>,
    sid: Option<string>,       // session id answered by the sidecar, empty string included
    madeIn: int,               // sidecar generation that the create request was sent to
    cleaningUp: bool, attempts: int, timer: bool)
  {
    /** JavaScript truthiness of `sidecarSessionId`. */
    predicate HasSid() { sid.Some? && sid.value != "" }
  }

  datatype Live = Live(attempt: int, sid: string, madeIn: int, address: string)

  /** Where a suspended `connect` call is waiting. */
  datatype Pc =
    | Ensuring(generation: int)              // await ensureFn()
    | PortReady(port: Option<int>)           // ensurePort settled
    | Posting(issued: bool, generation: int) // await the create-session request
    | Opening                                // await the event socket

  datatype Call = Call(profile: Profile, lease: int, pc: Pc)

  datatype Ready = Pending | Opened | Failed

  datatype Socket = Socket(profile: Profile, ready: Ready)

  datatype CleanupPc = Deleting | Probing

  /** A suspended `reconcileRemoteSession` call with the values it captured. */
  datatype CleanupCall = CleanupCall(attempt: int, pc: CleanupPc, madeIn: int)

  datatype RequestKind = DeleteSession | ProbeSession | WriteSession | ReadRssi | EventSocket

  datatype Output =
    | Connected(profile: Profile)
    | Disconnected(profile: Profile)
    | Aborted(profile: Profile)
    | Request(kind: RequestKind, madeIn: int, sentIn: int)

  datatype State = State(
    port: int, token: Option<Token>, generation: int,
    sessions: map<Profile, Live>,
    connectAttempts: map<Profile, int>,
    latest: map<Profile, int>,               // newest attempt of each profile
    reservations: map<int, Reservation>,
    nextAttempt: int,
    calls: map<int, Call>,
    sockets: map<int, Socket>,
    cleanups: map<int, CleanupCall>,
    nextCleanup: int,
    exclusive: bool,
    heldByRelease: bool,                     // the hold began in releaseBleCentral
    quitting: bool,
    registry: Registry,
    scan: ScanLock,
    leases: map<int, ScanOwner>,
    nextLease: int,
    log: seq<Output>)

  const Initial := State(0, None, 0, map[], map[], map[], map[], 0, map[], map[], map[], 0,
                         false, false, false, map[], ScanLock(None, 0), map[], 0, [])

  datatype PostOutcome = PostThrew | PostReply(ok: bool, sid: Option<string>, socketThrows: bool)

  datatype DeleteOutcome = Confirmed | Refused | DeleteThrew

  datatype Event =
    | ConnectCall(lease: int, profile: Profile, address: string)
    | EnsureSettled(attempt: int, ensured: Option<int>)
    | ResumeWithPort(attempt: int)
    | PostSettled(attempt: int, outcome: PostOutcome)
    | ReadySettled(attempt: int)
    | SocketOpened(attempt: int)
    | SocketBroken(attempt: int)
    | SocketSaysGone(attempt: int)
    | DisconnectCall(profile: Profile)
    | DisconnectAllCall
    | SidecarExited
    | SetPort(httpPort: int, token: Token)
    | DeleteSettled(cleanup: int, deleteOutcome: DeleteOutcome)
    | ProbeSettled(cleanup: int, gone: bool)
    | CleanupTimerFired(attempt: int)
    | SessionCall(profile: Profile, kind: RequestKind)
    | SetQuitting
    | SetExclusive(active: bool)
    | ReleaseCentral
    | ExclusiveExpired
    | RegisterMac(mac: string, owner: Owner)
    | UnregisterMac(mac: string, owner: Owner)
    | ScanAcquire(scanOwner: ScanOwner)
    | ScanRelease(lease: int)

  /** `getConnections`: links of the reservations, oldest attempt first. */
  function Links(reservations: map<int, Reservation>, n: int): seq<LinkEntry> {
    if n <= 0 then []
    else if n - 1 in reservations then
      Links(reservations, n - 1) + [LinkEntry(reservations[n - 1].address, Gatt(reservations[n - 1].profile))]
    else Links(reservations, n - 1)
  }

  function AllLinks(s: State): seq<LinkEntry> { Links(s.reservations, s.nextAttempt) }

  function Emit(s: State, o: Output): State { s.(log := s.log + [o]) }

  predicate IsCurrent(s: State, p: Profile, a: int) {
    p in s.connectAttempts && s.connectAttempts[p] == a
  }

  function ClearLocalSession(s: State, p: Profile): State { s.(sessions := s.sessions - {p}) }

  function ReleaseReservation(s: State, a: int): State { s.(reservations := s.reservations - {a}) }

  /** What the start of a cleanup round leaves behind. */
  datatype Round = Round(reservations: map<int, Reservation>, cleanups: map<int, CleanupCall>, nextCleanup: int, sent: seq<Output>)

  /** `reconcileRemoteSession` up to its first await. */
  function StartRound(rs: map<int, Reservation>, cleanups: map<int, CleanupCall>, n: int, generation: int, a: int): Round {
    if a !in rs || !rs[a].HasSid() then Round(rs, cleanups, n, [])
    else
      var r := rs[a].(attempts := rs[a].attempts + 1);
      if r.token.None? then Round(rs - {a}, cleanups, n, [])
      else Round(rs[a := r], cleanups[n := CleanupCall(a, Deleting, r.madeIn)], n + 1, [Request(DeleteSession, r.madeIn, generation)])
  }

  /** `beginRemoteCleanup`: a round starts unless there is nothing to tear down or it runs already. */
  function BeginRound(rs: map<int, Reservation>, cleanups: map<int, CleanupCall>, n: int, generation: int, a: int): Round {
    if a !in rs || !rs[a].HasSid() || rs[a].cleaningUp then Round(rs, cleanups, n, [])
    else StartRound(rs[a := rs[a].(cleaningUp := true)], cleanups, n, generation, a)
  }

  function WithRound(s: State, d: Round): State {
    s.(reservations := d.reservations, cleanups := d.cleanups, nextCleanup := d.nextCleanup, log := s.log + d.sent)
  }

  function StartReconcile(s: State, a: int): State {
    WithRound(s, StartRound(s.reservations, s.cleanups, s.nextCleanup, s.generation, a))
  }

  function BeginRemoteCleanup(s: State, a: int): State {
    WithRound(s, BeginRound(s.reservations, s.cleanups, s.nextCleanup, s.generation, a))
  }

  function Disconnect(s: State, p: Profile): State
  {
    var dropped := s.(connectAttempts := s.connectAttempts - {p});
    if p !in s.sessions then dropped
    else BeginRemoteCleanup(Emit(ClearLocalSession(dropped, p), Disconnected(p)), s.sessions[p].attempt)
  }

  function DisconnectAll(s: State): State
  { Disconnect(Disconnect(s, Meshtastic), Meshcore) }

  /** The `finally` block of `connect`, after which the call is gone. */
  function Finish(s: State, a: int): State
    requires a in s.calls
  {
    var p := s.calls[a].profile;
    s.(connectAttempts := if IsCurrent(s, p, a) then s.connectAttempts - {p} else s.connectAttempts,
       reservations := if a in s.reservations && !s.reservations[a].HasSid() then s.reservations - {a} else s.reservations,
       calls := s.calls - {a})
  }

  /** The `catch` block of `connect`, then its `finally`. */
  function Rejected(s: State, a: int): State
    requires a in s.calls
  {
    var p := s.calls[a].profile;
    if !IsCurrent(s, p, a) then Finish(s, a)
    else Finish(Emit(BeginRemoteCleanup(ClearLocalSession(s, p), a), Aborted(p)), a)
  }

  function Connect(normalize: string -> string, s: State, lease: int, p: Profile, address: string): State {
    if s.exclusive then s
    else if !AssertCanConnect(normalize, s.registry, AllLinks(s), s.scan, Gatt(p), address) then s
    else AddAttempt(Disconnect(s, p), lease, p, address)
  }

  /** A new attempt with its reservation, its call waiting for the port. */
  function AddAttempt(d: State, lease: int, p: Profile, address: string): State {
    var a := d.nextAttempt;
    d.(nextAttempt := a + 1,
       connectAttempts := d.connectAttempts[p := a],
       latest := d.latest[p := a],
       reservations := d.reservations[a := Reservation(p, address, 0, None, None, 0, false, 0, false)],
       calls := d.calls[a := Call(p, lease, if d.port > 0 then PortReady(Some(d.port)) else Ensuring(d.generation))])
  }

  /** `ensurePort` after its await. */
  function AfterEnsure(s: State, a: int, result: Option<int>): State
    requires a in s.calls && s.calls[a].pc.Ensuring?
  {
    var current := result.Some? && s.calls[a].pc.generation == s.generation;
    var stale := result.Some? && !current && s.port == result.value;
    var port := if current then result.value else if stale then 0 else s.port;
    s.(port := port, calls := s.calls[a := s.calls[a].(pc := PortReady(if current then result else None))])
  }

  function AfterPort(s: State, a: int): State
    requires a in s.calls && s.calls[a].pc.PortReady?
  {
    var p := s.calls[a].profile;
    match s.calls[a].pc.port
    case None => Rejected(s, a)
    case Some(port) =>
      if !IsCurrent(s, p, a) then Finish(s, a)
      else
        s.(reservations :=
             if a in s.reservations then s.reservations[a := s.reservations[a].(port := port, token := s.token)]
             else s.reservations,
           calls := s.calls[a := s.calls[a].(pc := Posting(s.token.Some?, s.generation))])
  }

  /** The answered session id, recorded on the attempt's reservation. */
  function WithSid(s: State, a: int, sid: Option<string>): State
    requires a in s.calls && s.calls[a].pc.Posting?
  {
    s.(reservations :=
         if sid.Some? && a in s.reservations then
           s.reservations[a := s.reservations[a].(sid := sid, madeIn := s.calls[a].pc.generation)]
         else s.reservations)
  }

  /** The session goes live on an open socket under the attempt that asked for it. */
  function Installed(s: State, a: int, sid: string): State
    requires a in s.calls && s.calls[a].pc.Posting? && a in s.reservations
  {
    var call := s.calls[a];
    s.(sessions := s.sessions[call.profile := Live(a, sid, call.pc.generation, s.reservations[a].address)],
       sockets := s.sockets[a := Socket(call.profile, Pending)],
       calls := s.calls[a := call.(pc := Opening)],
       log := s.log + [Request(EventSocket, call.pc.generation, s.generation)])
  }

  /** `connect` once the answer is recorded. */
  function AfterAnswer(s: State, a: int, ok: bool, sid: Option<string>, socketThrows: bool): State
    requires a in s.calls && s.calls[a].pc.Posting?
  {
    if !IsCurrent(s, s.calls[a].profile, a) then Finish(BeginRemoteCleanup(s, a), a)
    else if !ok || sid.None? then Finish(Emit(BeginRemoteCleanup(s, a), Aborted(s.calls[a].profile)), a)
    else if a !in s.reservations || s.reservations[a].token.None? || socketThrows then Rejected(s, a)
    else Installed(s, a, sid.value)
  }

  function AfterPost(s: State, a: int, outcome: PostOutcome): State
    requires a in s.calls && s.calls[a].pc.Posting?
  {
    match outcome
    case PostThrew => Rejected(s, a)
    case PostReply(ok, sid, socketThrows) => AfterAnswer(WithSid(s, a, sid), a, ok, sid, socketThrows)
  }

  function AfterReady(s: State, a: int): State
    requires a in s.calls && a in s.sockets
  {
    var p := s.calls[a].profile;
    if s.sockets[a].ready == Failed then Rejected(s, a)
    else if !IsCurrent(s, p, a) || p !in s.sessions || s.sessions[p].attempt != a then Finish(s, a)
    else Finish(Emit(s, Connected(p)), a)
  }

  /** The socket's `disconnected` closure: only the current socket of the profile acts. */
  function SocketGone(s: State, a: int): State
    requires a in s.sockets
  {
    var p := s.sockets[a].profile;
    if p !in s.sessions || s.sessions[p].attempt != a then s
    else Emit(BeginRemoteCleanup(ClearLocalSession(s, p), a), Disconnected(p))
  }

  function SettleSocket(s: State, a: int, ready: Ready): State
    requires a in s.sockets
  {
    s.(sockets := if s.sockets[a].ready == Pending then s.sockets[a := s.sockets[a].(ready := ready)] else s.sockets)
  }

  function ExitLog(s: State): seq<Output> {
    (if Meshtastic in s.sessions then [Disconnected(Meshtastic)] else []) +
    (if Meshcore in s.sessions then [Disconnected(Meshcore)] else [])
  }

  function AfterExit(s: State): State {
    s.(port := 0, token := None, generation := s.generation + 1,
       connectAttempts := map[], reservations := map[], sessions := map[],
       log := s.log + ExitLog(s))
  }

  function AfterDelete(s: State, c: int, outcome: DeleteOutcome): State
    requires c in s.cleanups
  {
    var call := s.cleanups[c];
    var released := outcome == Confirmed || (outcome == DeleteThrew && s.quitting);
    var probes := !released && call.attempt in s.reservations;
    s.(reservations := if released then s.reservations - {call.attempt} else s.reservations,
       cleanups := if probes then s.cleanups[c := call.(pc := Probing)] else s.cleanups - {c},
       log := if probes then s.log + [Request(ProbeSession, call.madeIn, s.generation)] else s.log)
  }

  function AfterProbe(s: State, c: int, gone: bool): State
    requires c in s.cleanups
  {
    var id := s.cleanups[c].attempt;
    s.(cleanups := s.cleanups - {c},
       reservations :=
         if gone || id !in s.reservations || s.reservations[id].attempts >= CLEANUP_MAX_ATTEMPTS then s.reservations - {id}
         else s.reservations[id := s.reservations[id].(timer := true)])
  }

  function AfterTimer(s: State, a: int): State
    requires a in s.reservations
  {
    StartReconcile(s.(reservations := s.reservations[a := s.reservations[a].(timer := false)]), a)
  }

  /** `toRadio`, `isConnected` and `getRssi`: one request about the live session, if there is one. */
  function Ask(s: State, p: Profile, kind: RequestKind): State {
    s.(log := if p in s.sessions then s.log + [Request(kind, s.sessions[p].madeIn, s.generation)] else s.log)
  }

  function SetHold(s: State, active: bool): State {
    s.(exclusive := active, heldByRelease := active && s.heldByRelease)
  }

  /** The hold's timer, which acts only while the hold is active. */
  function HoldExpired(s: State): State {
    s.(exclusive := false, heldByRelease := !s.exclusive && s.heldByRelease)
  }

  /** `releaseBleCentral`; the raced disconnects are already settled, so it is one stretch. */
  function Release(s: State): State
  {
    var holding := SetHold(s, true);
    if s.exclusive then holding else DisconnectAll(holding).(heldByRelease := true)
  }

  function Acquire(s: State, owner: ScanOwner): State {
    var (lock, grant) := AfterAcquire(s.scan, owner);
    s.(scan := lock,
       leases := if grant.Granted? then s.leases[s.nextLease := owner] else s.leases,
       nextLease := if grant.Granted? then s.nextLease + 1 else s.nextLease)
  }

  /** What the runtime can do next. */
  predicate Enabled(s: State, e: Event) {
    match e
    case ConnectCall(lease, _, _) => lease in s.leases && s.leases[lease] == GattScan
    case EnsureSettled(a, _) => a in s.calls && s.calls[a].pc.Ensuring?
    case ResumeWithPort(a) => a in s.calls && s.calls[a].pc.PortReady?
    case PostSettled(a, o) => a in s.calls && s.calls[a].pc.Posting? && (o.PostReply? ==> s.calls[a].pc.issued)
    case ReadySettled(a) => a in s.calls && s.calls[a].pc.Opening? && a in s.sockets && s.sockets[a].ready != Pending
    case SocketOpened(a) => a in s.sockets
    case SocketBroken(a) => a in s.sockets
    case SocketSaysGone(a) => a in s.sockets
    case DeleteSettled(c, _) => c in s.cleanups && s.cleanups[c].pc == Deleting
    case ProbeSettled(c, _) => c in s.cleanups && s.cleanups[c].pc == Probing
    case CleanupTimerFired(a) => a in s.reservations && s.reservations[a].timer
    case SessionCall(_, kind) => kind.WriteSession? || kind.ProbeSession? || kind.ReadRssi?
    case ScanRelease(lease) => lease in s.leases && forall a | a in s.calls :: s.calls[a].lease != lease
    case _ => true
  }

  function Step(normalize: string -> string, s: State, e: Event): State
    requires Enabled(s, e)
  {
    match e
    case ConnectCall(lease, p, address) => Connect(normalize, s, lease, p, address)
    case EnsureSettled(a, result) => AfterEnsure(s, a, result)
    case ResumeWithPort(a) => AfterPort(s, a)
    case PostSettled(a, outcome) => AfterPost(s, a, outcome)
    case ReadySettled(a) => AfterReady(s, a)
    case SocketOpened(a) => SettleSocket(s, a, Opened)
    case SocketBroken(a) => SocketGone(SettleSocket(s, a, Failed), a)
    case SocketSaysGone(a) => SocketGone(s, a)
    case DisconnectCall(p) => Disconnect(s, p)
    case DisconnectAllCall => DisconnectAll(s)
    case SidecarExited => AfterExit(s)
    case SetPort(port, token) => s.(port := port, token := if port > 0 then Some(token) else None)
    case DeleteSettled(c, outcome) => AfterDelete(s, c, outcome)
    case ProbeSettled(c, gone) => AfterProbe(s, c, gone)
    case CleanupTimerFired(a) => AfterTimer(s, a)
    case SessionCall(p, kind) => Ask(s, p, kind)
    case SetQuitting => s.(quitting := true)
    case SetExclusive(active) => SetHold(s, active)
    case ReleaseCentral => Release(s)
    case ExclusiveExpired => HoldExpired(s)
    case RegisterMac(mac, owner) => s.(registry := AfterRegister(normalize, s.registry, AllLinks(s), mac, owner))
    case UnregisterMac(mac, owner) => s.(registry := AfterUnregister(normalize, s.registry, mac, owner))
    case ScanAcquire(owner) => Acquire(s, owner)
    case ScanRelease(lease) =>
      s.(scan := AfterRelease(s.scan, s.leases[lease]), leases := s.leases - {lease})
  }

  ghost predicate ValidRun(normalize: string -> string, s: State, run: seq<Event>)
    decreases |run|
  {
    run == [] || (Enabled(s, run[0]) && ValidRun(normalize, Step(normalize, s, run[0]), run[1..]))
  }

  function Run(normalize: string -> string, s: State, run: seq<Event>): State
    requires ValidRun(normalize, s, run)
    decreases |run|
  {
    if run == [] then s else Run(normalize, Step(normalize, s, run[0]), run[1..])
  }
}
