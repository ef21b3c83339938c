/** How the GATT proxy gets on: rounds of a teardown, hold and sockets, and connects that nothing disturbs. */
module GattProgress {
  import opened Wrappers
  import opened Coexistence
  import opened GattProtocol
  import opened GattInvariants
  import opened GattSteps
  import opened GattProperties
  import opened GattOutcomes
  import opened GattTrace

  // Rounds of a teardown

  /** Every reservation that is kept counts its first round when its teardown begins, and no round before. */
  ghost predicate Counts(rs: Reservations, ts: Reservations) {
    forall a | a in rs && a in ts ::
      && (rs[a].cleaningUp ==> ts[a].cleaningUp)
      && ts[a].attempts == rs[a].attempts + if ts[a].cleaningUp && !rs[a].cleaningUp then 1 else 0
  }

  lemma CleanupCounts(s: State, a: int)
    ensures Counts(s.reservations, BeginRemoteCleanup(s, a).reservations) && SameMacs(s.reservations, BeginRemoteCleanup(s, a).reservations)
  {
  }

  lemma CountsChain(rs: Reservations, ts: Reservations, us: Reservations)
    requires Counts(rs, ts) && Counts(ts, us) && SameMacs(ts, us)
    ensures Counts(rs, us)
  {
  }

  lemma DisconnectCounts(s: State, p: Profile)
    ensures Counts(s.reservations, Disconnect(s, p).reservations) && SameMacs(s.reservations, Disconnect(s, p).reservations)
  {
    hide BeginRemoteCleanup;
    if p in s.sessions {
      CleanupCounts(Emit(ClearLocalSession(s.(connectAttempts := s.connectAttempts - {p}), p), Disconnected(p)), s.sessions[p].attempt);
    }
  }

  lemma DisconnectAllCounts(s: State)
    ensures Counts(s.reservations, DisconnectAll(s).reservations)
  {
    hide Disconnect, Counts, SameMacs;
    DisconnectCounts(s, Meshtastic);
    DisconnectCounts(Disconnect(s, Meshtastic), Meshcore);
    CountsChain(s.reservations, Disconnect(s, Meshtastic).reservations, DisconnectAll(s).reservations);
  }

  lemma FinishCounts(s: State, a: int)
    requires a in s.calls
    ensures Counts(s.reservations, Finish(s, a).reservations) && SameMacs(s.reservations, Finish(s, a).reservations)
  {
  }

  lemma RejectedCounts(s: State, a: int)
    requires a in s.calls
    ensures Counts(s.reservations, Rejected(s, a).reservations)
  {
    hide BeginRemoteCleanup, Finish, Counts, SameMacs;
    var p := s.calls[a].profile;
    var cleared := ClearLocalSession(s, p);
    CleanupCounts(cleared, a);
    CleanupCalls(cleared, a);
    var told := Emit(BeginRemoteCleanup(cleared, a), Aborted(p));
    FinishCounts(s, a);
    FinishCounts(told, a);
    CountsChain(s.reservations, told.reservations, Finish(told, a).reservations);
  }

  lemma AnswerCounts(s: State, a: int, ok: bool, sid: Option<string>, socketThrows: bool)
    requires a in s.calls && s.calls[a].pc.Posting?
    requires IsCurrent(s, s.calls[a].profile, a) ==> a in s.reservations && s.reservations[a].token.Some?
    ensures Counts(s.reservations, AfterAnswer(s, a, ok, sid, socketThrows).reservations)
  {
    hide BeginRemoteCleanup, Finish, Rejected, AfterAnswer, Counts, SameMacs, IsCurrent;
    CleanupCounts(s, a);
    CleanupCalls(s, a);
    AnswerCases(s, a, ok, sid, socketThrows);
    RejectedCounts(s, a);
    var cleaned := BeginRemoteCleanup(s, a);
    var told := Emit(cleaned, Aborted(s.calls[a].profile));
    FinishCounts(cleaned, a);
    CountsChain(s.reservations, cleaned.reservations, Finish(cleaned, a).reservations);
    FinishCounts(told, a);
    CountsChain(s.reservations, told.reservations, Finish(told, a).reservations);
    Uncounted(s.reservations);
  }

  lemma Uncounted(rs: Reservations)
    ensures Counts(rs, rs)
  {
  }

  lemma PostCounts(normalize: string -> string, s: State, a: int, o: PostOutcome)
    requires Inv(normalize, s) && Enabled(s, PostSettled(a, o))
    ensures Counts(s.reservations, AfterPost(s, a, o).reservations)
  {
    hide Inv, AfterAnswer, Rejected, Counts, IsCurrent, WithSid;
    if o.PostThrew? {
      RejectedCounts(s, a);
    } else {
      var t := WithSid(s, a, o.sid);
      PostingFacts(normalize, s, a);
      NamedSame(s, a, o.sid);
      SameCurrent(s, t, s.calls[a].profile, a);
      AnswerCounts(t, a, o.ok, o.sid, o.socketThrows);
      NamedCounts(s, a, o.sid, AfterPost(s, a, o).reservations);
    }
  }

  lemma NamedCounts(s: State, a: int, sid: Option<string>, ts: Reservations)
    requires a in s.calls && s.calls[a].pc.Posting? && Counts(WithSid(s, a, sid).reservations, ts)
    ensures Counts(s.reservations, ts)
  {
  }

  lemma PortCounts(s: State, a: int)
    requires a in s.calls && s.calls[a].pc.PortReady?
    ensures Counts(s.reservations, AfterPort(s, a).reservations)
  {
    hide Rejected, Finish;
    RejectedCounts(s, a);
    FinishCounts(s, a);
  }

  lemma ReadyCounts(s: State, a: int)
    requires a in s.calls && a in s.sockets
    ensures Counts(s.reservations, AfterReady(s, a).reservations)
  {
    hide Rejected, Finish, AfterReady, Counts;
    ReadyCases(s, a);
    RejectedCounts(s, a);
    FinishCounts(s, a);
    FinishCounts(Emit(s, Connected(s.calls[a].profile)), a);
  }

  lemma GoneCounts(s: State, a: int)
    requires a in s.sockets
    ensures Counts(s.reservations, SocketGone(s, a).reservations)
  {
    hide BeginRemoteCleanup;
    CleanupCounts(ClearLocalSession(s, s.sockets[a].profile), a);
  }

  lemma NewNumber(normalize: string -> string, s: State)
    requires Inv(normalize, s)
    ensures s.nextAttempt !in s.reservations && s.nextAttempt !in s.calls && s.nextAttempt !in s.sockets
  {
  }

  lemma ConnectCounts(normalize: string -> string, s: State, lease: int, p: Profile, address: string)
    requires Inv(normalize, s)
    ensures Counts(s.reservations, Connect(normalize, s, lease, p, address).reservations)
  {
    hide Inv, AssertCanConnect, AllLinks, Disconnect;
    NewNumber(normalize, s);
    DisconnectCounts(s, p);
    DisconnectFrame(s, p);
  }

  lemma CallCounts(normalize: string -> string, s: State, e: Event)
    requires Inv(normalize, s) && Enabled(s, e) && (e.ResumeWithPort? || e.PostSettled? || e.ReadySettled?)
    ensures Counts(s.reservations, Step(normalize, s, e).reservations)
  {
    hide Inv, AfterPort, AfterPost, AfterReady, Counts;
    match e
    case ResumeWithPort(a) => PortCounts(s, a);
    case PostSettled(a, o) => PostCounts(normalize, s, a, o);
    case ReadySettled(a) => ReadyCounts(s, a);
  }

  lemma DropCounts(normalize: string -> string, s: State, e: Event)
    requires Inv(normalize, s) && Enabled(s, e)
    requires e.ConnectCall? || e.SocketBroken? || e.SocketSaysGone? || e.DisconnectCall? || e.DisconnectAllCall? || e.ReleaseCentral?
    ensures Counts(s.reservations, Step(normalize, s, e).reservations)
  {
    hide Inv, Connect, Disconnect, DisconnectAll, SocketGone, Counts;
    match e
    case ConnectCall(lease, p, address) => ConnectCounts(normalize, s, lease, p, address);
    case SocketBroken(a) => GoneCounts(SettleSocket(s, a, Failed), a);
    case SocketSaysGone(a) => GoneCounts(s, a);
    case DisconnectCall(p) => DisconnectCounts(s, p);
    case DisconnectAllCall => DisconnectAllCounts(s);
    case ReleaseCentral => DisconnectAllCounts(SetHold(s, true)); Uncounted(s.reservations);
  }

  lemma ReplyCounts(normalize: string -> string, s: State, e: Event)
    requires Enabled(s, e) && (e.DeleteSettled? || e.ProbeSettled? || e.SidecarExited?)
    ensures Counts(s.reservations, Step(normalize, s, e).reservations)
  {
  }

  lemma TimerCounts(normalize: string -> string, s: State, b: int, a: int)
    requires Inv(normalize, s) && Enabled(s, CleanupTimerFired(b)) && a in s.reservations && a in AfterTimer(s, b).reservations
    ensures AfterTimer(s, b).reservations[a].cleaningUp == s.reservations[a].cleaningUp
    ensures AfterTimer(s, b).reservations[a].attempts == s.reservations[a].attempts + if a == b then 1 else 0
  {
    hide Inv;
    TimerFacts(normalize, s, b);
  }

  /** The rounds of a teardown are counted one by one: the first when it begins, another with each firing of its timer. */
  lemma RoundsAreCounted(normalize: string -> string, s: State, e: Event, a: int)
    requires Reachable(normalize, s) && Enabled(s, e) && a in s.reservations && a in Step(normalize, s, e).reservations
    ensures var was, now := s.reservations[a], Step(normalize, s, e).reservations[a];
            && (was.cleaningUp ==> now.cleaningUp)
            && (!now.cleaningUp ==> now.attempts == 0)
            && (now.cleaningUp && !was.cleaningUp ==> now.attempts == 1)
            && (was.cleaningUp ==> now.attempts == was.attempts + if e == CleanupTimerFired(a) then 1 else 0)
  {
    hide Inv, Step, Enabled;
    ReachableHolds(normalize, s);
    if !s.reservations[a].cleaningUp { UncountedYet(normalize, s, a); }
    if Quiet(e) {
      QuietStep(normalize, s, e);
    } else if e.ResumeWithPort? || e.PostSettled? || e.ReadySettled? {
      CallCounts(normalize, s, e);
    } else if e.DeleteSettled? || e.ProbeSettled? || e.SidecarExited? {
      ReplyCounts(normalize, s, e);
    } else if e.CleanupTimerFired? {
      TimerStep(normalize, s, e.attempt);
      TimerCounts(normalize, s, e.attempt, a);
      CleaningTimers(normalize, s, e.attempt);
    } else {
      DropCounts(normalize, s, e);
    }
  }

  lemma UncountedYet(normalize: string -> string, s: State, a: int)
    requires Inv(normalize, s) && a in s.reservations && !s.reservations[a].cleaningUp
    ensures s.reservations[a].attempts == 0
  {
    assert InSomePhase(s.reservations[a], a, s.sessions, s.calls, s.cleanups, NOBODY);
  }

  lemma CleaningTimers(normalize: string -> string, s: State, a: int)
    requires Inv(normalize, s) && Enabled(s, CleanupTimerFired(a))
    ensures s.reservations[a].cleaningUp
  {
    assert InSomePhase(s.reservations[a], a, s.sessions, s.calls, s.cleanups, NOBODY);
  }

  lemma TimerStep(normalize: string -> string, s: State, a: int)
    requires Enabled(s, CleanupTimerFired(a))
    ensures Step(normalize, s, CleanupTimerFired(a)) == AfterTimer(s, a)
  {
  }

  // Hold, endpoint and scan lock

  lemma FinishSurroundings(s: State, a: int)
    requires a in s.calls
    ensures SameSurroundings(s, Finish(s, a)) && Finish(s, a).sockets == s.sockets
  {
  }

  lemma CleanupSurroundings(s: State, a: int)
    ensures SameSurroundings(s, BeginRemoteCleanup(s, a)) && BeginRemoteCleanup(s, a).sockets == s.sockets
  {
    hide BeginRemoteCleanup, SameMacs;
    CleanupFrame(s, a);
  }

  lemma RejectedSurroundings(s: State, a: int)
    requires a in s.calls
    ensures SameSurroundings(s, Rejected(s, a)) && Rejected(s, a).sockets == s.sockets
  {
    hide BeginRemoteCleanup, Finish, IsCurrent;
    var cleared := ClearLocalSession(s, s.calls[a].profile);
    CleanupCalls(cleared, a);
    CleanupSurroundings(cleared, a);
    FinishSurroundings(s, a);
    FinishSurroundings(Emit(BeginRemoteCleanup(cleared, a), Aborted(s.calls[a].profile)), a);
  }

  lemma AnswerSurroundings(s: State, a: int, ok: bool, sid: Option<string>, socketThrows: bool)
    requires a in s.calls && s.calls[a].pc.Posting?
    requires IsCurrent(s, s.calls[a].profile, a) ==> a in s.reservations && s.reservations[a].token.Some?
    ensures var p, t := s.calls[a].profile, AfterAnswer(s, a, ok, sid, socketThrows);
            && SameSurroundings(s, t)
            && t.sockets == if ok && sid.Some? && !socketThrows && IsCurrent(s, p, a) then s.sockets[a := Socket(p, Pending)] else s.sockets
  {
    hide BeginRemoteCleanup, Finish, Rejected, AfterAnswer, IsCurrent;
    var cleaned := BeginRemoteCleanup(s, a);
    CleanupCalls(s, a);
    AnswerCases(s, a, ok, sid, socketThrows);
    RejectedSurroundings(s, a);
    CleanupSurroundings(s, a);
    FinishSurroundings(cleaned, a);
    FinishSurroundings(Emit(cleaned, Aborted(s.calls[a].profile)), a);
  }

  lemma PostSurroundings(normalize: string -> string, s: State, a: int, o: PostOutcome)
    requires Inv(normalize, s) && Enabled(s, PostSettled(a, o))
    ensures SameSurroundings(s, AfterPost(s, a, o))
    ensures AfterPost(s, a, o).sockets ==
            if GoesLive(s, PostSettled(a, o)) then s.sockets[a := Socket(s.calls[a].profile, Pending)] else s.sockets
  {
    hide Inv, AfterAnswer, Rejected, IsCurrent;
    if o.PostThrew? {
      RejectedSurroundings(s, a);
    } else {
      var t := WithSid(s, a, o.sid);
      PostingFacts(normalize, s, a);
      SameCurrent(s, t, s.calls[a].profile, a);
      AnswerSurroundings(t, a, o.ok, o.sid, o.socketThrows);
    }
  }

  lemma CallSurroundings(normalize: string -> string, s: State, e: Event)
    requires Inv(normalize, s) && Enabled(s, e) && (e.ResumeWithPort? || e.PostSettled? || e.ReadySettled?)
    ensures SameSurroundings(s, Step(normalize, s, e))
    ensures Step(normalize, s, e).sockets ==
            if GoesLive(s, e) then s.sockets[e.attempt := Socket(s.calls[e.attempt].profile, Pending)] else s.sockets
  {
    hide Inv, AfterPost, AfterPort, AfterReady;
    match e
    case ResumeWithPort(a) => PortSurroundings(s, a);
    case PostSettled(a, o) => PostSurroundings(normalize, s, a, o);
    case ReadySettled(a) => ReadySurroundings(s, a);
  }

  lemma PortSurroundings(s: State, a: int)
    requires a in s.calls && s.calls[a].pc.PortReady?
    ensures SameSurroundings(s, AfterPort(s, a)) && AfterPort(s, a).sockets == s.sockets
  {
    hide Rejected, Finish, AfterPort, IsCurrent;
    PortCases(s, a);
    RejectedSurroundings(s, a);
    FinishSurroundings(s, a);
  }

  lemma ReadySurroundings(s: State, a: int)
    requires a in s.calls && a in s.sockets
    ensures SameSurroundings(s, AfterReady(s, a)) && AfterReady(s, a).sockets == s.sockets
  {
    hide Rejected, Finish, AfterReady;
    ReadyCases(s, a);
    RejectedSurroundings(s, a);
    FinishSurroundings(s, a);
    FinishSurroundings(Emit(s, Connected(s.calls[a].profile)), a);
  }

  lemma AllSurroundings(s: State)
    ensures SameSurroundings(s, DisconnectAll(s)) && DisconnectAll(s).sockets == s.sockets
  {
    hide Disconnect, SameMacs;
    DisconnectFrame(s, Meshtastic);
    DisconnectFrame(Disconnect(s, Meshtastic), Meshcore);
  }

  lemma DropSurroundings(normalize: string -> string, s: State, e: Event)
    requires Enabled(s, e)
    requires e.ConnectCall? || e.SocketBroken? || e.SocketSaysGone? || e.DisconnectCall? || e.DisconnectAllCall?
    ensures SameSurroundings(s, Step(normalize, s, e))
    ensures Step(normalize, s, e).sockets == if e.SocketBroken? then SettleSocket(s, e.attempt, Failed).sockets else s.sockets
  {
    hide AssertCanConnect, AllLinks, Disconnect, DisconnectAll, BeginRemoteCleanup, SameMacs;
    match e
    case ConnectCall(_, p, _) => DisconnectFrame(s, p);
    case SocketBroken(a) => CleanupSurroundings(ClearLocalSession(SettleSocket(s, a, Failed), s.sockets[a].profile), a);
    case SocketSaysGone(a) => CleanupSurroundings(ClearLocalSession(s, s.sockets[a].profile), a);
    case DisconnectCall(p) => DisconnectFrame(s, p);
    case DisconnectAllCall => AllSurroundings(s);
  }

  lemma ReplySurroundings(normalize: string -> string, s: State, e: Event)
    requires Enabled(s, e) && (e.DeleteSettled? || e.ProbeSettled? || e.CleanupTimerFired?)
    ensures SameSurroundings(s, Step(normalize, s, e)) && Step(normalize, s, e).sockets == s.sockets
  {
  }

  /** Events after which hold, endpoint, process and quitting flag are as before. */
  predicate Leaves(e: Event) {
    !(e.SetExclusive? || e.ReleaseCentral? || e.ExclusiveExpired? || e.SetPort? || e.SidecarExited? || e.SetQuitting?)
  }

  lemma QuietSurroundings(normalize: string -> string, s: State, e: Event)
    requires Enabled(s, e) && Quiet(e) && Leaves(e)
    ensures var t := Step(normalize, s, e);
            && t.token == s.token && t.generation == s.generation && t.exclusive == s.exclusive && t.quitting == s.quitting
            && t.heldByRelease == s.heldByRelease && (!e.RegisterMac? && !e.UnregisterMac? ==> t.registry == s.registry)
    ensures Step(normalize, s, e).sockets == if e.SocketOpened? then SettleSocket(s, e.attempt, Opened).sockets else s.sockets
  {
    hide AfterRegister, AfterUnregister, AllLinks, AfterAcquire, AfterRelease, Connect, AfterPort, AfterPost, AfterReady;
    hide SocketGone, Disconnect, DisconnectAll, Release, AfterDelete, AfterProbe, AfterTimer, AfterExit, SetHold, HoldExpired;
  }

  lemma LeavesSurroundings(normalize: string -> string, s: State, e: Event)
    requires Inv(normalize, s) && Enabled(s, e) && Leaves(e)
    ensures var t := Step(normalize, s, e);
            && t.token == s.token && t.generation == s.generation && t.exclusive == s.exclusive && t.quitting == s.quitting
            && t.heldByRelease == s.heldByRelease
  {
    hide Inv, Step;
    if e.ResumeWithPort? || e.PostSettled? || e.ReadySettled? {
      CallSurroundings(normalize, s, e);
    } else if e.DeleteSettled? || e.ProbeSettled? || e.CleanupTimerFired? {
      ReplySurroundings(normalize, s, e);
    } else if e.ConnectCall? || e.SocketBroken? || e.SocketSaysGone? || e.DisconnectCall? || e.DisconnectAllCall? {
      DropSurroundings(normalize, s, e);
    } else {
      QuietSurroundings(normalize, s, e);
    }
  }

  predicate EndsHold(e: Event) { e.ExclusiveExpired? || (e.SetExclusive? && !e.active) }

  /** The fields that only hold, endpoint and quitting events touch. */
  ghost predicate SurroundingsAfter(s: State, e: Event, t: State) {
    && (t.exclusive <==> if e.SetExclusive? then e.active else e.ReleaseCentral? || (s.exclusive && !e.ExclusiveExpired?))
    && (t.heldByRelease <==> (s.heldByRelease || (e.ReleaseCentral? && !s.exclusive)) && !EndsHold(e))
    && t.token == (if e.SetPort? then if e.httpPort > 0 then Some(e.token) else None else if e.SidecarExited? then None else s.token)
    && t.generation == s.generation + (if e.SidecarExited? then 1 else 0)
    && (t.quitting <==> s.quitting || e.SetQuitting?)
  }

  lemma OtherSurroundings(normalize: string -> string, s: State, e: Event)
    requires Enabled(s, e) && !Leaves(e) && (s.heldByRelease ==> s.exclusive)
    ensures SurroundingsAfter(s, e, Step(normalize, s, e))
  {
    hide Step, Release, Enabled, SetHold, HoldExpired, AfterExit, SurroundingsAfter;
    OtherSteps(normalize, s, e);
    match e
    case SetExclusive(active) => HoldLaws(s, active);
    case ExclusiveExpired => HoldLaws(s, false);
    case ReleaseCentral => HoldLaws(s, true);
    case SetPort(port, token) => EndpointLaws(s, port, token);
    case SidecarExited => EndpointLaws(s, 0, 0);
    case SetQuitting => EndpointLaws(s, 0, 0);
  }

  lemma HoldLaws(s: State, active: bool)
    requires s.heldByRelease ==> s.exclusive
    ensures SurroundingsAfter(s, SetExclusive(active), SetHold(s, active))
    ensures SurroundingsAfter(s, ExclusiveExpired, HoldExpired(s))
    ensures SurroundingsAfter(s, ReleaseCentral, Release(s))
  {
    hide Release;
    ReleaseSurroundings(s);
  }

  lemma EndpointLaws(s: State, port: int, token: Token)
    ensures SurroundingsAfter(s, SetPort(port, token), s.(port := port, token := if port > 0 then Some(token) else None))
    ensures SurroundingsAfter(s, SidecarExited, AfterExit(s))
    ensures SurroundingsAfter(s, SetQuitting, s.(quitting := true))
  {
  }

  /** The hold is on from its entry to its release or the end of its time; the token is the last one given while the
      sidecar runs; each exit begins a new generation; quitting is for good. */
  lemma SurroundingsExactly(normalize: string -> string, s: State, e: Event)
    requires Reachable(normalize, s) && Enabled(s, e)
    ensures SurroundingsAfter(s, e, Step(normalize, s, e))
  {
    hide Inv, Step, Reachable, Enabled;
    ReachableHolds(normalize, s);
    HeldIsExclusive(normalize, s);
    if Leaves(e) { LeavesSurroundings(normalize, s, e); } else { OtherSurroundings(normalize, s, e); }
  }

  lemma HeldIsExclusive(normalize: string -> string, s: State)
    requires Inv(normalize, s)
    ensures s.heldByRelease ==> s.exclusive
  {
  }

  /** Once releaseBleCentral has entered the hold, no run that does not end it brings LoRa back. */
  lemma {:induction false} HoldKeepsLoRaOut(normalize: string -> string, s: State, run: seq<Event>)
    requires Reachable(normalize, s) && s.heldByRelease && ValidRun(normalize, s, run)
    requires forall i | 0 <= i < |run| :: !EndsHold(run[i])
    ensures var t := Run(normalize, s, run);
            t.heldByRelease && t.exclusive && t.sessions == map[] && t.connectAttempts == map[]
    decreases |run|
  {
    if run == [] {
      ReachableHolds(normalize, s);
    } else {
      hide Inv, Step, Reachable;
      Extend(normalize, s, run[0]);
      SurroundingsExactly(normalize, s, run[0]);
      HoldKeepsLoRaOut(normalize, Step(normalize, s, run[0]), run[1..]);
    }
  }

  /** It enters it where the latch was not set. */
  lemma ReleaseHolds(normalize: string -> string, s: State)
    requires Reachable(normalize, s) && !s.exclusive
    ensures Reachable(normalize, Step(normalize, s, ReleaseCentral)) && Step(normalize, s, ReleaseCentral).heldByRelease
  {
    hide Step, Reachable;
    Extend(normalize, s, ReleaseCentral);
    SurroundingsExactly(normalize, s, ReleaseCentral);
  }

  lemma OtherSteps(normalize: string -> string, s: State, e: Event)
    requires Enabled(s, e) && !Leaves(e)
    ensures e.ReleaseCentral? ==> Step(normalize, s, e) == Release(s)
    ensures e.SetExclusive? ==> Step(normalize, s, e) == SetHold(s, e.active)
    ensures e.ExclusiveExpired? ==> Step(normalize, s, e) == HoldExpired(s)
    ensures e.SidecarExited? ==> Step(normalize, s, e) == AfterExit(s)
    ensures e.SetQuitting? ==> Step(normalize, s, e) == s.(quitting := true)
    ensures e.SetPort? ==> Step(normalize, s, e) == s.(port := e.httpPort, token := if e.httpPort > 0 then Some(e.token) else None)
  {
    hide Release, SetHold, HoldExpired, AfterExit;
  }

  lemma ReleaseSurroundings(s: State)
    ensures SameSurroundings(SetHold(s, true).(heldByRelease := s.heldByRelease || !s.exclusive), Release(s))
    ensures Release(s).sockets == s.sockets
  {
    hide DisconnectAll;
    AllSurroundings(SetHold(s, true));
  }

  lemma SocketsAre(normalize: string -> string, s: State, e: Event)
    requires Inv(normalize, s) && Enabled(s, e)
    ensures Step(normalize, s, e).sockets ==
            if GoesLive(s, e) then s.sockets[e.attempt := Socket(s.calls[e.attempt].profile, Pending)]
            else if e.SocketOpened? then SettleSocket(s, e.attempt, Opened).sockets
            else if e.SocketBroken? then SettleSocket(s, e.attempt, Failed).sockets
            else s.sockets
  {
    hide Inv, Step, Release, SettleSocket, SameSurroundings;
    if Quiet(e) && Leaves(e) {
      QuietSurroundings(normalize, s, e);
    } else if e.ResumeWithPort? || e.PostSettled? || e.ReadySettled? {
      CallSurroundings(normalize, s, e);
    } else if e.DeleteSettled? || e.ProbeSettled? || e.CleanupTimerFired? {
      ReplySurroundings(normalize, s, e);
    } else if Leaves(e) {
      DropSurroundings(normalize, s, e);
    } else {
      OtherSockets(normalize, s, e);
    }
  }

  lemma OtherSockets(normalize: string -> string, s: State, e: Event)
    requires Enabled(s, e) && !Leaves(e)
    ensures Step(normalize, s, e).sockets == s.sockets && Step(normalize, s, e).registry == s.registry
  {
    hide Step, Release, Enabled;
    OtherSteps(normalize, s, e);
    ReleaseSurroundings(s);
  }

  lemma RegistryStays(normalize: string -> string, s: State, e: Event)
    requires Inv(normalize, s) && Enabled(s, e) && !e.RegisterMac? && !e.UnregisterMac?
    ensures Step(normalize, s, e).registry == s.registry
  {
    hide Inv, Step;
    if Quiet(e) && Leaves(e) {
      QuietSurroundings(normalize, s, e);
    } else if e.ResumeWithPort? || e.PostSettled? || e.ReadySettled? {
      CallSurroundings(normalize, s, e);
    } else if e.DeleteSettled? || e.ProbeSettled? || e.CleanupTimerFired? {
      ReplySurroundings(normalize, s, e);
    } else if Leaves(e) {
      DropSurroundings(normalize, s, e);
    } else {
      OtherSockets(normalize, s, e);
    }
  }

  lemma RegistrySteps(normalize: string -> string, s: State, mac: string, owner: Owner)
    ensures Step(normalize, s, RegisterMac(mac, owner)).registry == AfterRegister(normalize, s.registry, AllLinks(s), mac, owner)
    ensures Step(normalize, s, UnregisterMac(mac, owner)).registry == AfterUnregister(normalize, s.registry, mac, owner)
  {
  }

  /** Who owns a tracked key by registration: a registration takes it exactly if every holder, linked or registered, is the
      one who asks; only its owner's withdrawal gives it up; no other event, an exit included, touches it. */
  lemma RegistryExactly(normalize: string -> string, s: State, e: Event, key: string)
    requires Reachable(normalize, s) && Enabled(s, e) && key != ""
    ensures var t := Step(normalize, s, e);
            if e.RegisterMac? && normalize(e.mac) == key then
              && (key in t.registry && t.registry[key] == e.owner <==>
                    forall o :: Holds(normalize, s.registry, AllLinks(s), key, o) ==> o == e.owner)
            else if e.UnregisterMac? && normalize(e.mac) == key && key in s.registry && s.registry[key] == e.owner then key !in t.registry
            else (key in t.registry <==> key in s.registry) && (key in t.registry ==> t.registry[key] == s.registry[key])
  {
    hide Inv, Step, AllLinks, Holds, AfterRegister, AfterUnregister, Reachable;
    ReachableHolds(normalize, s);
    if e.RegisterMac? || e.UnregisterMac? {
      OneOwnerPerMac(normalize, s);
      RegistryChangesExactly(normalize, s.registry, AllLinks(s), e.mac, e.owner);
      RegistrySteps(normalize, s, e.mac, e.owner);
    } else {
      RegistryStays(normalize, s, e);
    }
  }

  /** A socket is made when its session goes live; its first opening or breaking settles it, and nothing else does. */
  lemma SocketsExactly(normalize: string -> string, s: State, e: Event, a: int)
    requires Reachable(normalize, s) && Enabled(s, e)
    ensures var t, made := Step(normalize, s, e), GoesLive(s, e) && e.attempt == a;
            && (a in t.sockets <==> a in s.sockets || made)
            && (made ==> t.sockets[a] == Socket(s.calls[a].profile, Pending))
            && (a in s.sockets && !made ==>
                  && t.sockets[a].profile == s.sockets[a].profile
                  && t.sockets[a].ready == if s.sockets[a].ready != Pending then s.sockets[a].ready
                                           else if e == SocketOpened(a) then Opened
                                           else if e == SocketBroken(a) then Failed else Pending)
  {
    hide Inv, Step, Reachable;
    ReachableHolds(normalize, s);
    SocketsAre(normalize, s, e);
  }

  /** A running call is never stuck: whatever the state, some event of its own moves it on, or breaks its socket. */
  lemma CallNeverStuck(normalize: string -> string, s: State, a: int) returns (e: Event)
    requires Reachable(normalize, s) && a in s.calls
    ensures Enabled(s, e) && (StepOf(e, a) || (e == SocketBroken(a) && Enabled(Step(normalize, s, e), ReadySettled(a))))
  {
    hide Inv, AfterEnsure, AfterPort, AfterPost, AfterReady;
    ReachableHolds(normalize, s);
    match s.calls[a].pc
    case Ensuring(_) => e := EnsureSettled(a, None);
    case PortReady(_) => e := ResumeWithPort(a);
    case Posting(_, _) => e := PostSettled(a, PostThrew);
    case Opening =>
      OpeningFacts(normalize, s, a);
      if s.sockets[a].ready != Pending {
        e := ReadySettled(a);
      } else {
        e := SocketBroken(a);
        SocketsExactly(normalize, s, e, a);
        SocketAttempts(normalize, s, e);
      }
  }

  lemma OpeningFacts(normalize: string -> string, s: State, a: int)
    requires Inv(normalize, s) && a in s.calls && s.calls[a].pc.Opening?
    ensures a in s.sockets
  {
  }

  lemma GrantExactly(scan: ScanLock, leases: map<int, ScanOwner>, owner: ScanOwner)
    requires scan.depth == |leases| && (scan.owner == None <==> leases == map[])
    requires forall l | l in leases :: scan.owner == Some(leases[l])
    ensures AfterAcquire(scan, owner) == if forall l | l in leases :: leases[l] == owner then (ScanLock(Some(owner), |leases| + 1), Granted)
                                         else (scan, Busy(scan.owner.value))
  {
    if !exists l :: l in leases { assert leases == map[]; }
  }

  lemma AcquireStep(normalize: string -> string, s: State, owner: ScanOwner)
    ensures Step(normalize, s, ScanAcquire(owner)) == Acquire(s, owner)
  {
    hide Acquire;
  }

  /** A scan is granted exactly while no other side has a lease out, as one more lease. */
  lemma ScanGrantedExactly(normalize: string -> string, s: State, owner: ScanOwner)
    requires Reachable(normalize, s)
    ensures var t := Step(normalize, s, ScanAcquire(owner));
            if forall l | l in s.leases :: s.leases[l] == owner then
              t.leases == s.leases[s.nextLease := owner] && s.nextLease !in s.leases && t.scan == ScanLock(Some(owner), |s.leases| + 1)
            else t.leases == s.leases && t.scan == s.scan
  {
    hide AfterAcquire, Step, Reachable;
    AcquireStep(normalize, s, owner);
    ScanDepthCountsLeases(normalize, s);
    GrantExactly(s.scan, s.leases, owner);
    NewLease(normalize, s);
  }

  lemma NewLease(normalize: string -> string, s: State)
    requires Reachable(normalize, s)
    ensures s.nextLease !in s.leases
  {
    ReachableHolds(normalize, s);
  }

  // A connect that nothing disturbs

  /** Steps of the attempt itself, and the sidecar announcing its endpoint. */
  predicate Own(e: Event, a: int) { e.ConnectCall? || e.SetPort? || StepOf(e, a) || e == SocketOpened(a) }

  /** Some run of such events leads there. */
  ghost predicate Leads(normalize: string -> string, s: State, t: State, a: int) {
    exists run :: ValidRun(normalize, s, run) && Run(normalize, s, run) == t && forall i | 0 <= i < |run| :: Own(run[i], a)
  }

  lemma Then(normalize: string -> string, s: State, t: State, e: Event, a: int)
    requires Reachable(normalize, t) && Leads(normalize, s, t, a) && Enabled(t, e) && Own(e, a)
    ensures Leads(normalize, s, Step(normalize, t, e), a) && Reachable(normalize, Step(normalize, t, e))
  {
    hide Step, Enabled;
    Extend(normalize, t, e);
    var run :| ValidRun(normalize, s, run) && Run(normalize, s, run) == t && forall i | 0 <= i < |run| :: Own(run[i], a);
    RunAppend(normalize, s, run, e);
  }

  lemma Here(normalize: string -> string, s: State, a: int)
    ensures Leads(normalize, s, s, a)
  {
    assert ValidRun(normalize, s, []) && Run(normalize, s, []) == s;
  }

  /** The admitted call of attempt `a` holds a port, and the sidecar's token is known. */
  predicate PortAndToken(t: State, a: int, p: Profile, address: string) {
    && a in t.calls && t.calls[a].profile == p && t.calls[a].pc.PortReady? && t.calls[a].pc.port.Some?
    && IsCurrent(t, p, a) && t.token.Some? && a in t.reservations && t.reservations[a].address == address
  }

  lemma PortComes(normalize: string -> string, s: State, t: State, a: int, p: Profile, address: string, port: int)
    returns (u: State)
    requires Reachable(normalize, t) && Leads(normalize, s, t, a) && Enabled(t, EnsureSettled(a, Some(port)))
    requires t.calls[a].profile == p && t.calls[a].pc.generation == t.generation
    requires IsCurrent(t, p, a) && t.token.Some? && a in t.reservations && t.reservations[a].address == address
    ensures Leads(normalize, s, u, a) && Reachable(normalize, u) && PortAndToken(u, a, p, address) && u.generation == t.generation
  {
    var e := EnsureSettled(a, Some(port));
    u := Step(normalize, t, e);
    hide Leads, Reachable;
    Then(normalize, s, t, e, a);
  }

  lemma PortKnown(normalize: string -> string, s: State, lease: int, p: Profile, address: string, port: int, token: Token)
    returns (u: State)
    requires Reachable(normalize, s) && Enabled(s, ConnectCall(lease, p, address)) && Admits(normalize, s, p, address) && port > 0
    ensures var a := s.nextAttempt;
            Leads(normalize, s, u, a) && Reachable(normalize, u) && PortAndToken(u, a, p, address) && u.generation == s.generation
  {
    hide Inv, Connect, Admits, Leads, Reachable;
    var a, e := s.nextAttempt, ConnectCall(lease, p, address);
    ReachableHolds(normalize, s);
    Here(normalize, s, a);
    ConnectDoes(normalize, s, lease, p, address);
    DropSurroundings(normalize, s, e);
    var asked := Step(normalize, s, e);
    Then(normalize, s, s, e, a);
    u := Step(normalize, asked, SetPort(port, token));
    Then(normalize, s, asked, SetPort(port, token), a);
    if u.calls[a].pc.Ensuring? { u := PortComes(normalize, s, u, a, p, address, port); }
  }

  /** The attempt waits for the answer to a request that was sent. */
  predicate Waits(t: State, a: int, p: Profile, address: string) {
    && a in t.calls && t.calls[a].profile == p && t.calls[a].pc == Posting(true, t.generation) && IsCurrent(t, p, a)
    && a in t.reservations && t.reservations[a].token.Some? && t.reservations[a].address == address
  }

  lemma RequestSent(normalize: string -> string, s: State, t: State, a: int, p: Profile, address: string) returns (u: State)
    requires Reachable(normalize, t) && Leads(normalize, s, t, a) && PortAndToken(t, a, p, address)
    ensures Leads(normalize, s, u, a) && Reachable(normalize, u) && Waits(u, a, p, address) && u.generation == t.generation
  {
    hide Inv, Leads, Reachable, Rejected, Finish;
    u := Step(normalize, t, ResumeWithPort(a));
    Then(normalize, s, t, ResumeWithPort(a), a);
  }

  /** The session is live on a socket that has not settled, its call waiting. */
  predicate Opens(t: State, a: int, p: Profile, address: string, sid: string) {
    && a in t.calls && t.calls[a].profile == p && t.calls[a].pc.Opening? && IsCurrent(t, p, a)
    && a in t.sockets && t.sockets[a] == Socket(p, Pending)
    && p in t.sessions && t.sessions[p] == Live(a, sid, t.generation, address)
    && a in t.reservations && t.reservations[a].sid == Some(sid)
  }

  lemma AnswerComes(normalize: string -> string, s: State, t: State, a: int, p: Profile, address: string, sid: string)
    returns (u: State)
    requires Reachable(normalize, t) && Leads(normalize, s, t, a) && Waits(t, a, p, address)
    ensures Leads(normalize, s, u, a) && Reachable(normalize, u) && Opens(u, a, p, address, sid) && u.generation == t.generation
  {
    hide Leads, Reachable, Rejected, Finish, BeginRemoteCleanup;
    var e := PostSettled(a, PostReply(true, Some(sid), false));
    u := Step(normalize, t, e);
    Then(normalize, s, t, e, a);
  }

  lemma SocketOpens(normalize: string -> string, s: State, t: State, a: int, p: Profile, address: string, sid: string)
    returns (u: State)
    requires Reachable(normalize, t) && Leads(normalize, s, t, a) && Opens(t, a, p, address, sid)
    ensures Leads(normalize, s, u, a) && Reachable(normalize, u) && u.generation == t.generation
    ensures p in u.sessions && u.sessions[p] == Live(a, sid, t.generation, address) && a !in u.calls
    ensures a in u.reservations <==> sid != ""
    ensures |u.log| > 0 && u.log[|u.log| - 1] == Connected(p)
  {
    hide Leads, Reachable, Rejected;
    Then(normalize, s, t, SocketOpened(a), a);
    var v := Step(normalize, t, SocketOpened(a));
    Then(normalize, s, v, ReadySettled(a), a);
    u := Step(normalize, v, ReadySettled(a));
  }

  /** From every reachable state an admitted `connect` that nothing disturbs, whatever else is running, ends with its session
      live and announced, and with its MAC reserved if the session has an id. */
  lemma UndisturbedConnect(normalize: string -> string, s: State, lease: int, p: Profile, address: string, port: int,
                           token: Token, sid: string) returns (t: State)
    requires Reachable(normalize, s) && Enabled(s, ConnectCall(lease, p, address)) && Admits(normalize, s, p, address) && port > 0
    ensures Leads(normalize, s, t, s.nextAttempt) && Reachable(normalize, t)
    ensures p in t.sessions && t.sessions[p] == Live(s.nextAttempt, sid, s.generation, address) && s.nextAttempt !in t.calls
    ensures s.nextAttempt in t.reservations <==> sid != ""
    ensures |t.log| > 0 && t.log[|t.log| - 1] == Connected(p)
  {
    hide Leads, Reachable, Admits, PortAndToken, Waits, Opens, Enabled;
    var a := s.nextAttempt;
    t := PortKnown(normalize, s, lease, p, address, port, token);
    t := RequestSent(normalize, s, t, a, p, address);
    t := AnswerComes(normalize, s, t, a, p, address, sid);
    t := SocketOpens(normalize, s, t, a, p, address, sid);
  }
}
