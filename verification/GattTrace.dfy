/**
 The trace of the GATT proxy: every signal and every request that an event adds, and with them which sessions, calls and
 attempts there are afterwards, in every reachable state.
 */
module GattTrace {
  import opened Wrappers
  import opened Coexistence
  import opened GattProtocol
  import opened GattInvariants
  import opened GattSteps
  import opened GattProperties
  import opened GattOutcomes

  // What is signalled and asked

  /** A request about a session of the running sidecar process. */
  function Asked(s: State, kind: RequestKind): Output { Request(kind, s.generation, s.generation) }

  /** The end of the live session of `p`, if there is one: the signal, and a DELETE for an id that names a session. */
  function Farewell(s: State, p: Profile): seq<Output> {
    if p !in s.sessions then []
    else [Disconnected(p)] + if s.sessions[p].sid != "" then [Asked(s, DeleteSession)] else []
  }

  /** The same when the socket ends it: here the DELETE comes first. */
  function Loss(s: State, p: Profile): seq<Output>
    requires p in s.sessions
  {
    (if s.sessions[p].sid != "" then [Asked(s, DeleteSession)] else []) + [Disconnected(p)]
  }

  /** After a sidecar exit there is nothing left to delete. */
  function Silence(s: State, p: Profile): seq<Output> { if p in s.sessions then [Disconnected(p)] else [] }

  /** Everything the proxy says when an event comes, in order. */
  function Says(normalize: string -> string, s: State, e: Event): seq<Output>
    requires Enabled(s, e)
  {
    match e
    case ConnectCall(_, p, address) => if Admits(normalize, s, p, address) then Farewell(s, p) else []
    case DisconnectCall(p) => Farewell(s, p)
    case DisconnectAllCall => Farewell(s, Meshtastic) + Farewell(s, Meshcore)
    case ReleaseCentral => if s.exclusive then [] else Farewell(s, Meshtastic) + Farewell(s, Meshcore)
    case SidecarExited => Silence(s, Meshtastic) + Silence(s, Meshcore)
    case SocketBroken(a) => if IsLive(s, s.sockets[a].profile, a) then Loss(s, s.sockets[a].profile) else []
    case SocketSaysGone(a) => if IsLive(s, s.sockets[a].profile, a) then Loss(s, s.sockets[a].profile) else []
    case ResumeWithPort(a) => if Fails(s, e, s.calls[a].profile) then [Aborted(s.calls[a].profile)] else []
    case PostSettled(a, _) =>
      if GoesLive(s, e) then [Asked(s, EventSocket)]
      else (if NamesSession(e, a) && a in s.reservations then [Asked(s, DeleteSession)] else [])
           + if Fails(s, e, s.calls[a].profile) then [Aborted(s.calls[a].profile)] else []
    case ReadySettled(a) =>
      var p := s.calls[a].profile;
      if Fails(s, e, p) then (if Deletable(s, a) then [Asked(s, DeleteSession)] else []) + [Aborted(p)]
      else if IsCurrent(s, p, a) && IsLive(s, p, a) then [Connected(p)]
      else []
    case DeleteSettled(c, _) =>
      if s.cleanups[c].attempt in s.reservations && !Settles(s, e, s.cleanups[c].attempt) then [Asked(s, ProbeSession)] else []
    case CleanupTimerFired(_) => [Asked(s, DeleteSession)]
    case SessionCall(p, kind) => if p in s.sessions then [Asked(s, kind)] else []
    case _ => []
  }

  lemma CleanupSays(s: State, a: int)
    requires a in s.reservations && s.reservations[a].HasSid() ==> s.reservations[a].token.Some?
    ensures var t := BeginRemoteCleanup(s, a);
            && t.log == s.log + (if Deletable(s, a) then [Request(DeleteSession, s.reservations[a].madeIn, s.generation)] else [])
            && t.sessions == s.sessions && t.calls == s.calls && t.connectAttempts == s.connectAttempts
            && t.nextAttempt == s.nextAttempt && t.generation == s.generation
  {
  }

  lemma DisconnectSays(normalize: string -> string, s: State, p: Profile)
    requires Inv(normalize, s)
    ensures Disconnect(s, p).log == s.log + Farewell(s, p)
    ensures Disconnect(s, p).calls == s.calls && Disconnect(s, p).nextAttempt == s.nextAttempt
    ensures Disconnect(s, p).generation == s.generation
  {
    hide Inv, BeginRemoteCleanup;
    if p in s.sessions {
      TokensHeld(normalize, s);
      SessionFacts(normalize, s, p);
      CleanupSays(Emit(ClearLocalSession(s.(connectAttempts := s.connectAttempts - {p}), p), Disconnected(p)), s.sessions[p].attempt);
    }
  }

  lemma DisconnectAllSays(normalize: string -> string, s: State)
    requires Inv(normalize, s)
    ensures DisconnectAll(s).log == s.log + (Farewell(s, Meshtastic) + Farewell(s, Meshcore))
    ensures DisconnectAll(s).calls == s.calls
    ensures DisconnectAll(s).sessions == map[] && DisconnectAll(s).connectAttempts == map[]
  {
    hide Inv, Disconnect;
    DisconnectSays(normalize, s, Meshtastic);
    DisconnectKeeps(normalize, s, Meshtastic);
    DisconnectFrame(s, Meshtastic);
    DisconnectSays(normalize, Disconnect(s, Meshtastic), Meshcore);
    DisconnectAllKeeps(normalize, s);
  }

  lemma FinishSays(s: State, a: int)
    requires a in s.calls
    ensures var t := Finish(s, a);
            && t.log == s.log && t.sessions == s.sessions && t.calls == s.calls - {a}
            && t.connectAttempts ==
               if IsCurrent(s, s.calls[a].profile, a) then s.connectAttempts - {s.calls[a].profile} else s.connectAttempts
  {
  }

  lemma RejectedSays(s: State, a: int)
    requires a in s.calls && Tokened(s.reservations)
    ensures var p, t := s.calls[a].profile, Rejected(s, a);
            && t.calls == s.calls - {a}
            && t.connectAttempts == (if IsCurrent(s, p, a) then s.connectAttempts - {p} else s.connectAttempts)
            && t.sessions == (if IsCurrent(s, p, a) then s.sessions - {p} else s.sessions)
            && t.log == s.log + if IsCurrent(s, p, a) then
                 (if Deletable(s, a) then [Request(DeleteSession, s.reservations[a].madeIn, s.generation)] else []) + [Aborted(p)]
               else []
  {
    hide BeginRemoteCleanup, Finish;
    var p := s.calls[a].profile;
    var cleared := ClearLocalSession(s, p);
    CleanupSays(cleared, a);
    FinishSays(s, a);
    FinishSays(Emit(BeginRemoteCleanup(cleared, a), Aborted(p)), a);
    assert s.log + [] == s.log;
  }

  /** The answer, once recorded on the reservation. */
  lemma AnswerSays(s: State, a: int, ok: bool, sid: Option<string>, socketThrows: bool)
    requires a in s.calls && s.calls[a].pc.Posting? && Tokened(s.reservations)
    requires IsCurrent(s, s.calls[a].profile, a) ==>
               a in s.reservations && s.reservations[a].token.Some? && s.calls[a].profile !in s.sessions
    ensures var p, t := s.calls[a].profile, AfterAnswer(s, a, ok, sid, socketThrows);
            var current, asks := IsCurrent(s, p, a),
                                 if Deletable(s, a) then [Request(DeleteSession, s.reservations[a].madeIn, s.generation)] else [];
            if ok && sid.Some? && !socketThrows && current then t == Installed(s, a, sid.value)
            else && t.log == s.log + (asks + if current then [Aborted(p)] else []) && t.sessions == s.sessions
                 && t.calls == s.calls - {a} && t.connectAttempts == if current then s.connectAttempts - {p} else s.connectAttempts
  {
    hide BeginRemoteCleanup, Finish, Rejected, Installed, AfterAnswer;
    var p := s.calls[a].profile;
    CleanupSays(s, a);
    AnswerCases(s, a, ok, sid, socketThrows);
    RejectedSays(s, a);
    FinishSays(BeginRemoteCleanup(s, a), a);
    FinishSays(Emit(BeginRemoteCleanup(s, a), Aborted(p)), a);
    assert s.sessions - {p} == s.sessions || p in s.sessions;
  }

  /** How an event of the call of attempt `a` leaves sessions, calls and current attempts. */
  ghost predicate CallOutcome(s: State, e: Event, a: int, t: State)
    requires Enabled(s, e) && a in s.calls
  {
    var p := s.calls[a].profile;
    && t.calls.Keys == (if Ends(s, e, a) then s.calls.Keys - {a} else s.calls.Keys)
    && t.connectAttempts == (if Ends(s, e, a) && IsCurrent(s, p, a) then s.connectAttempts - {p} else s.connectAttempts)
    && if GoesLive(s, e) then
         a in s.reservations && t.sessions == s.sessions[p := Live(a, e.outcome.sid.value, s.generation, s.reservations[a].address)]
       else t.sessions == if e.ReadySettled? && Fails(s, e, p) then s.sessions - {p} else s.sessions
  }

  lemma NothingDropped(m: Sessions, p: Profile)
    requires p !in m
    ensures m - {p} == m
  {
  }

  /** A port at hand: a cancelled call returns, a current one asks the sidecar. */
  lemma PortCases(s: State, a: int)
    requires a in s.calls && s.calls[a].pc.PortReady?
    ensures var t, current := AfterPort(s, a), IsCurrent(s, s.calls[a].profile, a);
            && (s.calls[a].pc.port.None? ==> t == Rejected(s, a))
            && (s.calls[a].pc.port.Some? && !current ==> t == Finish(s, a))
            && (s.calls[a].pc.port.Some? && current ==>
                  && t.log == s.log && t.sessions == s.sessions && t.connectAttempts == s.connectAttempts
                  && SameSurroundings(s, t) && t.sockets == s.sockets
                  && t.calls == s.calls[a := s.calls[a].(pc := Posting(s.token.Some?, s.generation))])
  {
    hide Rejected, Finish;
  }

  lemma PortSays(normalize: string -> string, s: State, a: int)
    requires Inv(normalize, s) && Enabled(s, ResumeWithPort(a))
    ensures AfterPort(s, a).log == s.log + Says(normalize, s, ResumeWithPort(a))
    ensures CallOutcome(s, ResumeWithPort(a), a, AfterPort(s, a))
  {
    hide Inv, Rejected, Finish, Tokened, AfterPort, IsCurrent;
    WaitingFacts(normalize, s, a);
    TokensHeld(normalize, s);
    PortCases(s, a);
    assert s.log + [] == s.log;
    if s.calls[a].pc.port.None? {
      RejectedSays(s, a);
      if IsCurrent(s, s.calls[a].profile, a) { NothingDropped(s.sessions, s.calls[a].profile); }
    } else {
      FinishSays(s, a);
    }
  }

  lemma ThrewSays(normalize: string -> string, s: State, a: int)
    requires Inv(normalize, s) && Enabled(s, PostSettled(a, PostThrew))
    ensures Rejected(s, a).log == s.log + Says(normalize, s, PostSettled(a, PostThrew))
    ensures CallOutcome(s, PostSettled(a, PostThrew), a, Rejected(s, a))
  {
    hide Inv, Rejected, Tokened;
    PostingFacts(normalize, s, a);
    TokensHeld(normalize, s);
    RejectedSays(s, a);
    if IsCurrent(s, s.calls[a].profile, a) { NothingDropped(s.sessions, s.calls[a].profile); }
    assert s.log + [] == s.log;
  }

  /** A settled socket: the call fails, announces its session, or returns in silence. */
  lemma ReadyCases(s: State, a: int)
    requires a in s.calls && a in s.sockets
    ensures var p := s.calls[a].profile;
            AfterReady(s, a) == if s.sockets[a].ready == Failed then Rejected(s, a)
                                else if IsCurrent(s, p, a) && IsLive(s, p, a) then Finish(Emit(s, Connected(p)), a)
                                else Finish(s, a)
  {
    hide Rejected, Finish, Emit;
  }

  lemma ReadySays(normalize: string -> string, s: State, a: int)
    requires Inv(normalize, s) && Enabled(s, ReadySettled(a))
    ensures AfterReady(s, a).log == s.log + Says(normalize, s, ReadySettled(a))
    ensures CallOutcome(s, ReadySettled(a), a, AfterReady(s, a))
  {
    hide Inv, Rejected, Finish, Tokened, IsCurrent, Deletable, AfterReady, IsLive;
    ReadyCases(s, a);
    MadeHere(normalize, s, a);
    TokensHeld(normalize, s);
    RejectedSays(s, a);
    FinishSays(s, a);
    FinishSays(Emit(s, Connected(s.calls[a].profile)), a);
    SameCurrent(s, Emit(s, Connected(s.calls[a].profile)), s.calls[a].profile, a);
    assert s.log + [] == s.log;
  }

  lemma MadeHere(normalize: string -> string, s: State, a: int)
    requires Inv(normalize, s)
    ensures Deletable(s, a) ==> s.reservations[a].madeIn == s.generation
  {
  }

  /** The answer of a call that does not go live. */
  lemma ReplyEnds(normalize: string -> string, s: State, a: int, o: PostOutcome)
    requires Inv(normalize, s) && Enabled(s, PostSettled(a, o)) && o.PostReply? && !GoesLive(s, PostSettled(a, o))
    ensures AfterPost(s, a, o).log == s.log + Says(normalize, s, PostSettled(a, o))
    ensures CallOutcome(s, PostSettled(a, o), a, AfterPost(s, a, o))
  {
    hide Inv, AfterAnswer, Tokened, WithSid, Installed, IsCurrent;
    var p, t := s.calls[a].profile, WithSid(s, a, o.sid);
    PostingFacts(normalize, s, a);
    TokensHeld(normalize, s);
    TokensStill(s, a, o.sid);
    NamedSame(s, a, o.sid);
    SameCurrent(s, t, p, a);
    AnswerSays(t, a, o.ok, o.sid, o.socketThrows);
    assert Deletable(t, a) <==> a in s.reservations && Names(o.sid);
  }

  /** The answer of one that does. */
  lemma ReplyLives(normalize: string -> string, s: State, a: int, o: PostOutcome)
    requires Inv(normalize, s) && Enabled(s, PostSettled(a, o)) && o.PostReply? && GoesLive(s, PostSettled(a, o))
    ensures AfterPost(s, a, o).log == s.log + Says(normalize, s, PostSettled(a, o))
    ensures CallOutcome(s, PostSettled(a, o), a, AfterPost(s, a, o))
  {
    hide Inv, AfterAnswer, Tokened, WithSid, IsCurrent, Deletable;
    var p, t := s.calls[a].profile, WithSid(s, a, o.sid);
    PostingFacts(normalize, s, a);
    TokensHeld(normalize, s);
    TokensStill(s, a, o.sid);
    NamedSame(s, a, o.sid);
    SameCurrent(s, t, p, a);
    AnswerSays(t, a, o.ok, o.sid, o.socketThrows);
  }

  lemma ReplySays(normalize: string -> string, s: State, a: int, o: PostOutcome)
    requires Inv(normalize, s) && Enabled(s, PostSettled(a, o)) && o.PostReply?
    ensures AfterPost(s, a, o).log == s.log + Says(normalize, s, PostSettled(a, o))
    ensures CallOutcome(s, PostSettled(a, o), a, AfterPost(s, a, o))
  {
    hide Inv, AfterPost, Says, CallOutcome, GoesLive;
    if GoesLive(s, PostSettled(a, o)) { ReplyLives(normalize, s, a, o); } else { ReplyEnds(normalize, s, a, o); }
  }

  lemma TokensStill(s: State, a: int, sid: Option<string>)
    requires a in s.calls && s.calls[a].pc.Posting? && Tokened(s.reservations)
    requires a in s.reservations ==> s.reservations[a].token.Some?
    ensures Tokened(WithSid(s, a, sid).reservations)
  {
  }

  lemma CallEventSays(normalize: string -> string, s: State, e: Event, a: int)
    requires Inv(normalize, s) && Enabled(s, e) && StepOf(e, a) && !e.EnsureSettled?
    ensures Step(normalize, s, e).log == s.log + Says(normalize, s, e)
    ensures CallOutcome(s, e, a, Step(normalize, s, e))
  {
    hide Inv, Says, CallOutcome, AfterPort, AfterReady, Rejected, AfterAnswer;
    match e
    case ResumeWithPort(_) => PortSays(normalize, s, a);
    case ReadySettled(_) => ReadySays(normalize, s, a);
    case PostSettled(_, outcome) => if outcome.PostThrew? { ThrewSays(normalize, s, a); } else { ReplySays(normalize, s, a, outcome); }
  }

  lemma GoneSays(normalize: string -> string, s: State, a: int)
    requires Inv(normalize, s) && a in s.sockets
    ensures SocketGone(s, a).log == s.log + if IsLive(s, s.sockets[a].profile, a) then Loss(s, s.sockets[a].profile) else []
    ensures SocketGone(s, a).sessions == if IsLive(s, s.sockets[a].profile, a) then s.sessions - {s.sockets[a].profile} else s.sessions
    ensures SocketGone(s, a).calls == s.calls && SocketGone(s, a).connectAttempts == s.connectAttempts
  {
    hide Inv, BeginRemoteCleanup;
    var p := s.sockets[a].profile;
    if IsLive(s, p, a) {
      SessionFacts(normalize, s, p);
      TokensHeld(normalize, s);
      CleanupSays(ClearLocalSession(s, p), a);
    }
  }

  lemma AskSays(normalize: string -> string, s: State, p: Profile, kind: RequestKind)
    requires Inv(normalize, s)
    ensures Ask(s, p, kind).log == s.log + if p in s.sessions then [Asked(s, kind)] else []
  {
    hide Inv;
    if p in s.sessions { SessionFacts(normalize, s, p); }
    assert s.log + [] == s.log;
  }

  lemma QuietSays(normalize: string -> string, s: State, e: Event)
    requires Inv(normalize, s) && Enabled(s, e) && Quiet(e)
    ensures Step(normalize, s, e).log == s.log + Says(normalize, s, e)
  {
    hide Inv, Farewell, Loss, Silence, Ask;
    assert s.log + [] == s.log;
    if e.SessionCall? {
      AskSays(normalize, s, e.profile, e.kind);
    } else {
      hide Step;
      QuietAttempts(normalize, s, e);
    }
  }

  lemma ReplyAsks(normalize: string -> string, s: State, c: int, outcome: DeleteOutcome)
    requires Inv(normalize, s) && Enabled(s, DeleteSettled(c, outcome))
    ensures AfterDelete(s, c, outcome).log == s.log + Says(normalize, s, DeleteSettled(c, outcome))
  {
    hide Inv;
    if s.cleanups[c].attempt in s.reservations { TeardownFacts(normalize, s, c); }
    assert s.log + [] == s.log;
  }

  lemma TimerAsks(normalize: string -> string, s: State, a: int)
    requires Inv(normalize, s) && Enabled(s, CleanupTimerFired(a))
    ensures AfterTimer(s, a).log == s.log + [Asked(s, DeleteSession)]
  {
    hide Inv;
    TimerFacts(normalize, s, a);
  }

  lemma ConnectSays(normalize: string -> string, s: State, lease: int, p: Profile, address: string)
    requires Inv(normalize, s)
    ensures Connect(normalize, s, lease, p, address).log ==
            s.log + if Admits(normalize, s, p, address) then Farewell(s, p) else []
  {
    hide Inv, AssertCanConnect, AllLinks, Disconnect;
    DisconnectSays(normalize, s, p);
    assert s.log + [] == s.log;
  }

  lemma DropsSay(normalize: string -> string, s: State, e: Event)
    requires Inv(normalize, s) && Enabled(s, e)
    requires e.ConnectCall? || e.DisconnectCall? || e.DisconnectAllCall? || e.ReleaseCentral? || e.SocketBroken? || e.SocketSaysGone?
    ensures Step(normalize, s, e).log == s.log + Says(normalize, s, e)
  {
    hide Inv, Connect, Disconnect, DisconnectAll, SocketGone, Admits, Farewell, Loss;
    assert s.log + [] == s.log;
    match e
    case ConnectCall(lease, p, address) => ConnectSays(normalize, s, lease, p, address);
    case DisconnectCall(p) => DisconnectSays(normalize, s, p);
    case DisconnectAllCall => DisconnectAllSays(normalize, s);
    case ReleaseCentral =>
      HeldSays(s);
      if !s.exclusive { SetHoldKeeps(normalize, s, true); DisconnectAllSays(normalize, SetHold(s, true)); }
    case SocketBroken(a) => SettleKeeps(normalize, s, a, Failed); GoneSays(normalize, SettleSocket(s, a, Failed), a); SettledSays(s, a);
    case SocketSaysGone(a) => GoneSays(normalize, s, a);
  }

  lemma HeldSays(s: State)
    ensures forall p :: Farewell(SetHold(s, true), p) == Farewell(s, p)
    ensures SetHold(s, true).log == s.log
  {
  }

  lemma SettledSays(s: State, a: int)
    requires a in s.sockets
    ensures var t := SettleSocket(s, a, Failed);
            && t.log == s.log && t.sessions == s.sessions && t.calls == s.calls && t.connectAttempts == s.connectAttempts
            && a in t.sockets && t.sockets[a].profile == s.sockets[a].profile
            && forall p | p in s.sessions :: Loss(t, p) == Loss(s, p) && (IsLive(t, p, a) <==> IsLive(s, p, a))
  {
  }

  lemma RepliesSay(normalize: string -> string, s: State, e: Event)
    requires Inv(normalize, s) && Enabled(s, e)
    requires e.DeleteSettled? || e.ProbeSettled? || e.CleanupTimerFired? || e.SidecarExited?
    ensures Step(normalize, s, e).log == s.log + Says(normalize, s, e)
  {
    hide Inv, AfterDelete, AfterTimer;
    assert s.log + [] == s.log;
    match e
    case DeleteSettled(c, outcome) => ReplyAsks(normalize, s, c, outcome);
    case CleanupTimerFired(a) => TimerAsks(normalize, s, a);
    case ProbeSettled(_, _) =>
    case SidecarExited =>
  }

  /** Every signal and every request of the proxy, in order: a session that ends is announced and deleted once, a current
      call that fails is reported, one that succeeds is announced, and nothing else is said. */
  lemma SaysExactly(normalize: string -> string, s: State, e: Event)
    requires Reachable(normalize, s) && Enabled(s, e)
    ensures Step(normalize, s, e).log == s.log + Says(normalize, s, e)
  {
    hide Inv, Step, Says, Enabled;
    ReachableHolds(normalize, s);
    if Quiet(e) {
      QuietSays(normalize, s, e);
    } else if e.ResumeWithPort? || e.PostSettled? || e.ReadySettled? {
      CallEventSays(normalize, s, e, e.attempt);
    } else if e.DeleteSettled? || e.ProbeSettled? || e.CleanupTimerFired? || e.SidecarExited? {
      RepliesSay(normalize, s, e);
    } else {
      DropsSay(normalize, s, e);
    }
  }

  // Which sessions, calls and attempts there are

  /** A `connect` that begins replaces whatever its profile had. */
  lemma ConnectDoes(normalize: string -> string, s: State, lease: int, p: Profile, address: string)
    requires Inv(normalize, s)
    ensures var t, a := Connect(normalize, s, lease, p, address), s.nextAttempt;
            if !Admits(normalize, s, p, address) then t == s
            else
              && t.sessions == s.sessions - {p} && t.connectAttempts == (s.connectAttempts - {p})[p := a]
              && t.calls == s.calls[a := Call(p, lease, if s.port > 0 then PortReady(Some(s.port)) else Ensuring(s.generation))]
              && t.nextAttempt == a + 1
              && a in t.reservations && t.reservations[a] == Reservation(p, address, 0, None, None, 0, false, 0, false)
  {
    hide Inv, AssertCanConnect, AllLinks, Disconnect;
    DisconnectFrame(s, p);
    DisconnectSays(normalize, s, p);
  }

  lemma DropsSessions(normalize: string -> string, s: State, e: Event, p: Profile)
    requires Inv(normalize, s) && Enabled(s, e)
    requires e.ConnectCall? || e.DisconnectCall? || e.DisconnectAllCall? || e.ReleaseCentral? || e.SidecarExited?
    ensures var t := Step(normalize, s, e);
            && (p in t.sessions <==> p in s.sessions && !GivesUp(normalize, s, e, p))
            && (p in t.sessions ==> t.sessions[p] == s.sessions[p])
  {
    hide Inv, Admits, Connect, Disconnect, DisconnectAll, Release;
    match e
    case ConnectCall(lease, q, address) => ConnectDoes(normalize, s, lease, q, address);
    case DisconnectCall(q) => DisconnectFrame(s, q);
    case DisconnectAllCall => DisconnectAllSays(normalize, s);
    case ReleaseCentral => ReleaseDrops(normalize, s);
    case SidecarExited =>
  }

  lemma SocketSessions(normalize: string -> string, s: State, e: Event, p: Profile)
    requires Inv(normalize, s) && Enabled(s, e) && (e.SocketBroken? || e.SocketSaysGone?)
    ensures var t := Step(normalize, s, e);
            && (p in t.sessions <==> p in s.sessions && !Drops(normalize, s, e, p))
            && (p in t.sessions ==> t.sessions[p] == s.sessions[p])
  {
    hide Inv, SocketGone, SettleSocket, Loss;
    var a := e.attempt;
    SettledSays(s, a);
    if p in s.sessions { SessionFacts(normalize, s, p); }
    if e.SocketBroken? {
      SettleKeeps(normalize, s, a, Failed);
      GoneSays(normalize, SettleSocket(s, a, Failed), a);
    } else {
      GoneSays(normalize, s, a);
    }
  }

  lemma ReplySessions(normalize: string -> string, s: State, e: Event)
    requires Enabled(s, e) && (e.DeleteSettled? || e.ProbeSettled? || e.CleanupTimerFired?)
    ensures var t := Step(normalize, s, e);
            t.sessions == s.sessions && t.calls == s.calls && t.connectAttempts == s.connectAttempts
  {
  }

  /** A profile's session changes only so: it goes live when the sidecar accepts its current call, and it is dropped when
      its profile is given up, its own socket ends or its current call fails late. */
  lemma SessionsExactly(normalize: string -> string, s: State, e: Event, p: Profile)
    requires Reachable(normalize, s) && Enabled(s, e)
    ensures var t := Step(normalize, s, e);
            if GoesLive(s, e) && s.calls[e.attempt].profile == p then
              && e.attempt in s.reservations && p in t.sessions
              && t.sessions[p] == Live(e.attempt, e.outcome.sid.value, s.generation, s.reservations[e.attempt].address)
            else (p in t.sessions <==> p in s.sessions && !Drops(normalize, s, e, p))
                 && (p in t.sessions ==> t.sessions[p] == s.sessions[p])
  {
    hide Inv, Step, GivesUp;
    ReachableHolds(normalize, s);
    if Quiet(e) {
      QuietStep(normalize, s, e);
      QuietDrops(normalize, s, e, p);
    } else if e.ResumeWithPort? || e.PostSettled? || e.ReadySettled? {
      hide Says;
      CallEventSays(normalize, s, e, e.attempt);
      CallGivesNoneUp(normalize, s, e, p);
    } else if e.DeleteSettled? || e.ProbeSettled? || e.CleanupTimerFired? {
      ReplySessions(normalize, s, e);
      QuietDrops(normalize, s, e, p);
    } else if e.SocketBroken? || e.SocketSaysGone? {
      SocketSessions(normalize, s, e, p);
    } else {
      DropsSessions(normalize, s, e, p);
    }
  }

  lemma QuietDrops(normalize: string -> string, s: State, e: Event, p: Profile)
    requires Enabled(s, e) && (Quiet(e) || e.DeleteSettled? || e.ProbeSettled? || e.CleanupTimerFired?)
    ensures !Drops(normalize, s, e, p) && !GoesLive(s, e)
  {
  }

  lemma CallGivesNoneUp(normalize: string -> string, s: State, e: Event, p: Profile)
    requires e.ResumeWithPort? || e.PostSettled? || e.ReadySettled?
    ensures !GivesUp(normalize, s, e, p)
  {
  }

  /** A `connect` begins. */
  predicate Starts(normalize: string -> string, s: State, e: Event) {
    e.ConnectCall? && Admits(normalize, s, e.profile, e.address)
  }

  /** Who is current, and which calls run, after events that are not steps of a call. */
  lemma GivenUpAttempts(normalize: string -> string, s: State, e: Event, p: Profile)
    requires Inv(normalize, s) && Enabled(s, e)
    requires e.ConnectCall? || e.DisconnectCall? || e.DisconnectAllCall? || e.ReleaseCentral? || e.SidecarExited?
    ensures var t, starts := Step(normalize, s, e), Starts(normalize, s, e);
            && (p in t.connectAttempts <==> (p in s.connectAttempts && !GivesUp(normalize, s, e, p)) || (starts && e.profile == p))
            && (p in t.connectAttempts ==> t.connectAttempts[p] == if starts && e.profile == p then s.nextAttempt else s.connectAttempts[p])
            && t.calls.Keys == s.calls.Keys + if starts then {s.nextAttempt} else {}
  {
    hide Inv, Admits, Connect, Disconnect, DisconnectAll, Release;
    match e
    case ConnectCall(lease, q, address) => ConnectDoes(normalize, s, lease, q, address);
    case DisconnectCall(q) => DisconnectFrame(s, q);
    case DisconnectAllCall => DisconnectAllSays(normalize, s);
    case ReleaseCentral => ReleaseDrops(normalize, s);
    case SidecarExited =>
  }

  /** Entering the hold gives both profiles up, refreshing it neither. */
  lemma ReleaseDrops(normalize: string -> string, s: State)
    requires Inv(normalize, s)
    ensures Release(s).calls == s.calls
    ensures Release(s).sessions == (if s.exclusive then s.sessions else map[])
    ensures Release(s).connectAttempts == if s.exclusive then s.connectAttempts else map[]
  {
    hide Inv, DisconnectAll;
    SetHoldKeeps(normalize, s, true);
    DisconnectAllSays(normalize, SetHold(s, true));
  }

  lemma SocketAttempts(normalize: string -> string, s: State, e: Event)
    requires Inv(normalize, s) && Enabled(s, e) && (e.SocketBroken? || e.SocketSaysGone?)
    ensures Step(normalize, s, e).calls == s.calls && Step(normalize, s, e).connectAttempts == s.connectAttempts
  {
    hide Inv, SocketGone, SettleSocket, Loss;
    SettledSays(s, e.attempt);
    if e.SocketBroken? {
      SettleKeeps(normalize, s, e.attempt, Failed);
      GoneSays(normalize, SettleSocket(s, e.attempt, Failed), e.attempt);
    } else {
      GoneSays(normalize, s, e.attempt);
    }
  }

  lemma EnsureAttempts(s: State, a: int, result: Option<int>)
    requires a in s.calls && s.calls[a].pc.Ensuring?
    ensures AfterEnsure(s, a, result).calls.Keys == s.calls.Keys && AfterEnsure(s, a, result).connectAttempts == s.connectAttempts
    ensures AfterEnsure(s, a, result).log == s.log
  {
  }

  /** Registry and scan lock have nothing to do with attempts. */
  lemma CoordinatorAttempts(normalize: string -> string, s: State, e: Event)
    requires Enabled(s, e) && (e.RegisterMac? || e.UnregisterMac? || e.ScanAcquire? || e.ScanRelease?)
    ensures var t := Step(normalize, s, e); t.calls == s.calls && t.connectAttempts == s.connectAttempts && t.log == s.log
  {
    hide AfterRegister, AfterUnregister, AllLinks, AfterAcquire, AfterRelease, Connect, AfterPort, AfterPost, AfterReady;
    hide SocketGone, Disconnect, DisconnectAll, Release, AfterDelete, AfterProbe, AfterTimer, AfterExit;
    hide AfterEnsure, SettleSocket, SetHold, HoldExpired, Ask;
  }

  lemma QuietAttempts(normalize: string -> string, s: State, e: Event)
    requires Enabled(s, e) && Quiet(e)
    ensures Step(normalize, s, e).calls.Keys == s.calls.Keys && Step(normalize, s, e).connectAttempts == s.connectAttempts
    ensures !e.SessionCall? ==> Step(normalize, s, e).log == s.log
  {
    if e.RegisterMac? || e.UnregisterMac? || e.ScanAcquire? || e.ScanRelease? {
      hide Step;
      CoordinatorAttempts(normalize, s, e);
    } else {
      hide AfterRegister, AfterUnregister, AllLinks, AfterAcquire, AfterRelease, Connect, AfterPort, AfterPost, AfterReady;
      hide SocketGone, Disconnect, DisconnectAll, Release, AfterDelete, AfterProbe, AfterTimer, AfterExit;
      hide AfterEnsure, SettleSocket, Acquire;
      if e.EnsureSettled? { EnsureAttempts(s, e.attempt, e.ensured); }
      if e.SocketOpened? { OpenedAttempts(s, e.attempt); }
    }
  }

  lemma OpenedAttempts(s: State, a: int)
    requires a in s.sockets
    ensures var t := SettleSocket(s, a, Opened); t.calls == s.calls && t.connectAttempts == s.connectAttempts && t.log == s.log
  {
  }

  /** A call runs from its admission to the event that ends it. */
  lemma CallsExactly(normalize: string -> string, s: State, e: Event, a: int)
    requires Reachable(normalize, s) && Enabled(s, e)
    ensures a in Step(normalize, s, e).calls <==>
            (a in s.calls && !Ends(s, e, a)) || (Starts(normalize, s, e) && a == s.nextAttempt)
  {
    hide Inv, Step, Starts, Says, GoesLive, Fails;
    ReachableHolds(normalize, s);
    NoStart(normalize, s, e);
    if e.ResumeWithPort? || e.PostSettled? || e.ReadySettled? {
      CallEventSays(normalize, s, e, e.attempt);
    } else if e.ConnectCall? || e.DisconnectCall? || e.DisconnectAllCall? || e.ReleaseCentral? || e.SidecarExited? {
      GivenUpAttempts(normalize, s, e, Meshtastic);
    } else if e.SocketBroken? || e.SocketSaysGone? {
      SocketAttempts(normalize, s, e);
    } else if Quiet(e) {
      QuietAttempts(normalize, s, e);
    } else {
      ReplySessions(normalize, s, e);
    }
  }

  lemma NoStart(normalize: string -> string, s: State, e: Event)
    ensures Starts(normalize, s, e) ==> e.ConnectCall?
  {
  }

  /** The attempt stays current, unless it ends or is given up, or becomes so by its admission. */
  ghost predicate CurrentAfter(normalize: string -> string, s: State, e: Event, p: Profile, a: int)
    requires Enabled(s, e)
  {
    IsCurrent(Step(normalize, s, e), p, a) <==>
      || (IsCurrent(s, p, a) && !GivesUp(normalize, s, e, p) && !Ends(s, e, a))
      || (Starts(normalize, s, e) && e.profile == p && a == s.nextAttempt)
  }

  lemma SameAttempts(normalize: string -> string, s: State, e: Event, p: Profile, a: int)
    requires Inv(normalize, s) && Enabled(s, e)
    requires Quiet(e) || e.DeleteSettled? || e.ProbeSettled? || e.CleanupTimerFired? || e.SocketBroken? || e.SocketSaysGone?
    ensures CurrentAfter(normalize, s, e, p, a)
  {
    hide Inv, Step, Admits;
    if Quiet(e) {
      QuietAttempts(normalize, s, e);
    } else if e.SocketBroken? || e.SocketSaysGone? {
      SocketAttempts(normalize, s, e);
    } else {
      ReplySessions(normalize, s, e);
    }
  }

  lemma CallAttempts(normalize: string -> string, s: State, e: Event, p: Profile, a: int)
    requires Inv(normalize, s) && Enabled(s, e) && (e.ResumeWithPort? || e.PostSettled? || e.ReadySettled?)
    ensures CurrentAfter(normalize, s, e, p, a)
  {
    hide Inv, Step, Admits, Says, Ends, GoesLive, Fails;
    CallEventSays(normalize, s, e, e.attempt);
    OnlyOwnEnds(s, e, a);
    if IsCurrent(s, p, a) { CurrentFacts(normalize, s, p, a); }
  }

  lemma OnlyOwnEnds(s: State, e: Event, a: int)
    requires Enabled(s, e) && (e.ResumeWithPort? || e.PostSettled? || e.ReadySettled?)
    ensures Ends(s, e, a) ==> a == e.attempt
  {
  }

  lemma StartAttempts(normalize: string -> string, s: State, e: Event, p: Profile, a: int)
    requires Inv(normalize, s) && Enabled(s, e)
    requires e.ConnectCall? || e.DisconnectCall? || e.DisconnectAllCall? || e.ReleaseCentral? || e.SidecarExited?
    ensures CurrentAfter(normalize, s, e, p, a)
  {
    hide Inv, Step, Admits;
    GivenUpAttempts(normalize, s, e, p);
  }

  /** An attempt is its profile's current one from its admission until it ends, is given up or is replaced. */
  lemma CurrentExactly(normalize: string -> string, s: State, e: Event, p: Profile, a: int)
    requires Reachable(normalize, s) && Enabled(s, e)
    ensures IsCurrent(Step(normalize, s, e), p, a) <==>
            || (IsCurrent(s, p, a) && !GivesUp(normalize, s, e, p) && !Ends(s, e, a))
            || (Starts(normalize, s, e) && e.profile == p && a == s.nextAttempt)
  {
    hide Inv, Step, Starts, GivesUp, Ends, IsCurrent, Enabled;
    ReachableHolds(normalize, s);
    if e.ResumeWithPort? || e.PostSettled? || e.ReadySettled? {
      CallAttempts(normalize, s, e, p, a);
    } else if e.ConnectCall? || e.DisconnectCall? || e.DisconnectAllCall? || e.ReleaseCentral? || e.SidecarExited? {
      StartAttempts(normalize, s, e, p, a);
    } else {
      SameAttempts(normalize, s, e, p, a);
    }
  }

  /** A `connect` under its lease begins exactly when no hold is on and every holder of the tracked address is the profile
      itself; the attempt then holds the address, and the profile's earlier session and attempt are given up. */
  lemma ConnectStartsExactly(normalize: string -> string, s: State, lease: int, p: Profile, address: string)
    requires Reachable(normalize, s) && Enabled(s, ConnectCall(lease, p, address))
    ensures var t, a, key := Step(normalize, s, ConnectCall(lease, p, address)), s.nextAttempt, normalize(address);
            if s.exclusive || (key != "" && exists o :: Holds(normalize, s.registry, AllLinks(s), key, o) && o != Gatt(p)) then t == s
            else
              && t.nextAttempt == a + 1 && IsCurrent(t, p, a) && p !in t.sessions
              && a in t.calls && t.calls[a] == Call(p, lease, if s.port > 0 then PortReady(Some(s.port)) else Ensuring(s.generation))
              && a in t.reservations && t.reservations[a] == Reservation(p, address, 0, None, None, 0, false, 0, false)
  {
    hide Inv, Admits, Connect, AllLinks, Holds;
    ReachableHolds(normalize, s);
    AdmitsExactly(normalize, s, lease, p, address);
    ConnectDoes(normalize, s, lease, p, address);
  }

  lemma AdmitsExactly(normalize: string -> string, s: State, lease: int, p: Profile, address: string)
    requires Reachable(normalize, s) && Enabled(s, ConnectCall(lease, p, address))
    ensures var key := normalize(address);
            Admits(normalize, s, p, address) <==>
              !s.exclusive && (key == "" || forall o :: Holds(normalize, s.registry, AllLinks(s), key, o) ==> o == Gatt(p))
  {
    hide Inv, AllLinks, Holds, Free, OneOwner;
    ReachableHolds(normalize, s);
    OneOwnerPerMac(normalize, s);
    LeaseHeld(normalize, s, lease);
    if normalize(address) != "" { FreeMeansNoOtherHolder(normalize, s.registry, AllLinks(s), Gatt(p), normalize(address)); }
  }

  lemma LeaseHeld(normalize: string -> string, s: State, lease: int)
    requires Inv(normalize, s) && lease in s.leases
    ensures s.scan.owner == Some(s.leases[lease])
  {
  }

  // The port on the way to the request

  /** A call that waits for the port gets it exactly if the sidecar has not exited since, and a stale port is forgotten. */
  lemma PortArrives(normalize: string -> string, s: State, a: int, ensured: Option<int>)
    requires Enabled(s, EnsureSettled(a, ensured))
    ensures var t, same := Step(normalize, s, EnsureSettled(a, ensured)), s.calls[a].pc.generation == s.generation;
            && a in t.calls && t.calls[a] == s.calls[a].(pc := PortReady(if same then ensured else None))
            && t.port == if ensured.None? then s.port else if same then ensured.value else if s.port == ensured.value then 0 else s.port
  {
  }

  /** A current call with a port asks the sidecar, if a token is at hand, and pins both for its teardown. */
  lemma PortIsUsed(normalize: string -> string, s: State, a: int)
    requires Reachable(normalize, s) && Enabled(s, ResumeWithPort(a)) && s.calls[a].pc.port.Some? && IsCurrent(s, s.calls[a].profile, a)
    ensures var t := Step(normalize, s, ResumeWithPort(a));
            && a in t.calls && t.calls[a] == s.calls[a].(pc := Posting(s.token.Some?, s.generation))
            && a in t.reservations && t.reservations[a].port == s.calls[a].pc.port.value && t.reservations[a].token == s.token
  {
    hide Inv, Rejected, Finish;
    ReachableHolds(normalize, s);
    WaitingFacts(normalize, s, a);
  }
}
