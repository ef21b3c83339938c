/**
 What an event of the GATT proxy brings about, exactly and in every reachable state: the conditions on state and event
 in which the other modules speak, and which MACs are freed.
 */
module GattOutcomes {
  import opened Wrappers
  import opened Coexistence
  import opened GattProtocol
  import opened GattInvariants
  import opened GattSteps
  import opened GattProperties

  // The vocabulary: conditions on the state before and on the event

  /** A session id that a DELETE can name. */
  predicate Names(sid: Option<string>) { sid.Some? && sid.value != "" }

  /** The hold and the guard let a `connect` begin. */
  predicate Admits(normalize: string -> string, s: State, p: Profile, address: string) {
    !s.exclusive && AssertCanConnect(normalize, s.registry, AllLinks(s), s.scan, Gatt(p), address)
  }

  /** The sidecar accepts, and the call that asked is still the profile's current one. */
  predicate GoesLive(s: State, e: Event) {
    && e.PostSettled? && e.outcome.PostReply? && e.outcome.ok && e.outcome.sid.Some? && !e.outcome.socketThrows
    && e.attempt in s.calls && IsCurrent(s, s.calls[e.attempt].profile, e.attempt)
  }

  /** The `connect` call of attempt `a` returns. */
  predicate Ends(s: State, e: Event, a: int)
    requires Enabled(s, e)
  {
    match e
    case ResumeWithPort(b) => b == a && (s.calls[a].pc.port.None? || !IsCurrent(s, s.calls[a].profile, a))
    case PostSettled(b, _) => b == a && !GoesLive(s, e)
    case ReadySettled(b) => b == a
    case _ => false
  }

  /** The event brings attempt `a` a session id. */
  predicate NamesSession(e: Event, a: int) {
    e.PostSettled? && e.attempt == a && e.outcome.PostReply? && Names(e.outcome.sid)
  }

  /** What ends a teardown: confirmation, a failure while quitting, a link that is gone, the eighth round, or the end of
      the sidecar process. */
  predicate Settles(s: State, e: Event, a: int)
    requires Enabled(s, e) && a in s.reservations
  {
    match e
    case DeleteSettled(c, outcome) => s.cleanups[c].attempt == a && (outcome == Confirmed || (outcome == DeleteThrew && s.quitting))
    case ProbeSettled(c, gone) => s.cleanups[c].attempt == a && (gone || s.reservations[a].attempts >= 8)
    case SidecarExited => true
    case _ => false
  }

  /** The current call of profile `p` fails. */
  predicate Fails(s: State, e: Event, p: Profile)
    requires Enabled(s, e)
  {
    match e
    case ResumeWithPort(a) => s.calls[a].profile == p && IsCurrent(s, p, a) && s.calls[a].pc.port.None?
    case PostSettled(a, _) => s.calls[a].profile == p && IsCurrent(s, p, a) && !GoesLive(s, e)
    case ReadySettled(a) => s.calls[a].profile == p && IsCurrent(s, p, a) && s.sockets[a].ready == Failed
    case _ => false
  }

  /** The event is about the socket of the live session of `p`. */
  predicate IsLive(s: State, p: Profile, a: int) { p in s.sessions && s.sessions[p].attempt == a }

  /** Both the session and the running attempt of `p` are given up. */
  predicate GivesUp(normalize: string -> string, s: State, e: Event, p: Profile) {
    match e
    case ConnectCall(_, q, address) => q == p && Admits(normalize, s, q, address)
    case DisconnectCall(q) => q == p
    case DisconnectAllCall => true
    case ReleaseCentral => !s.exclusive
    case SidecarExited => true
    case _ => false
  }

  predicate Drops(normalize: string -> string, s: State, e: Event, p: Profile)
    requires Enabled(s, e)
  {
    || GivesUp(normalize, s, e, p) || (Fails(s, e, p) && e.ReadySettled?)
    || ((e.SocketBroken? || e.SocketSaysGone?) && IsLive(s, p, e.attempt))
  }

  /** Everything but attempts, calls, sessions and teardowns. */
  ghost predicate SameSurroundings(s: State, t: State) {
    && t.port == s.port && t.token == s.token && t.generation == s.generation && t.exclusive == s.exclusive
    && t.quitting == s.quitting && t.registry == s.registry && t.scan == s.scan && t.leases == s.leases
    && t.heldByRelease == s.heldByRelease
  }

  // What the invariant says about one session, call or teardown

  ghost predicate Tokened(rs: Reservations) { forall a | a in rs && rs[a].HasSid() :: rs[a].token.Some? }

  lemma TokensHeld(normalize: string -> string, s: State)
    requires Inv(normalize, s)
    ensures Tokened(s.reservations)
  {
  }

  /** A reservation whose session may be torn down. */
  predicate Deletable(s: State, a: int) {
    a in s.reservations && s.reservations[a].HasSid() && !s.reservations[a].cleaningUp
  }

  lemma SessionFacts(normalize: string -> string, s: State, p: Profile)
    requires Inv(normalize, s) && p in s.sessions
    ensures var a := s.sessions[p].attempt;
            && s.sessions[p].madeIn == s.generation && a in s.sockets && s.sockets[a].profile == p
            && (s.sessions[p].sid != "" <==> Deletable(s, a))
            && (Deletable(s, a) ==> s.reservations[a].madeIn == s.generation)
  {
  }

  lemma PostingFacts(normalize: string -> string, s: State, a: int)
    requires Inv(normalize, s) && a in s.calls && s.calls[a].pc.Posting?
    ensures IsCurrent(s, s.calls[a].profile, a) ==> a in s.reservations && s.calls[a].profile !in s.sessions
    ensures a in s.reservations ==>
              && s.reservations[a].sid == None && !s.reservations[a].cleaningUp && s.calls[a].pc.generation == s.generation
              && (s.calls[a].pc.issued ==> s.reservations[a].token.Some?)
  {
  }

  lemma WaitingFacts(normalize: string -> string, s: State, a: int)
    requires Inv(normalize, s) && a in s.calls && (s.calls[a].pc.PortReady? || s.calls[a].pc.Ensuring?)
    ensures IsCurrent(s, s.calls[a].profile, a) ==> a in s.reservations && s.calls[a].profile !in s.sessions
    ensures a in s.reservations ==> s.reservations[a].sid == None
  {
  }

  lemma CurrentFacts(normalize: string -> string, s: State, p: Profile, a: int)
    requires Inv(normalize, s) && IsCurrent(s, p, a)
    ensures a in s.calls && s.calls[a].profile == p && (p in s.sessions ==> s.sessions[p].attempt == a)
  {
  }

  lemma TimerFacts(normalize: string -> string, s: State, a: int)
    requires Inv(normalize, s) && a in s.reservations && s.reservations[a].timer
    ensures s.reservations[a].HasSid() && s.reservations[a].token.Some? && s.reservations[a].madeIn == s.generation
  {
    assert InSomePhase(s.reservations[a], a, s.sessions, s.calls, s.cleanups, NOBODY);
  }

  lemma TeardownFacts(normalize: string -> string, s: State, c: int)
    requires Inv(normalize, s) && c in s.cleanups && s.cleanups[c].attempt in s.reservations
    ensures s.cleanups[c].madeIn == s.generation
  {
  }

  // Which MACs are freed

  /** A MAC is freed exactly by the end of its teardown, or by the return of a call that no session id ever reached. */
  predicate Frees(s: State, e: Event, a: int)
    requires Enabled(s, e) && a in s.reservations
  {
    Settles(s, e, a) || (Ends(s, e, a) && !Names(s.reservations[a].sid) && !NamesSession(e, a))
  }

  /** The same attempts keep their reservations, with the same ids. */
  ghost predicate SameIds(rs: Reservations, ts: Reservations) {
    ts.Keys == rs.Keys && forall a | a in rs :: ts[a].sid == rs[a].sid && ts[a].token == rs[a].token
  }

  lemma CleanupKeepsMacs(s: State, a: int)
    requires Tokened(s.reservations)
    ensures SameIds(s.reservations, BeginRemoteCleanup(s, a).reservations) && Tokened(BeginRemoteCleanup(s, a).reservations)
  {
  }

  lemma DisconnectKeepsMacs(s: State, p: Profile)
    requires Tokened(s.reservations)
    ensures SameIds(s.reservations, Disconnect(s, p).reservations) && Tokened(Disconnect(s, p).reservations)
  {
    hide BeginRemoteCleanup;
    if p in s.sessions {
      var cleared := Emit(ClearLocalSession(s.(connectAttempts := s.connectAttempts - {p}), p), Disconnected(p));
      CleanupKeepsMacs(cleared, s.sessions[p].attempt);
    }
  }

  lemma DisconnectAllKeepsMacs(s: State)
    requires Tokened(s.reservations)
    ensures SameIds(s.reservations, DisconnectAll(s).reservations)
  {
    hide Disconnect;
    DisconnectKeepsMacs(s, Meshtastic);
    DisconnectKeepsMacs(Disconnect(s, Meshtastic), Meshcore);
  }

  lemma FinishFrees(s: State, a: int)
    requires a in s.calls
    ensures Finish(s, a).reservations.Keys ==
            if a in s.reservations && !s.reservations[a].HasSid() then s.reservations.Keys - {a} else s.reservations.Keys
  {
  }

  lemma RejectedFrees(s: State, a: int)
    requires a in s.calls && Tokened(s.reservations)
    ensures Rejected(s, a).reservations.Keys ==
            if a in s.reservations && !s.reservations[a].HasSid() then s.reservations.Keys - {a} else s.reservations.Keys
  {
    hide BeginRemoteCleanup, Finish;
    var cleared := ClearLocalSession(s, s.calls[a].profile);
    CleanupKeepsMacs(cleared, a);
    CleanupCalls(cleared, a);
    FinishFrees(s, a);
    FinishFrees(Emit(BeginRemoteCleanup(cleared, a), Aborted(s.calls[a].profile)), a);
  }

  /** What a recorded answer leads to. */
  lemma AnswerCases(s: State, a: int, ok: bool, sid: Option<string>, socketThrows: bool)
    requires a in s.calls && s.calls[a].pc.Posting?
    requires IsCurrent(s, s.calls[a].profile, a) ==> a in s.reservations && s.reservations[a].token.Some?
    requires BeginRemoteCleanup(s, a).calls == s.calls
    ensures var p, t := s.calls[a].profile, AfterAnswer(s, a, ok, sid, socketThrows);
            && (!IsCurrent(s, p, a) ==> t == Finish(BeginRemoteCleanup(s, a), a))
            && (IsCurrent(s, p, a) && (!ok || sid.None?) ==> t == Finish(Emit(BeginRemoteCleanup(s, a), Aborted(p)), a))
            && (IsCurrent(s, p, a) && ok && sid.Some? && socketThrows ==> t == Rejected(s, a))
            && (IsCurrent(s, p, a) && ok && sid.Some? && !socketThrows ==> t == Installed(s, a, sid.value))
  {
    hide BeginRemoteCleanup, Finish, Rejected, Installed, Emit;
  }

  lemma AnswerFrees(s: State, a: int, ok: bool, sid: Option<string>, socketThrows: bool)
    requires a in s.calls && s.calls[a].pc.Posting? && Tokened(s.reservations)
    requires IsCurrent(s, s.calls[a].profile, a) ==> a in s.reservations && s.reservations[a].token.Some?
    ensures AfterAnswer(s, a, ok, sid, socketThrows).reservations.Keys ==
            if a in s.reservations && !s.reservations[a].HasSid()
               && !(ok && sid.Some? && !socketThrows && IsCurrent(s, s.calls[a].profile, a))
            then s.reservations.Keys - {a} else s.reservations.Keys
  {
    hide BeginRemoteCleanup, Finish, Rejected, AfterAnswer, IsCurrent;
    CleanupKeepsMacs(s, a);
    CleanupCalls(s, a);
    AnswerCases(s, a, ok, sid, socketThrows);
    RejectedFrees(s, a);
    FinishFrees(BeginRemoteCleanup(s, a), a);
    FinishFrees(Emit(BeginRemoteCleanup(s, a), Aborted(s.calls[a].profile)), a);
  }

  /** The answered id is all that recording it changes. */
  lemma NamedSame(s: State, a: int, sid: Option<string>)
    requires a in s.calls && s.calls[a].pc.Posting?
    ensures var t := WithSid(s, a, sid);
            && t.calls == s.calls && t.connectAttempts == s.connectAttempts && t.reservations.Keys == s.reservations.Keys
            && t.log == s.log && t.sessions == s.sessions && t.generation == s.generation
            && (forall b | b in s.reservations && b != a :: t.reservations[b] == s.reservations[b])
            && (a in s.reservations ==>
                  && t.reservations[a].token == s.reservations[a].token && t.reservations[a].cleaningUp == s.reservations[a].cleaningUp
                  && t.reservations[a].address == s.reservations[a].address
                  && t.reservations[a].madeIn == (if sid.Some? then s.calls[a].pc.generation else s.reservations[a].madeIn)
                  && t.reservations[a].sid == if sid.Some? then sid else s.reservations[a].sid)
  {
  }

  lemma ReplyFrees(s: State, b: int, o: PostOutcome, a: int)
    requires Enabled(s, PostSettled(b, o)) && a in s.reservations && o.PostReply? && Tokened(s.reservations)
    requires IsCurrent(s, s.calls[b].profile, b) ==> b in s.reservations
    requires b in s.reservations ==> s.reservations[b].token.Some? && s.reservations[b].sid == None
    ensures a !in AfterPost(s, b, o).reservations <==> Frees(s, PostSettled(b, o), a)
  {
    hide AfterAnswer, WithSid, IsCurrent;
    NamedSame(s, b, o.sid);
    SameCurrent(s, WithSid(s, b, o.sid), s.calls[b].profile, b);
    AnswerFrees(WithSid(s, b, o.sid), b, o.ok, o.sid, o.socketThrows);
  }

  lemma SameCurrent(s: State, t: State, p: Profile, a: int)
    requires t.connectAttempts == s.connectAttempts
    ensures IsCurrent(t, p, a) == IsCurrent(s, p, a)
  {
  }

  lemma PostFrees(normalize: string -> string, s: State, b: int, outcome: PostOutcome, a: int)
    requires Inv(normalize, s) && Enabled(s, PostSettled(b, outcome)) && a in s.reservations
    ensures a !in AfterPost(s, b, outcome).reservations <==> Frees(s, PostSettled(b, outcome), a)
  {
    hide Inv, AfterAnswer, Rejected, Tokened;
    PostingFacts(normalize, s, b);
    TokensHeld(normalize, s);
    if outcome.PostReply? { ReplyFrees(s, b, outcome, a); } else { RejectedFrees(s, b); }
  }

  lemma PortFrees(normalize: string -> string, s: State, b: int, a: int)
    requires Inv(normalize, s) && Enabled(s, ResumeWithPort(b)) && a in s.reservations
    ensures a !in AfterPort(s, b).reservations <==> Frees(s, ResumeWithPort(b), a)
  {
    hide Inv, Rejected, Finish, Tokened;
    WaitingFacts(normalize, s, b);
    TokensHeld(normalize, s);
    RejectedFrees(s, b);
    FinishFrees(s, b);
  }

  lemma ReadyFrees(normalize: string -> string, s: State, b: int, a: int)
    requires Inv(normalize, s) && Enabled(s, ReadySettled(b)) && a in s.reservations
    ensures a !in AfterReady(s, b).reservations <==> Frees(s, ReadySettled(b), a)
  {
    hide Inv, Rejected, Finish, Tokened;
    TokensHeld(normalize, s);
    RejectedFrees(s, b);
    FinishFrees(s, b);
    FinishFrees(Emit(s, Connected(s.calls[b].profile)), b);
  }

  lemma CallsFree(normalize: string -> string, s: State, e: Event, a: int)
    requires Inv(normalize, s) && Enabled(s, e) && a in s.reservations
    requires e.ResumeWithPort? || e.PostSettled? || e.ReadySettled?
    ensures a !in Step(normalize, s, e).reservations <==> Frees(s, e, a)
  {
    hide Inv, Frees;
    match e
    case ResumeWithPort(b) => PortFrees(normalize, s, b, a);
    case PostSettled(b, outcome) => PostFrees(normalize, s, b, outcome, a);
    case ReadySettled(b) => ReadyFrees(normalize, s, b, a);
  }

  lemma TimerFrees(normalize: string -> string, s: State, b: int)
    requires Inv(normalize, s) && Enabled(s, CleanupTimerFired(b))
    ensures AfterTimer(s, b).reservations.Keys == s.reservations.Keys
  {
    hide Inv;
    TimerFacts(normalize, s, b);
  }

  lemma ConnectKeepsMacs(normalize: string -> string, s: State, lease: int, p: Profile, address: string, a: int)
    requires Tokened(s.reservations) && a in s.reservations
    ensures a in Connect(normalize, s, lease, p, address).reservations
  {
    hide AssertCanConnect, AllLinks, Disconnect;
    DisconnectKeepsMacs(s, p);
  }

  lemma GoneKeepsMacs(s: State, b: int)
    requires Tokened(s.reservations) && b in s.sockets
    ensures SocketGone(s, b).reservations.Keys == s.reservations.Keys
  {
    CleanupKeepsMacs(ClearLocalSession(s, s.sockets[b].profile), b);
    hide BeginRemoteCleanup;
  }

  /** Each event frees exactly the MACs for which these conditions hold: a refused DELETE, for one, frees none. */
  lemma MacFreedExactly(normalize: string -> string, s: State, e: Event, a: int)
    requires Reachable(normalize, s) && Enabled(s, e) && a in s.reservations
    ensures a !in Step(normalize, s, e).reservations <==> Frees(s, e, a)
  {
    ReachableHolds(normalize, s);
    FreedExactly(normalize, s, e, a);
  }

  lemma DropsFree(normalize: string -> string, s: State, e: Event, a: int)
    requires Tokened(s.reservations) && Enabled(s, e) && a in s.reservations
    requires e.ConnectCall? || e.SocketBroken? || e.SocketSaysGone? || e.DisconnectCall? || e.DisconnectAllCall? || e.ReleaseCentral?
    ensures a in Step(normalize, s, e).reservations && !Frees(s, e, a)
  {
    hide Tokened, Connect, Disconnect, DisconnectAll, SocketGone;
    match e
    case ConnectCall(lease, p, address) => ConnectKeepsMacs(normalize, s, lease, p, address, a);
    case SocketBroken(b) => GoneKeepsMacs(SettleSocket(s, b, Failed), b);
    case SocketSaysGone(b) => GoneKeepsMacs(s, b);
    case DisconnectCall(p) => DisconnectKeepsMacs(s, p);
    case DisconnectAllCall => DisconnectAllKeepsMacs(s);
    case ReleaseCentral => DisconnectAllKeepsMacs(SetHold(s, true));
  }

  lemma RepliesFree(normalize: string -> string, s: State, e: Event, a: int)
    requires Inv(normalize, s) && Enabled(s, e) && a in s.reservations
    requires e.DeleteSettled? || e.ProbeSettled? || e.CleanupTimerFired? || e.SidecarExited?
    ensures a !in Step(normalize, s, e).reservations <==> Frees(s, e, a)
  {
    hide Inv, AfterTimer;
    if e.CleanupTimerFired? { TimerFrees(normalize, s, e.attempt); }
  }

  lemma QuietFrees(s: State, e: Event, a: int)
    requires Quiet(e) && Enabled(s, e) && a in s.reservations
    ensures !Frees(s, e, a)
  {
  }

  lemma FreedExactly(normalize: string -> string, s: State, e: Event, a: int)
    requires Inv(normalize, s) && Enabled(s, e) && a in s.reservations
    ensures a !in Step(normalize, s, e).reservations <==> Frees(s, e, a)
  {
    hide Inv, Tokened, Step, Enabled, Frees;
    TokensHeld(normalize, s);
    if Quiet(e) {
      QuietStep(normalize, s, e);
      QuietFrees(s, e, a);
    } else if e.ResumeWithPort? || e.PostSettled? || e.ReadySettled? {
      CallsFree(normalize, s, e, a);
    } else if e.DeleteSettled? || e.ProbeSettled? || e.CleanupTimerFired? || e.SidecarExited? {
      RepliesFree(normalize, s, e, a);
    } else {
      DropsFree(normalize, s, e, a);
    }
  }

  // How a teardown ends

  /** Some event of the run, met while the MAC was still held, ended the teardown. */
  ghost predicate SettledIn(normalize: string -> string, s: State, run: seq<Event>, a: int)
    requires ValidRun(normalize, s, run) && a in s.reservations
    decreases |run|
  {
    run != [] && (Settles(s, run[0], a) ||
                  var t := Step(normalize, s, run[0]); a in t.reservations && SettledIn(normalize, t, run[1..], a))
  }

  lemma TeardownStep(normalize: string -> string, s: State, e: Event, a: int)
    requires Inv(normalize, s) && Enabled(s, e) && a in s.reservations
    requires InCleanup(s.reservations[a], a, s.sessions, s.cleanups)
    ensures a !in Step(normalize, s, e).reservations <==> Settles(s, e, a)
  {
    FreedExactly(normalize, s, e, a);
    hide Inv, Step;
  }

  lemma {:induction false} SettledAtLast(normalize: string -> string, s: State, run: seq<Event>, a: int)
    requires Inv(normalize, s) && ValidRun(normalize, s, run) && a in s.reservations
    requires InCleanup(s.reservations[a], a, s.sessions, s.cleanups)
    ensures a !in Run(normalize, s, run).reservations <==> SettledIn(normalize, s, run, a)
    decreases |run|
  {
    if run != [] {
      hide Inv, Step, InCleanup, Settles;
      var t := Step(normalize, s, run[0]);
      TeardownStep(normalize, s, run[0], a);
      StepKeeps(normalize, s, run[0]);
      if a in t.reservations {
        StepRank(normalize, s, run[0], a);
        SettledAtLast(normalize, t, run[1..], a);
      } else {
        assert a < t.nextAttempt by { GrewOnly(normalize, s, run[0], a); }
        ReleasedStays(normalize, t, run[1..], a);
      }
    }
  }

  lemma GrewOnly(normalize: string -> string, s: State, e: Event, a: int)
    requires Inv(normalize, s) && Enabled(s, e) && a in s.reservations
    ensures a < Step(normalize, s, e).nextAttempt
  {
    NoReturn(normalize, s, e);
    hide Step;
  }

  /** Over any run, a torn-down MAC is free at the end exactly if a DELETE was confirmed or failed while quitting, the link
      was gone, the eighth round was over or the sidecar exited, while it was held. */
  lemma TeardownEndsOnlySo(normalize: string -> string, s: State, run: seq<Event>, a: int)
    requires Reachable(normalize, s) && ValidRun(normalize, s, run) && a in s.reservations
    requires InCleanup(s.reservations[a], a, s.sessions, s.cleanups)
    ensures a !in Run(normalize, s, run).reservations <==> SettledIn(normalize, s, run, a)
  {
    ReachableHolds(normalize, s);
    SettledAtLast(normalize, s, run, a);
  }
}
