/** What the GATT proxy promises over whole runs, for every interleaving and every address normalisation. */
module GattProperties {
  import opened Wrappers
  import opened Coexistence
  import opened GattProtocol
  import opened GattInvariants
  import opened GattSteps

  ghost predicate Reachable(normalize: string -> string, s: State) {
    exists run :: ValidRun(normalize, Initial, run) && Run(normalize, Initial, run) == s
  }

  lemma ReachableHolds(normalize: string -> string, s: State)
    requires Reachable(normalize, s)
    ensures Inv(normalize, s)
  {
    var run :| ValidRun(normalize, Initial, run) && Run(normalize, Initial, run) == s;
    InitialHolds(normalize);
    RunKeeps(normalize, Initial, run);
  }

  lemma {:induction false} RunAppend(normalize: string -> string, s: State, run: seq<Event>, e: Event)
    requires ValidRun(normalize, s, run) && Enabled(Run(normalize, s, run), e)
    ensures ValidRun(normalize, s, run + [e])
    ensures Run(normalize, s, run + [e]) == Step(normalize, Run(normalize, s, run), e)
    decreases |run|
  {
    if run == [] {
      assert run + [e] == [e] && [e][1..] == [];
      assert ValidRun(normalize, Step(normalize, s, e), []);
    } else {
      assert (run + [e])[0] == run[0] && (run + [e])[1..] == run[1..] + [e];
      RunAppend(normalize, Step(normalize, s, run[0]), run[1..], e);
    }
  }

  lemma InitiallyReachable(normalize: string -> string)
    ensures Reachable(normalize, Initial)
  {
    assert ValidRun(normalize, Initial, []) && Run(normalize, Initial, []) == Initial;
  }

  lemma Extend(normalize: string -> string, s: State, e: Event)
    requires Reachable(normalize, s) && Enabled(s, e)
    ensures Reachable(normalize, Step(normalize, s, e))
  {
    var run :| ValidRun(normalize, Initial, run) && Run(normalize, Initial, run) == s;
    RunAppend(normalize, Initial, run, e);
  }

  // Ownership of a MAC

  /** Registry entry, running or cancelled attempts, reserved sessions and teardowns of one tracked MAC have one owner. */
  lemma OneOwnerPerMac(normalize: string -> string, s: State)
    requires Reachable(normalize, s)
    ensures OneOwner(normalize, s.registry, AllLinks(s))
  {
    ReachableHolds(normalize, s);
    MacsAreOwned(normalize, s);
  }

  function LiveLink(sessions: Sessions, p: Profile): seq<LinkEntry> {
    if p in sessions then [LinkEntry(sessions[p].address, Gatt(p))] else []
  }

  /** The peripherals that the live sessions talk to, reserved or not. */
  function LiveLinks(sessions: Sessions): seq<LinkEntry> { LiveLink(sessions, Meshtastic) + LiveLink(sessions, Meshcore) }

  lemma LiveLinkOf(sessions: Sessions, i: int) returns (p: Profile)
    requires 0 <= i < |LiveLinks(sessions)|
    ensures p in sessions && LiveLinks(sessions)[i] == LinkEntry(sessions[p].address, Gatt(p))
  {
    p := if i < |LiveLink(sessions, Meshtastic)| then Meshtastic else Meshcore;
  }

  ghost predicate Listed(links: seq<LinkEntry>, link: LinkEntry) { exists i :: 0 <= i < |links| && links[i] == link }

  lemma LiveIsListed(normalize: string -> string, s: State, p: Profile)
    requires Inv(normalize, s) && p in s.sessions
    requires s.sessions[p].sid != "" || s.sessions[p].attempt in s.calls
    ensures Listed(AllLinks(s), LinkEntry(s.sessions[p].address, Gatt(p)))
  {
    LinkOf(s.reservations, s.nextAttempt, s.sessions[p].attempt);
  }

  function Other(p: Profile): Profile { if p.Meshtastic? then Meshcore else Meshtastic }

  /** A live session that no reservation stands for: its id is empty and its connect has returned. */
  predicate Unreserved(s: State, p: Profile) {
    p in s.sessions && s.sessions[p].sid == "" && s.sessions[p].attempt !in s.calls
  }

  /** The guard, told of the other profile's live session, would admit the session where it is. */
  predicate WouldAdmit(normalize: string -> string, s: State, p: Profile)
    requires p in s.sessions
  {
    var key := normalize(s.sessions[p].address);
    key == "" || Free(normalize, s.registry, AllLinks(s) + LiveLink(s.sessions, Other(p)), Gatt(p), key)
  }

  lemma OneMoreLink(normalize: string -> string, registry: Registry, links: seq<LinkEntry>, sessions: Sessions, q: Profile)
    ensures Overlay(normalize, registry, links + LiveLink(sessions, q)) ==
            if q in sessions && normalize(sessions[q].address) != "" then
              Overlay(normalize, registry, links)[normalize(sessions[q].address) := Gatt(q)]
            else Overlay(normalize, registry, links)
  {
    if q in sessions {
      var all := links + LiveLink(sessions, q);
      assert all[..|all| - 1] == links;
    } else {
      assert links + [] == links;
    }
  }

  lemma LiveHolds(normalize: string -> string, registry: Registry, links: seq<LinkEntry>, sessions: Sessions, key: string, o: Owner)
    ensures Holds(normalize, registry, links + LiveLinks(sessions), key, o) <==>
            || Holds(normalize, registry, links, key, o)
            || exists p :: p in sessions && normalize(sessions[p].address) == key && o == Gatt(p)
  {
    var all, n := links + LiveLinks(sessions), |links|;
    if Holds(normalize, registry, all, key, o) && !(key in registry && registry[key] == o) {
      var i :| 0 <= i < |all| && normalize(all[i].mac) == key && all[i].owner == o;
      if i >= n { var p := LiveLinkOf(sessions, i - n); } else { assert links[i] == all[i]; }
    }
    if i :| 0 <= i < n && normalize(links[i].mac) == key && links[i].owner == o { assert all[i] == links[i]; }
    forall p | p in sessions && normalize(sessions[p].address) == key && o == Gatt(p)
      ensures Holds(normalize, registry, all, key, o)
    {
      var i := if p.Meshtastic? then n else n + |LiveLink(sessions, Meshtastic)|;
      assert all[i] == LinkEntry(sessions[p].address, Gatt(p));
    }
  }

  /** What an unreserved live session shares its key with. */
  lemma AdmittedAlone(normalize: string -> string, registry: Registry, links: seq<LinkEntry>, sessions: Sessions, p: Profile, key: string)
    requires OneOwner(normalize, registry, links) && p in sessions && normalize(sessions[p].address) == key != ""
    ensures Free(normalize, registry, links + LiveLink(sessions, Other(p)), Gatt(p), key) <==>
            && (forall o :: Holds(normalize, registry, links, key, o) ==> o == Gatt(p))
            && (Other(p) in sessions ==> normalize(sessions[Other(p)].address) != key)
  {
    OneMoreLink(normalize, registry, links, sessions, Other(p));
    FreeMeansNoOtherHolder(normalize, registry, links, Gatt(p), key);
    OverlayNamesAHolder(normalize, registry, links, key);
  }

  /** A holder among all links is a listed holder or an unreserved live session. */
  lemma ListedOrUnreserved(normalize: string -> string, s: State, key: string, o: Owner) returns (p: Profile)
    requires Inv(normalize, s) && Holds(normalize, s.registry, AllLinks(s) + LiveLinks(s.sessions), key, o)
    ensures Holds(normalize, s.registry, AllLinks(s), key, o)
            || (Unreserved(s, p) && normalize(s.sessions[p].address) == key && o == Gatt(p))
  {
    hide Inv, AllLinks, LiveLinks;
    LiveHolds(normalize, s.registry, AllLinks(s), s.sessions, key, o);
    p := Meshtastic;
    if !Holds(normalize, s.registry, AllLinks(s), key, o) {
      p :| p in s.sessions && normalize(s.sessions[p].address) == key && o == Gatt(p);
      if !Unreserved(s, p) { LiveIsListed(normalize, s, p); }
    }
  }

  lemma AdmittedShare(normalize: string -> string, s: State, key: string, o1: Owner, o2: Owner)
    requires Inv(normalize, s) && OneOwner(normalize, s.registry, AllLinks(s)) && key != ""
    requires forall p | p in s.sessions && Unreserved(s, p) :: WouldAdmit(normalize, s, p)
    requires Holds(normalize, s.registry, AllLinks(s) + LiveLinks(s.sessions), key, o1)
    requires Holds(normalize, s.registry, AllLinks(s) + LiveLinks(s.sessions), key, o2)
    ensures o1 == o2
  {
    var p := ListedOrUnreserved(normalize, s, key, o1);
    var q := ListedOrUnreserved(normalize, s, key, o2);
    hide Inv, AllLinks, LiveLinks, LiveLink, Holds, Free;
    if Unreserved(s, p) && normalize(s.sessions[p].address) == key {
      AdmittedAlone(normalize, s.registry, AllLinks(s), s.sessions, p, key);
    }
    if Unreserved(s, q) && normalize(s.sessions[q].address) == key {
      AdmittedAlone(normalize, s.registry, AllLinks(s), s.sessions, q, key);
    }
  }

  lemma SharersAreAdmitted(normalize: string -> string, s: State, p: Profile)
    requires OneOwner(normalize, s.registry, AllLinks(s)) && p in s.sessions
    requires OneOwner(normalize, s.registry, AllLinks(s) + LiveLinks(s.sessions))
    ensures WouldAdmit(normalize, s, p)
  {
    var key := normalize(s.sessions[p].address);
    if key != "" {
      hide AllLinks, LiveLinks, LiveLink, Holds, Free, Overlay;
      var all := AllLinks(s) + LiveLinks(s.sessions);
      LiveHolds(normalize, s.registry, AllLinks(s), s.sessions, key, Gatt(p));
      LiveHolds(normalize, s.registry, AllLinks(s), s.sessions, key, Gatt(Other(p)));
      assert Gatt(Other(p)) != Gatt(p) && Holds(normalize, s.registry, all, key, Gatt(p));
      forall o | Holds(normalize, s.registry, AllLinks(s), key, o) ensures o == Gatt(p) {
        LiveHolds(normalize, s.registry, AllLinks(s), s.sessions, key, o);
      }
      AdmittedAlone(normalize, s.registry, AllLinks(s), s.sessions, p, key);
    }
  }

  /** Live sessions count as holders too, and all holders of a MAC still have one owner, exactly when the guard, told
      of the other profile's session, would admit every live session that lost its reservation to an empty id. */
  lemma OneOwnerWithLive(normalize: string -> string, s: State)
    requires Reachable(normalize, s)
    ensures OneOwner(normalize, s.registry, AllLinks(s) + LiveLinks(s.sessions)) <==>
            forall p | p in s.sessions && Unreserved(s, p) :: WouldAdmit(normalize, s, p)
  {
    hide Inv, AllLinks, LiveLinks, Holds, WouldAdmit, Unreserved;
    ReachableHolds(normalize, s);
    OneOwnerPerMac(normalize, s);
    if OneOwner(normalize, s.registry, AllLinks(s) + LiveLinks(s.sessions)) {
      forall p | p in s.sessions ensures WouldAdmit(normalize, s, p) { SharersAreAdmitted(normalize, s, p); }
    }
    if forall p | p in s.sessions && Unreserved(s, p) :: WouldAdmit(normalize, s, p) {
      forall key, o1, o2 | key != "" && Holds(normalize, s.registry, AllLinks(s) + LiveLinks(s.sessions), key, o1)
                           && Holds(normalize, s.registry, AllLinks(s) + LiveLinks(s.sessions), key, o2)
        ensures o1 == o2
      {
        AdmittedShare(normalize, s, key, o1, o2);
      }
    }
  }

  // Life of a reservation

  /** Every reservation is in exactly one of the three phases. */
  lemma ExactlyOnePhase(normalize: string -> string, s: State, a: int)
    requires Reachable(normalize, s) && a in s.reservations
    ensures var r := s.reservations[a];
            var owned := OwnedByConnect(r, a, s.calls, s.cleanups);
            var backs := BacksSession(r, a, s.sessions, s.cleanups);
            var cleaning := InCleanup(r, a, s.sessions, s.cleanups);
            (owned || backs || cleaning) && !(owned && backs) && !(owned && cleaning) && !(backs && cleaning)
  {
    ReachableHolds(normalize, s);
    assert InSomePhase(s.reservations[a], a, s.sessions, s.calls, s.cleanups, NOBODY);
  }

  /** A live session keeps its MAC reserved exactly when its id is not empty or its connect still runs. */
  lemma LiveSessionReserved(normalize: string -> string, s: State, p: Profile)
    requires Reachable(normalize, s) && p in s.sessions
    ensures s.sessions[p].attempt in s.reservations <==> s.sessions[p].sid != "" || s.sessions[p].attempt in s.calls
  {
    ReachableHolds(normalize, s);
  }

  /** Steps left in the teardown of `a`: three per remaining round. */
  ghost function Rank(s: State, a: int): int
    requires a in s.reservations
  {
    3 * (CLEANUP_MAX_ATTEMPTS - s.reservations[a].attempts) +
    if s.reservations[a].timer then 0
    else if exists c :: c in s.cleanups && s.cleanups[c].attempt == a && s.cleanups[c].pc == Probing then 1
    else 2
  }

  /** A reply or timer of the teardown of `a`. */
  predicate CleanupEvent(s: State, e: Event, a: int) {
    && a in s.reservations
    && match e
       case DeleteSettled(c, _) => c in s.cleanups && s.cleanups[c].attempt == a
       case ProbeSettled(c, _) => c in s.cleanups && s.cleanups[c].attempt == a
       case CleanupTimerFired(b) => b == a
       case _ => false
  }

  /** The teardown of `a` stands where it stood. */
  ghost predicate Apart(rs: Reservations, cs: Cleanups, ts: Reservations, ds: Cleanups, a: int) {
    && a in rs && a in ts && ts[a] == rs[a]
    && (forall c | c in cs && cs[c].attempt == a :: c in ds && ds[c] == cs[c])
    && (forall c | c in ds && ds[c].attempt == a :: c in cs && ds[c] == cs[c])
  }

  ghost predicate SameTeardown(s: State, t: State, a: int) {
    Apart(s.reservations, s.cleanups, t.reservations, t.cleanups, a)
  }

  ghost predicate CallsBelow(s: State) {
    forall c | c in s.cleanups :: c < s.nextCleanup
  }

  lemma SameRank(s: State, t: State, a: int)
    requires SameTeardown(s, t, a)
    ensures Rank(t, a) == Rank(s, a)
  {
  }

  /** Starting another teardown, or repeating this one, does not disturb a running teardown. */
  lemma CleanupApart(s: State, b: int, a: int)
    requires a in s.reservations && s.reservations[a].cleaningUp && CallsBelow(s)
    ensures SameTeardown(s, BeginRemoteCleanup(s, b), a) && CallsBelow(BeginRemoteCleanup(s, b))
  {
  }

  lemma DisconnectApart(s: State, p: Profile, a: int)
    requires a in s.reservations && s.reservations[a].cleaningUp && CallsBelow(s)
    ensures SameTeardown(s, Disconnect(s, p), a) && CallsBelow(Disconnect(s, p))
  {
    if p in s.sessions {
      CleanupApart(Emit(ClearLocalSession(s.(connectAttempts := s.connectAttempts - {p}), p), Disconnected(p)),
                   s.sessions[p].attempt, a);
    }
  }

  lemma DisconnectAllApart(s: State, a: int)
    requires a in s.reservations && s.reservations[a].cleaningUp && CallsBelow(s)
    ensures SameTeardown(s, DisconnectAll(s), a)
  {
    DisconnectApart(s, Meshtastic, a);
    DisconnectApart(Disconnect(s, Meshtastic), Meshcore, a);
  }

  lemma FinishApart(s: State, b: int, a: int)
    requires b in s.calls && a in s.reservations && s.reservations[a].HasSid()
    ensures SameTeardown(s, Finish(s, b), a)
  {
  }

  lemma RejectedApart(s: State, b: int, a: int)
    requires b in s.calls && a in s.reservations && s.reservations[a].HasSid() && s.reservations[a].cleaningUp && CallsBelow(s)
    ensures SameTeardown(s, Rejected(s, b), a)
  {
    var p := s.calls[b].profile;
    FinishApart(s, b, a);
    var cleared := ClearLocalSession(s, p);
    CleanupApart(cleared, b, a);
    FinishApart(Emit(BeginRemoteCleanup(cleared, b), Aborted(p)), b, a);
  }

  lemma PostApart(s: State, b: int, outcome: PostOutcome, a: int)
    requires b in s.calls && s.calls[b].pc.Posting? && outcome.PostReply? && CallsBelow(s) && a != b
    requires a in s.reservations && s.reservations[a].HasSid() && s.reservations[a].cleaningUp
    ensures SameTeardown(s, AfterPost(s, b, outcome), a)
  {
    var named := WithSid(s, b, outcome.sid);
    AnswerApart(named, b, outcome.ok, outcome.sid, outcome.socketThrows, a);
    ChainApart(s, named, AfterPost(s, b, outcome), a);
  }

  lemma AnswerApart(s: State, b: int, ok: bool, sid: Option<string>, socketThrows: bool, a: int)
    requires b in s.calls && s.calls[b].pc.Posting? && CallsBelow(s)
    requires a in s.reservations && s.reservations[a].HasSid() && s.reservations[a].cleaningUp
    ensures SameTeardown(s, AfterAnswer(s, b, ok, sid, socketThrows), a)
  {
    hide Rejected, Finish, BeginRemoteCleanup;
    var cleaned := BeginRemoteCleanup(s, b);
    var told := Emit(cleaned, Aborted(s.calls[b].profile));
    CleanupApart(s, b, a);
    CleanupCalls(s, b);
    FinishApart(cleaned, b, a);
    ChainApart(s, cleaned, Finish(cleaned, b), a);
    FinishApart(told, b, a);
    ChainApart(s, told, Finish(told, b), a);
    RejectedApart(s, b, a);
  }

  lemma CleanupCalls(s: State, b: int)
    ensures BeginRemoteCleanup(s, b).calls == s.calls && BeginRemoteCleanup(s, b).sessions == s.sessions
  {
  }

  lemma ChainApart(s: State, t: State, u: State, a: int)
    requires SameTeardown(s, t, a) && SameTeardown(t, u, a)
    ensures SameTeardown(s, u, a)
  {
  }

  lemma PortApart(s: State, b: int, a: int)
    requires b in s.calls && s.calls[b].pc.PortReady? && CallsBelow(s) && a != b
    requires a in s.reservations && s.reservations[a].HasSid() && s.reservations[a].cleaningUp
    ensures SameTeardown(s, AfterPort(s, b), a)
  {
    RejectedApart(s, b, a);
    FinishApart(s, b, a);
  }

  lemma ReadyApart(s: State, b: int, a: int)
    requires b in s.calls && b in s.sockets && CallsBelow(s)
    requires a in s.reservations && s.reservations[a].HasSid() && s.reservations[a].cleaningUp
    ensures SameTeardown(s, AfterReady(s, b), a)
  {
    RejectedApart(s, b, a);
    FinishApart(s, b, a);
    FinishApart(Emit(s, Connected(s.calls[b].profile)), b, a);
  }

  lemma GoneApart(s: State, b: int, a: int)
    requires b in s.sockets && CallsBelow(s) && a in s.reservations && s.reservations[a].cleaningUp
    ensures SameTeardown(s, SocketGone(s, b), a)
  {
    CleanupApart(ClearLocalSession(s, s.sockets[b].profile), b, a);
  }

  lemma DeleteApart(s: State, c: int, outcome: DeleteOutcome, a: int)
    requires c in s.cleanups && s.cleanups[c].attempt != a && a in s.reservations
    ensures SameTeardown(s, AfterDelete(s, c, outcome), a)
  {
  }

  lemma ProbeApart(s: State, c: int, gone: bool, a: int)
    requires c in s.cleanups && s.cleanups[c].attempt != a && a in s.reservations
    ensures SameTeardown(s, AfterProbe(s, c, gone), a)
  {
  }

  lemma ConnectApart(normalize: string -> string, s: State, lease: int, p: Profile, address: string, a: int)
    requires a in s.reservations && s.reservations[a].cleaningUp && CallsBelow(s) && a < s.nextAttempt
    ensures SameTeardown(s, Connect(normalize, s, lease, p, address), a)
  {
    hide AssertCanConnect, AllLinks, Disconnect;
    DisconnectApart(s, p, a);
    DisconnectFrame(s, p);
  }

  lemma TimerApart(s: State, b: int, a: int)
    requires b in s.reservations && a != b && a in s.reservations && CallsBelow(s)
    ensures SameTeardown(s, AfterTimer(s, b), a)
  {
  }

  /** Events that touch neither reservations nor teardowns. */
  predicate Quiet(e: Event) {
    || e.EnsureSettled? || e.SocketOpened? || e.SetPort? || e.SessionCall? || e.SetQuitting? || e.SetExclusive?
    || e.ExclusiveExpired? || e.RegisterMac? || e.UnregisterMac? || e.ScanAcquire? || e.ScanRelease?
  }

  lemma QuietStep(normalize: string -> string, s: State, e: Event)
    requires Enabled(s, e) && Quiet(e)
    ensures var t := Step(normalize, s, e);
            && t.reservations == s.reservations && t.cleanups == s.cleanups && t.nextAttempt == s.nextAttempt
            && t.sessions == s.sessions
  {
    hide AfterRegister, AfterUnregister, AllLinks, AfterAcquire, AfterRelease, Connect, AfterPort, AfterPost, AfterReady;
    hide SocketGone, Disconnect, DisconnectAll, Release, AfterDelete, AfterProbe, AfterTimer, AfterExit;
  }

  /** Steps of a `connect` call. */
  lemma CallsApart(normalize: string -> string, s: State, e: Event, a: int)
    requires Inv(normalize, s) && Enabled(s, e) && (e.ResumeWithPort? || e.PostSettled? || e.ReadySettled?)
    requires a in s.reservations && s.reservations[a].HasSid() && s.reservations[a].cleaningUp
    ensures SameTeardown(s, Step(normalize, s, e), a)
  {
    EarlyElsewhere(normalize, s, a);
    match e
    case ResumeWithPort(b) => PortApart(s, b, a);
    case PostSettled(b, outcome) => if outcome.PostReply? { PostApart(s, b, outcome, a); } else { RejectedApart(s, b, a); }
    case ReadySettled(b) => ReadyApart(s, b, a);
  }

  /** Events that are no reply to the teardown of `a` leave it alone, short of a sidecar exit. */
  lemma OthersApart(normalize: string -> string, s: State, e: Event, a: int)
    requires Inv(normalize, s) && Enabled(s, e) && !CleanupEvent(s, e, a) && !e.SidecarExited?
    requires a in s.reservations && s.reservations[a].HasSid() && s.reservations[a].cleaningUp
    ensures SameTeardown(s, Step(normalize, s, e), a)
  {
    assert CallsBelow(s) && a < s.nextAttempt;
    if Quiet(e) { QuietStep(normalize, s, e); return; }
    match e
    case ConnectCall(lease, p, address) => ConnectApart(normalize, s, lease, p, address, a);
    case ResumeWithPort(b) => CallsApart(normalize, s, e, a);
    case PostSettled(b, outcome) => CallsApart(normalize, s, e, a);
    case ReadySettled(b) => CallsApart(normalize, s, e, a);
    case SocketBroken(b) => GoneApart(SettleSocket(s, b, Failed), b, a);
    case SocketSaysGone(b) => GoneApart(s, b, a);
    case DisconnectCall(p) => DisconnectApart(s, p, a);
    case DisconnectAllCall => DisconnectAllApart(s, a);
    case ReleaseCentral => DisconnectAllApart(SetHold(s, true), a);
    case DeleteSettled(c, outcome) => DeleteApart(s, c, outcome, a);
    case ProbeSettled(c, gone) => ProbeApart(s, c, gone, a);
    case CleanupTimerFired(b) => TimerApart(s, b, a);
  }

  /** A reservation being torn down belongs to no call that is still on its way to a session. */
  lemma EarlyElsewhere(normalize: string -> string, s: State, a: int)
    requires Inv(normalize, s) && a in s.reservations && s.reservations[a].HasSid()
    ensures a in s.calls ==> s.calls[a].pc.Opening?
  {
  }

  lemma DeleteProgress(s: State, c: int, outcome: DeleteOutcome, a: int)
    requires c in s.cleanups && s.cleanups[c].attempt == a && s.cleanups[c].pc == Deleting && a in s.reservations
    requires !s.reservations[a].timer
    requires forall d | d in s.cleanups && s.cleanups[d].attempt == a :: d == c
    ensures var t := AfterDelete(s, c, outcome);
            a !in t.reservations || (t.reservations[a] == s.reservations[a] && Rank(t, a) < Rank(s, a))
  {
    var t := AfterDelete(s, c, outcome);
    if a in t.reservations { assert t.cleanups[c].pc == Probing; }
  }

  lemma ProbeProgress(s: State, c: int, gone: bool, a: int)
    requires c in s.cleanups && s.cleanups[c].attempt == a && s.cleanups[c].pc == Probing && a in s.reservations
    requires !s.reservations[a].timer
    ensures var t := AfterProbe(s, c, gone);
            a !in t.reservations || (t.reservations[a] == s.reservations[a].(timer := true) && Rank(t, a) < Rank(s, a))
  {
  }

  lemma TimerProgress(s: State, a: int)
    requires a in s.reservations && s.reservations[a].timer && s.reservations[a].HasSid() && s.reservations[a].cleaningUp
    ensures var t := AfterTimer(s, a);
            a !in t.reservations || (t.reservations[a] == Restarted(s.reservations[a]) && Rank(t, a) < Rank(s, a))
  {
  }

  /** A reply or timer of a teardown either releases the MAC or uses up rank. */
  lemma CleanupProgress(normalize: string -> string, s: State, e: Event, a: int)
    requires Enabled(s, e) && CleanupEvent(s, e, a)
    requires InCleanup(s.reservations[a], a, s.sessions, s.cleanups)
    ensures var t := Step(normalize, s, e);
            a !in t.reservations || (t.reservations[a].cleaningUp && t.reservations[a].HasSid() && Rank(t, a) < Rank(s, a))
  {
    match e
    case DeleteSettled(c, outcome) => assert Tearing(s.cleanups, a); DeleteProgress(s, c, outcome, a);
    case ProbeSettled(c, gone) => assert Tearing(s.cleanups, a); ProbeProgress(s, c, gone, a);
    case CleanupTimerFired(b) => TimerProgress(s, a);
  }

  lemma MarkedInCleanup(normalize: string -> string, s: State, a: int)
    requires Inv(normalize, s) && a in s.reservations && s.reservations[a].HasSid() && s.reservations[a].cleaningUp
    ensures InCleanup(s.reservations[a], a, s.sessions, s.cleanups)
  {
    assert InSomePhase(s.reservations[a], a, s.sessions, s.calls, s.cleanups, NOBODY);
  }

  lemma StepRank(normalize: string -> string, s: State, e: Event, a: int)
    requires Inv(normalize, s) && Enabled(s, e) && a in s.reservations
    requires InCleanup(s.reservations[a], a, s.sessions, s.cleanups)
    ensures var t := Step(normalize, s, e);
            a !in t.reservations ||
            (InCleanup(t.reservations[a], a, t.sessions, t.cleanups)
             && Rank(t, a) + (if CleanupEvent(s, e, a) then 1 else 0) <= Rank(s, a))
  {
    hide Mid, Rank, Step;
    var t := Step(normalize, s, e);
    StepKeeps(normalize, s, e);
    if CleanupEvent(s, e, a) {
      CleanupProgress(normalize, s, e, a);
    } else if e.SidecarExited? {
      ExitDrops(normalize, s, e, a);
    } else {
      OthersApart(normalize, s, e, a);
      SameRank(s, t, a);
    }
    if a in t.reservations { MarkedInCleanup(normalize, t, a); }
  }

  lemma ExitDrops(normalize: string -> string, s: State, e: Event, a: int)
    requires Enabled(s, e) && e.SidecarExited?
    ensures a !in Step(normalize, s, e).reservations
  {
  }

  /** How many replies and timers of the teardown of `a` a run contains while the MAC is still held. */
  ghost function CleanupEvents(normalize: string -> string, s: State, run: seq<Event>, a: int): int
    requires ValidRun(normalize, s, run)
    decreases |run|
  {
    if run == [] then 0
    else (if CleanupEvent(s, run[0], a) then 1 else 0) + CleanupEvents(normalize, Step(normalize, s, run[0]), run[1..], a)
  }

  lemma {:induction false} ReleasedStays(normalize: string -> string, s: State, run: seq<Event>, a: int)
    requires ValidRun(normalize, s, run) && a !in s.reservations && a < s.nextAttempt
    ensures a !in Run(normalize, s, run).reservations && CleanupEvents(normalize, s, run, a) == 0
    decreases |run|
  {
    if run != [] {
      NeverAgain(normalize, s, run[0], a);
      ReleasedStays(normalize, Step(normalize, s, run[0]), run[1..], a);
    }
  }

  /** Sessions stay, go, or come from an attempt that holds a reservation. */
  ghost predicate SessionsFrom(sessions: Sessions, rs: Reservations, now: Sessions) {
    forall p | p in now :: (p in sessions && now[p] == sessions[p]) || now[p].attempt in rs
  }

  /** No reservation and no attempt number is added, and no session but for a reserved attempt. */
  ghost predicate Shrinks(s: State, t: State) {
    && SameMacs(s.reservations, t.reservations) && t.nextAttempt == s.nextAttempt
    && SessionsFrom(s.sessions, s.reservations, t.sessions)
  }

  lemma RejectedFrame(s: State, b: int)
    requires b in s.calls
    ensures Shrinks(s, Rejected(s, b)) && Shrinks(s, Finish(s, b))
  {
    var cleared := ClearLocalSession(s, s.calls[b].profile);
    CleanupFrame(cleared, b);
    FinishMacs(s, b);
    FinishMacs(Emit(BeginRemoteCleanup(cleared, b), Aborted(s.calls[b].profile)), b);
  }

  lemma FinishMacs(s: State, b: int)
    requires b in s.calls
    ensures Shrinks(s, Finish(s, b))
  {
  }

  lemma ShrinksChain(s: State, t: State, u: State)
    requires Shrinks(s, t) && Shrinks(t, u)
    ensures Shrinks(s, u)
  {
  }

  lemma AnswerFrame(s: State, b: int, ok: bool, sid: Option<string>, socketThrows: bool)
    requires b in s.calls && s.calls[b].pc.Posting?
    ensures Shrinks(s, AfterAnswer(s, b, ok, sid, socketThrows))
  {
    hide Rejected, Finish, BeginRemoteCleanup;
    var cleaned := BeginRemoteCleanup(s, b);
    var told := Emit(cleaned, Aborted(s.calls[b].profile));
    CleanupFrame(s, b);
    CleanupCalls(s, b);
    FinishMacs(cleaned, b);
    ShrinksChain(s, cleaned, Finish(cleaned, b));
    FinishMacs(told, b);
    ShrinksChain(s, told, Finish(told, b));
    RejectedFrame(s, b);
  }

  lemma PostFrame(s: State, b: int, outcome: PostOutcome)
    requires b in s.calls && s.calls[b].pc.Posting?
    ensures Shrinks(s, AfterPost(s, b, outcome))
  {
    if outcome.PostThrew? {
      RejectedFrame(s, b);
    } else {
      var named := WithSid(s, b, outcome.sid);
      AnswerFrame(named, b, outcome.ok, outcome.sid, outcome.socketThrows);
      ShrinksChain(s, named, AfterPost(s, b, outcome));
    }
  }

  lemma PortFrame(s: State, b: int)
    requires b in s.calls && s.calls[b].pc.PortReady?
    ensures Shrinks(s, AfterPort(s, b))
  {
    RejectedFrame(s, b);
  }

  lemma ReadyFrame(s: State, b: int)
    requires b in s.calls && b in s.sockets
    ensures Shrinks(s, AfterReady(s, b))
  {
    RejectedFrame(s, b);
    FinishMacs(Emit(s, Connected(s.calls[b].profile)), b);
  }

  lemma ReplyFrame(s: State, c: int, outcome: DeleteOutcome, gone: bool)
    requires c in s.cleanups
    ensures Shrinks(s, AfterDelete(s, c, outcome))
    ensures Shrinks(s, AfterProbe(s, c, gone))
  {
  }

  /** Only `connect` adds a reservation, and only for a new attempt. */
  lemma NoReturn(normalize: string -> string, s: State, e: Event)
    requires Enabled(s, e)
    ensures s.nextAttempt <= Step(normalize, s, e).nextAttempt
    ensures e.ConnectCall? || Shrinks(s, Step(normalize, s, e))
    ensures SessionsFrom(s.sessions, s.reservations, Step(normalize, s, e).sessions)
  {
    hide AssertCanConnect, AllLinks, Disconnect;
    if Quiet(e) {
      QuietStep(normalize, s, e);
    } else if e.ConnectCall? {
      DisconnectFrame(s, e.profile);
    } else if OfCall(e) {
      CallFrame(normalize, s, e);
    } else {
      TeardownFrame(normalize, s, e);
    }
  }

  lemma CallFrame(normalize: string -> string, s: State, e: Event)
    requires Enabled(s, e) && OfCall(e) && !e.ConnectCall? && !Quiet(e)
    ensures Shrinks(s, Step(normalize, s, e))
  {
    hide AfterPort, AfterPost, AfterReady, SocketGone;
    match e
    case ResumeWithPort(b) => PortFrame(s, b);
    case PostSettled(b, outcome) => PostFrame(s, b, outcome);
    case ReadySettled(b) => ReadyFrame(s, b);
    case SocketBroken(b) => GoneFrame(SettleSocket(s, b, Failed), b);
    case SocketSaysGone(b) => GoneFrame(s, b);
  }

  lemma TeardownFrame(normalize: string -> string, s: State, e: Event)
    requires Enabled(s, e) && !OfCall(e) && !Quiet(e)
    ensures Shrinks(s, Step(normalize, s, e))
  {
    hide Disconnect, DisconnectAll, AfterDelete, AfterProbe, AfterTimer;
    match e
    case DisconnectCall(p) => DisconnectFrame(s, p);
    case DisconnectAllCall => AllFrame(s);
    case ReleaseCentral => AllFrame(SetHold(s, true));
    case DeleteSettled(c, outcome) => ReplyFrame(s, c, outcome, true);
    case ProbeSettled(c, gone) => ReplyFrame(s, c, Refused, gone);
    case CleanupTimerFired(b) => TimerFrame(s, b);
    case SidecarExited =>
  }

  lemma TimerFrame(s: State, b: int)
    requires b in s.reservations
    ensures Shrinks(s, AfterTimer(s, b))
  {
  }

  lemma GoneFrame(s: State, b: int)
    requires b in s.sockets
    ensures Shrinks(s, SocketGone(s, b))
  {
    hide BeginRound;
    CleanupFrame(ClearLocalSession(s, s.sockets[b].profile), b);
  }

  lemma AllFrame(s: State)
    ensures Shrinks(s, DisconnectAll(s))
  {
    DisconnectFrame(s, Meshtastic);
    DisconnectFrame(Disconnect(s, Meshtastic), Meshcore);
  }

  /** A released attempt number never comes back. */
  lemma NeverAgain(normalize: string -> string, s: State, e: Event, a: int)
    requires Enabled(s, e) && a !in s.reservations && a < s.nextAttempt
    ensures a !in Step(normalize, s, e).reservations && a < Step(normalize, s, e).nextAttempt
  {
    NoReturn(normalize, s, e);
    if e.ConnectCall? { DisconnectFrame(s, e.profile); }
  }

  lemma {:induction false} CleanupSpendsRank(normalize: string -> string, s: State, run: seq<Event>, a: int)
    requires Inv(normalize, s) && ValidRun(normalize, s, run) && a in s.reservations
    requires InCleanup(s.reservations[a], a, s.sessions, s.cleanups)
    ensures CleanupEvents(normalize, s, run, a) <= Rank(s, a)
    ensures a in Run(normalize, s, run).reservations ==> CleanupEvents(normalize, s, run, a) < Rank(s, a)
    decreases |run|
  {
    if run != [] {
      var t := Step(normalize, s, run[0]);
      StepKeeps(normalize, s, run[0]);
      StepRank(normalize, s, run[0], a);
      NoReturn(normalize, s, run[0]);
      if a in t.reservations {
        CleanupSpendsRank(normalize, t, run[1..], a);
      } else {
        ReleasedStays(normalize, t, run[1..], a);
      }
    }
  }

  /** Whatever the sidecar answers in whatever order, 23 replies and timers of its teardown free a MAC for good. */
  lemma CleanupIsBounded(normalize: string -> string, s: State, run: seq<Event>, a: int)
    requires Reachable(normalize, s) && ValidRun(normalize, s, run)
    requires a in s.reservations && InCleanup(s.reservations[a], a, s.sessions, s.cleanups)
    ensures CleanupEvents(normalize, s, run, a) <= 3 * CLEANUP_MAX_ATTEMPTS - 1
    ensures CleanupEvents(normalize, s, run, a) == 3 * CLEANUP_MAX_ATTEMPTS - 1 ==> a !in Run(normalize, s, run).reservations
  {
    ReachableHolds(normalize, s);
    CleanupSpendsRank(normalize, s, run, a);
  }

  /** A teardown is never stuck: its one reply or its timer is always due. */
  lemma CleanupNeverStuck(normalize: string -> string, s: State, a: int) returns (e: Event)
    requires Reachable(normalize, s)
    requires a in s.reservations && InCleanup(s.reservations[a], a, s.sessions, s.cleanups)
    ensures Enabled(s, e) && CleanupEvent(s, e, a)
  {
    if s.reservations[a].timer {
      e := CleanupTimerFired(a);
    } else {
      assert Tearing(s.cleanups, a);
      var c :| c in s.cleanups && s.cleanups[c].attempt == a;
      e := if s.cleanups[c].pc == Deleting then DeleteSettled(c, Refused) else ProbeSettled(c, false);
    }
  }

  // Sidecar generations

  /** Every DELETE, probe, write and socket goes to the process that made the session it names. */
  lemma RequestsReachTheirMaker(normalize: string -> string, s: State)
    requires Reachable(normalize, s)
    ensures forall i | 0 <= i < |s.log| && s.log[i].Request? :: s.log[i].madeIn == s.log[i].sentIn
    ensures forall a | a in s.reservations && s.reservations[a].HasSid() :: s.reservations[a].madeIn == s.generation
    ensures forall p | p in s.sessions :: s.sessions[p].madeIn == s.generation
  {
    ReachableHolds(normalize, s);
  }

  lemma {:induction false} StaysGone(normalize: string -> string, s: State, run: seq<Event>, a: int)
    requires ValidRun(normalize, s, run) && a < s.nextAttempt
    requires a !in s.reservations && NotLive(s.sessions, a)
    ensures a !in Run(normalize, s, run).reservations && NotLive(Run(normalize, s, run).sessions, a)
    decreases |run|
  {
    if run != [] {
      NeverAgain(normalize, s, run[0], a);
      NoReturn(normalize, s, run[0]);
      StaysGone(normalize, Step(normalize, s, run[0]), run[1..], a);
    }
  }

  /** After the process dies no run brings back a reservation or a session that an attempt of its time made, even
      through calls that were awaiting. */
  lemma DeadSessionsStayDead(normalize: string -> string, s: State, run: seq<Event>, a: int)
    requires a < s.nextAttempt && ValidRun(normalize, AfterExit(s), run)
    ensures a !in Run(normalize, AfterExit(s), run).reservations
    ensures forall p | p in Run(normalize, AfterExit(s), run).sessions :: Run(normalize, AfterExit(s), run).sessions[p].attempt != a
  {
    StaysGone(normalize, AfterExit(s), run, a);
  }

  // Attempts and events of one profile

  /** A live session belongs to the newest attempt of its profile. */
  lemma LiveIsLatest(normalize: string -> string, s: State, p: Profile)
    requires Reachable(normalize, s) && p in s.sessions
    ensures p in s.latest && s.sessions[p].attempt == s.latest[p]
    ensures forall a | a in s.calls && s.calls[a].profile == p :: a <= s.sessions[p].attempt
  {
    ReachableHolds(normalize, s);
  }

  /** A step of the `connect` call of attempt `a`. */
  predicate StepOf(e: Event, a: int) {
    match e
    case EnsureSettled(b, _) => b == a
    case ResumeWithPort(b) => b == a
    case PostSettled(b, _) => b == a
    case ReadySettled(b) => b == a
    case _ => false
  }

  predicate Signal(o: Output) { o.Connected? || o.Disconnected? || o.Aborted? }

  /** No session installed or cleared, no attempt touched, nothing signalled. */
  ghost predicate Inert(s: State, t: State) {
    && t.sessions == s.sessions && t.connectAttempts == s.connectAttempts
    && s.log <= t.log && forall i | |s.log| <= i < |t.log| :: !Signal(t.log[i])
  }

  lemma FinishInert(s: State, a: int)
    requires a in s.calls && !IsCurrent(s, s.calls[a].profile, a)
    ensures Inert(s, Finish(s, a)) && Rejected(s, a) == Finish(s, a)
  {
  }

  lemma CleanupInert(s: State, a: int)
    ensures Inert(s, BeginRemoteCleanup(s, a))
  {
  }

  lemma InertChain(s: State, t: State, u: State)
    requires Inert(s, t) && Inert(t, u)
    ensures Inert(s, u)
  {
  }

  lemma PostInert(s: State, a: int, outcome: PostOutcome)
    requires a in s.calls && s.calls[a].pc.Posting? && !IsCurrent(s, s.calls[a].profile, a) && outcome.PostReply?
    ensures Inert(s, AfterPost(s, a, outcome))
  {
    hide Finish, BeginRound;
    var named := WithSid(s, a, outcome.sid);
    var cleaned := BeginRemoteCleanup(named, a);
    CleanupInert(named, a);
    InertChain(s, named, cleaned);
    FinishInert(cleaned, a);
    InertChain(s, cleaned, Finish(cleaned, a));
  }

  lemma EnsureInert(s: State, a: int, result: Option<int>)
    requires a in s.calls && s.calls[a].pc.Ensuring?
    ensures Inert(s, AfterEnsure(s, a, result))
  {
  }

  /** A cancelled call installs nothing, clears nothing and signals nothing. */
  lemma CancelledIsInert(normalize: string -> string, s: State, e: Event, a: int)
    requires Enabled(s, e) && StepOf(e, a) && !IsCurrent(s, s.calls[a].profile, a)
    ensures Inert(s, Step(normalize, s, e))
  {
    match e
    case EnsureSettled(_, result) => EnsureInert(s, a, result);
    case ResumeWithPort(_) => FinishInert(s, a);
    case PostSettled(_, outcome) => FinishInert(s, a); if outcome.PostReply? { PostInert(s, a, outcome); }
    case ReadySettled(_) => FinishInert(s, a);
  }

  /** Events of a socket that is not its profile's current one change no session and signal nothing. */
  lemma StaleSocketIsInert(normalize: string -> string, s: State, e: Event, a: int)
    requires Enabled(s, e) && (e == SocketBroken(a) || e == SocketSaysGone(a) || e == SocketOpened(a))
    requires s.sockets[a].profile !in s.sessions || s.sessions[s.sockets[a].profile].attempt != a
    ensures var t := Step(normalize, s, e);
            t.sessions == s.sessions && t.log == s.log && t.reservations == s.reservations && t.cleanups == s.cleanups
  {
  }

  lemma {:induction false} UpMeans(log: seq<Output>, p: Profile, i: int)
    requires 0 <= i < |log| && log[i] == Connected(p) && !Up(log, p)
    ensures exists k :: i < k < |log| && log[k] == Disconnected(p)
    decreases |log|
  {
    var n := |log| - 1;
    if log[n] != Disconnected(p) {
      assert log[..n][i] == log[i];
      UpMeans(log[..n], p, i);
      var k :| i < k < n && log[..n][k] == Disconnected(p);
      assert log[k] == Disconnected(p);
    }
  }

  lemma {:induction false} AlternatesMeans(log: seq<Output>, p: Profile, i: int, j: int)
    requires Alternates(log, p) && 0 <= i < j < |log| && log[i] == log[j] == Connected(p)
    ensures exists k :: i < k < j && log[k] == Disconnected(p)
    decreases |log|
  {
    var n := |log| - 1;
    if j == n {
      assert log[..n][i] == log[i];
      UpMeans(log[..n], p, i);
      var k :| i < k < n && log[..n][k] == Disconnected(p);
      assert log[k] == Disconnected(p);
    } else {
      assert log[..n][i] == log[i] && log[..n][j] == log[j];
      AlternatesMeans(log[..n], p, i, j);
      var k :| i < k < j && log[..n][k] == Disconnected(p);
      assert log[k] == Disconnected(p);
    }
  }

  /** Between two `connected` events of a profile there is a `disconnected`. */
  lemma ConnectedAlternates(normalize: string -> string, s: State, p: Profile, i: int, j: int)
    requires Reachable(normalize, s) && 0 <= i < j < |s.log| && s.log[i] == s.log[j] == Connected(p)
    ensures exists k :: i < k < j && s.log[k] == Disconnected(p)
  {
    ReachableHolds(normalize, s);
    AlternatesMeans(s.log, p, i, j);
  }

  // Bond-recovery hold and scan lock

  /** Under a hold entered by releaseBleCentral there is no session and no attempt that can install one. */
  lemma HoldExcludesLoRa(normalize: string -> string, s: State)
    requires Reachable(normalize, s) && s.heldByRelease
    ensures s.exclusive && s.sessions == map[] && forall a | a in s.calls :: !IsCurrent(s, s.calls[a].profile, a)
  {
    ReachableHolds(normalize, s);
  }

  /** releaseBleCentral clears LoRa exactly when the latch was not already set (or nothing was there). */
  lemma ReleaseClearsExactly(normalize: string -> string, s: State)
    requires Reachable(normalize, s)
    ensures (Release(s).sessions == map[] && Release(s).connectAttempts == map[]) <==>
            (!s.exclusive || (s.sessions == map[] && s.connectAttempts == map[]))
  {
    ReachableHolds(normalize, s);
    if !s.exclusive {
      assert !s.heldByRelease;
      HoldKeeps(normalize, s, true, false);
      DisconnectAllKeeps(normalize, SetHold(s, true));
    }
  }

  lemma CallHoldsLock(scan: ScanLock, leases: map<int, ScanOwner>, nextLease: int, calls: Calls, a: int)
    requires Leased(scan, leases, nextLease, calls) && a in calls
    ensures scan.owner == Some(GattScan)
  {
  }

  /** A `connect` in flight keeps the scan lock on the GATT side: Reticulum neither holds nor gets it. */
  lemma ConnectExcludesReticulumScan(normalize: string -> string, s: State, a: int)
    requires Reachable(normalize, s) && a in s.calls
    ensures s.scan.owner == Some(GattScan)
    ensures AfterAcquire(s.scan, ReticulumScan) == (s.scan, Busy(GattScan))
  {
    ReachableHolds(normalize, s);
    CallHoldsLock(s.scan, s.leases, s.nextLease, s.calls, a);
  }

  /** Depth counts the outstanding leases, which all have the lock's owner. */
  lemma ScanDepthCountsLeases(normalize: string -> string, s: State)
    requires Reachable(normalize, s)
    ensures s.scan.depth == |s.leases| && (s.scan.owner == None <==> s.leases == map[])
    ensures forall l | l in s.leases :: s.scan.owner == Some(s.leases[l])
  {
    ReachableHolds(normalize, s);
  }

  /** Without balance it fails: with a connect in flight, one release that no lease stands behind lets Reticulum in
      exactly when one lease was out. */
  lemma StrayReleaseLetsReticulumIn(normalize: string -> string, s: State, a: int)
    requires Reachable(normalize, s) && a in s.calls
    ensures AfterAcquire(AfterRelease(s.scan, GattScan), ReticulumScan).1.Granted? <==> |s.leases| == 1
  {
    ReachableHolds(normalize, s);
    CallHoldsLock(s.scan, s.leases, s.nextLease, s.calls, a);
  }

  // Runs that show where promises stop

  lemma ReadyToConnect(normalize: string -> string) returns (s: State)
    ensures Reachable(normalize, s)
    ensures s == Initial.(scan := ScanLock(Some(GattScan), 1), leases := map[0 := GattScan], nextLease := 1, port := 1, token := Some(7))
  {
    InitiallyReachable(normalize);
    Extend(normalize, Initial, ScanAcquire(GattScan));
    var leased := Step(normalize, Initial, ScanAcquire(GattScan));
    Extend(normalize, leased, SetPort(1, 7));
    s := Step(normalize, leased, SetPort(1, 7));
  }

  /** An admitted `connect` of an idle profile, up to its request. */
  function Dialled(s: State, lease: int, p: Profile, address: string): State {
    var a := s.nextAttempt;
    s.(nextAttempt := a + 1, connectAttempts := s.connectAttempts[p := a], latest := s.latest[p := a],
       reservations := s.reservations[a := Reservation(p, address, s.port, s.token, None, 0, false, 0, false)],
       calls := s.calls[a := Call(p, lease, Posting(s.token.Some?, s.generation))])
  }

  lemma ConnectAdmitted(normalize: string -> string, s: State, lease: int, p: Profile, address: string)
    requires !s.exclusive && p !in s.sessions && p !in s.connectAttempts
    requires AssertCanConnect(normalize, s.registry, AllLinks(s), s.scan, Gatt(p), address)
    ensures Connect(normalize, s, lease, p, address) == AddAttempt(s, lease, p, address)
  {
    assert s.connectAttempts - {p} == s.connectAttempts;
  }

  lemma PortAtHand(s: State, lease: int, p: Profile, address: string)
    requires s.port > 0
    ensures var asked := AddAttempt(s, lease, p, address);
            asked.calls[s.nextAttempt].pc.PortReady? && AfterPort(asked, s.nextAttempt) == Dialled(s, lease, p, address)
  {
    var a := s.nextAttempt;
    var asked := AddAttempt(s, lease, p, address);
    var r := Reservation(p, address, s.port, s.token, None, 0, false, 0, false);
    assert asked.reservations[a := r] == s.reservations[a := r];
    var posted := Call(p, lease, Posting(s.token.Some?, s.generation));
    assert asked.calls[a := posted] == s.calls[a := posted];
  }

  lemma Dial(normalize: string -> string, s: State, lease: int, p: Profile, address: string)
    requires Reachable(normalize, s) && !s.exclusive && s.port > 0 && lease in s.leases && s.leases[lease] == GattScan
    requires p !in s.sessions && p !in s.connectAttempts
    requires AssertCanConnect(normalize, s.registry, AllLinks(s), s.scan, Gatt(p), address)
    ensures Reachable(normalize, Dialled(s, lease, p, address))
  {
    hide AfterPort, Dialled, AllLinks, AssertCanConnect, Connect;
    Extend(normalize, s, ConnectCall(lease, p, address));
    ConnectAdmitted(normalize, s, lease, p, address);
    PortAtHand(s, lease, p, address);
    Extend(normalize, AddAttempt(s, lease, p, address), ResumeWithPort(s.nextAttempt));
  }

  /** The sidecar answers an id. */
  lemma Answer(normalize: string -> string, s: State, a: int, sid: string)
    requires Reachable(normalize, s) && a in s.calls && s.calls[a].pc.Posting? && s.calls[a].pc.issued
    requires IsCurrent(s, s.calls[a].profile, a) && a in s.reservations && s.reservations[a].token.Some?
    ensures Reachable(normalize, Installed(WithSid(s, a, Some(sid)), a, sid))
  {
    Extend(normalize, s, PostSettled(a, PostReply(true, Some(sid), false)));
  }

  /** The event socket opens, and the call announces the session and ends. */
  lemma ComeUp(normalize: string -> string, s: State, a: int)
    requires Reachable(normalize, s) && a in s.calls && s.calls[a].pc.Opening? && a in s.sockets && s.sockets[a].ready == Pending
    requires var p := s.calls[a].profile; IsCurrent(s, p, a) && p in s.sessions && s.sessions[p].attempt == a
    ensures var up := SettleSocket(s, a, Opened);
            Reachable(normalize, Finish(Emit(up, Connected(s.calls[a].profile)), a))
  {
    Extend(normalize, s, SocketOpened(a));
    Extend(normalize, SettleSocket(s, a, Opened), ReadySettled(a));
  }

  /** A `connect` waiting for the answer of the sidecar. */
  lemma WaitingForSidecar(normalize: string -> string) returns (s: State)
    ensures Reachable(normalize, s) && s.calls == map[0 := Call(Meshtastic, 0, Posting(true, 0))] && s.nextAttempt == 1
    ensures s.connectAttempts == map[Meshtastic := 0] && s.sessions == map[] && s.sockets == map[] && !s.exclusive
    ensures s.reservations == map[0 := Reservation(Meshtastic, "aa", 1, Some(7), None, 0, false, 0, false)]
    ensures s.port == 1 && s.token == Some(7) && s.generation == 0 && s.registry == map[]
    ensures s.leases == map[0 := GattScan] && s.scan == ScanLock(Some(GattScan), 1)
  {
    var idle := ReadyToConnect(normalize);
    assert AllLinks(idle) == [];
    Dial(normalize, idle, 0, Meshtastic, "aa");
    s := Dialled(idle, 0, Meshtastic, "aa");
  }

  /** The usual case: one lease is out while a connect runs, and one stray release admits Reticulum. */
  lemma StrayReleaseHappens(normalize: string -> string) returns (s: State, a: int)
    ensures Reachable(normalize, s) && a in s.calls
    ensures AfterAcquire(AfterRelease(s.scan, GattScan), ReticulumScan).1.Granted?
  {
    s := WaitingForSidecar(normalize);
    a := 0;
    assert |s.leases| == 1;
    StrayReleaseLetsReticulumIn(normalize, s, a);
  }

  /** An empty session id: the session goes live and its MAC is free again. */
  lemma EmptyIdFreesTheMac(normalize: string -> string) returns (s: State)
    ensures Reachable(normalize, s) && s.sessions == map[Meshtastic := Live(0, "", 0, "aa")]
    ensures s.reservations == map[] && s.calls == map[] && s.connectAttempts == map[] && s.nextAttempt == 1
    ensures !s.exclusive && s.port == 1 && s.token == Some(7) && s.generation == 0 && s.registry == map[]
    ensures s.leases == map[0 := GattScan] && s.scan == ScanLock(Some(GattScan), 1)
  {
    var waiting := WaitingForSidecar(normalize);
    Answer(normalize, waiting, 0, "");
    var live := Installed(WithSid(waiting, 0, Some("")), 0, "");
    assert live.calls == map[0 := Call(Meshtastic, 0, Opening)] && live.sockets == map[0 := Socket(Meshtastic, Pending)];
    assert live.sessions == map[Meshtastic := Live(0, "", 0, "aa")];
    ComeUp(normalize, live, 0);
    s := Finish(Emit(SettleSocket(live, 0, Opened), Connected(Meshtastic)), 0);
  }

  /** From there the other profile connects to the same peripheral, and both sessions are live on it. */
  lemma TwoProfilesOnOneMac(normalize: string -> string) returns (s: State)
    ensures Reachable(normalize, s) && Meshtastic in s.sessions && Meshcore in s.sessions
    ensures s.sessions[Meshtastic].address == s.sessions[Meshcore].address == "aa"
    ensures normalize("aa") != "" ==> !OneOwner(normalize, s.registry, AllLinks(s) + LiveLinks(s.sessions))
  {
    var freed := EmptyIdFreesTheMac(normalize);
    assert AllLinks(freed) == [];
    Dial(normalize, freed, 0, Meshcore, "aa");
    var dialled := Dialled(freed, 0, Meshcore, "aa");
    Answer(normalize, dialled, 1, "id");
    s := Installed(WithSid(dialled, 1, Some("id")), 1, "id");
    if normalize("aa") != "" { SharedMac(normalize, s); }
  }

  lemma SharedMac(normalize: string -> string, s: State)
    requires Meshtastic in s.sessions && Meshcore in s.sessions
    requires s.sessions[Meshtastic].address == s.sessions[Meshcore].address == "aa" && normalize("aa") != ""
    ensures !OneOwner(normalize, s.registry, AllLinks(s) + LiveLinks(s.sessions))
  {
    var all, n := AllLinks(s) + LiveLinks(s.sessions), |AllLinks(s)|;
    assert all[n] == LinkEntry("aa", Gatt(Meshtastic)) && all[n + 1] == LinkEntry("aa", Gatt(Meshcore));
    assert Holds(normalize, s.registry, all, normalize("aa"), Gatt(Meshtastic));
    assert Holds(normalize, s.registry, all, normalize("aa"), Gatt(Meshcore));
  }

  /** A hold set directly lets a waiting attempt go live, and a later releaseBleCentral keeps it. */
  lemma DirectHoldLetsSessionsLive(normalize: string -> string) returns (s: State)
    ensures Reachable(normalize, s) && s.exclusive && Meshtastic in s.sessions
    ensures Meshtastic in Step(normalize, s, ReleaseCentral).sessions
  {
    var waiting := WaitingForSidecar(normalize);
    Extend(normalize, waiting, SetExclusive(true));
    var held := Step(normalize, waiting, SetExclusive(true));
    assert held == waiting.(exclusive := true, heldByRelease := waiting.heldByRelease);
    Answer(normalize, held, 0, "id");
    s := Installed(WithSid(held, 0, Some("id")), 0, "id");
    assert Step(normalize, s, ReleaseCentral) == Release(s);
  }
}
