/**
 Reconnect machine of the MeshCore MQTT adapter (`meshcore-mqtt-adapter.ts`). A client closes at
 most once and sends no CONNACK after its close; a forced end closes it in a later event.
 */
module MqttReconnect {
  import opened Wrappers

  const DEFAULT_RECONNECT_ATTEMPTS := 5
  const MAX_RECONNECT_ATTEMPTS := 12
  const STABLE_THRESHOLD_MS := 30_000

  datatype Status = Idle | Connecting | Online | Faulted

  datatype Settings = Settings(maxRetries: Option<int>, tokenExpires: bool)

  datatype Timer = NoTimer | PlainReconnect | JwtReconnect

  datatype State = State(
    client: Option<int>,          // the adapter's current client
    unclosed: set<int>,           // clients whose close event has not come yet
    nextClient: int,
    status: Status,
    settings: Option<Settings>,
    ackTimer: Option<int>,        // CONNACK watchdog, with the client it captured
    reconnectTimer: Timer,
    pendingReconnect: bool,
    pendingTimer: bool,
    retryCount: int,
    lastConnected: Option<int>,
    powerWake: bool,
    abortedByWatchdog: bool,
    disconnects: int,
    ackedBy: Option<int>,         // whose CONNACK set lastConnected
    opens: int)                   // clients opened since the retry budget was last reset

  const Initial := State(None, {}, 0, Idle, None, None, NoTimer, false, false, 0, None, false, false, 0, None, 0)

  datatype Event =
    | Connect(settings: Settings, wildcardTopic: bool)
    | Disconnect
    | UpdateToken(expires: bool)
    | ClientError(client: int, tooLarge: bool)
    | OversizedMessage(client: int)
    | Connack(client: int, now: int)
    | Closed(client: int, now: int)
    | Offline(client: int)
    | AckTimeout
    | ReconnectDue
    | PendingDue
    | PowerSuspend
    | PowerResume

  function MaxRetries(settings: Settings): int {
    var wanted := if settings.maxRetries.Some? then settings.maxRetries.value else DEFAULT_RECONNECT_ATTEMPTS;
    var capped := if wanted < MAX_RECONNECT_ATTEMPTS then wanted else MAX_RECONNECT_ATTEMPTS;
    if capped < 1 then 1 else capped
  }

  /** `disconnect`: note that `lastConnected` survives. */
  function Dropped(s: State): State {
    s.(ackTimer := None, reconnectTimer := NoTimer, pendingReconnect := false, pendingTimer := false,
       abortedByWatchdog := false, retryCount := 0, client := None, settings := None, status := Idle, opens := 0)
  }

  /** `_doConnect`: replaces the client and arms the CONNACK watchdog. */
  function Opened(s: State): State {
    s.(client := Some(s.nextClient), unclosed := s.unclosed + {s.nextClient}, nextClient := s.nextClient + 1,
       status := Connecting, ackTimer := Some(s.nextClient), abortedByWatchdog := false, opens := s.opens + 1)
  }

  function Reconfigured(s: State, settings: Settings, wildcardTopic: bool): State {
    if wildcardTopic then Dropped(s).(status := Faulted)
    else Opened(Dropped(s).(settings := Some(settings)))
  }

  function TokenUpdated(s: State, expires: bool): State {
    var renewed := if s.settings.Some? then s.(settings := Some(s.settings.value.(tokenExpires := expires))) else s;
    if s.pendingReconnect && s.settings.Some? then Opened(renewed.(pendingReconnect := false, pendingTimer := false))
    else renewed
  }

  function Errored(s: State, c: int, tooLarge: bool): State {
    if s.client != Some(c) then s
    else if tooLarge then Dropped(s).(status := Faulted)
    else s.(ackTimer := None, status := if s.status == Connecting then Idle else s.status)
  }

  function Oversized(s: State, c: int): State {
    if s.client != Some(c) then s else Dropped(s).(status := Faulted)
  }

  function Acked(s: State, c: int, now: int): State {
    if s.client != Some(c) then s
    else s.(ackTimer := None, lastConnected := Some(now), ackedBy := Some(c), status := Online)
  }

  /** JavaScript: a missing or zero timestamp measures no session. */
  function SessionDuration(lastConnected: Option<int>, now: int): int {
    if lastConnected.Some? && lastConnected.value != 0 then now - lastConnected.value else 0
  }

  predicate StableClose(s: State, now: int) {
    SessionDuration(s.lastConnected, now) >= STABLE_THRESHOLD_MS
  }

  /** The part of the close handler before its retry decision. */
  function Settled(s: State, c: int): State {
    s.(unclosed := s.unclosed - {c}, ackTimer := None, reconnectTimer := NoTimer, disconnects := s.disconnects + 1,
       lastConnected := None, ackedBy := None,
       status := if s.status == Online || s.status == Connecting then Idle else s.status)
  }

  /** The retry decision of the close handler, on a full or a given-back budget. */
  function Retried(s: State): State
    requires s.settings.Some?
  {
    var spent := s.retryCount >= MaxRetries(s.settings.value);
    var refreshes := !spent && s.settings.value.tokenExpires;
    s.(status := if spent then Faulted else s.status,
       retryCount := if spent then s.retryCount else s.retryCount + 1,
       powerWake := s.powerWake && !refreshes,
       reconnectTimer := if spent then s.reconnectTimer else if refreshes then JwtReconnect else PlainReconnect)
  }

  function AfterClose(s: State, c: int, now: int): State {
    if s.client != Some(c) then s.(unclosed := s.unclosed - {c})
    else if s.status == Faulted || s.settings.None? then Settled(s, c)
    else if StableClose(s, now) then Retried(Settled(s, c).(retryCount := 0, opens := if s.ackedBy == Some(c) then 0 else s.opens))
    else Retried(Settled(s, c))
  }

  function WentOffline(s: State, c: int): State {
    if s.client == Some(c) && (s.status == Online || s.status == Connecting) then s.(status := Idle) else s
  }

  /** The CONNACK watchdog gives up without scheduling a retry. */
  function AckTimedOut(s: State): State
    requires s.ackTimer.Some?
  {
    var fired := s.(ackTimer := None);
    if s.client != s.ackTimer || s.status != Connecting then fired
    else fired.(abortedByWatchdog := true, client := None, status := Idle)
  }

  function Reconnecting(s: State): State
    requires s.reconnectTimer != NoTimer
  {
    var fired := s.(reconnectTimer := NoTimer);
    if s.settings.None? then fired
    else if s.reconnectTimer == PlainReconnect then Opened(fired)
    else fired.(pendingReconnect := true, pendingTimer := true)
  }

  function PendingTimedOut(s: State): State {
    if s.pendingReconnect && s.settings.Some? then Opened(s.(pendingReconnect := false, pendingTimer := false)) else s
  }

  function Suspended(s: State): State { s.(reconnectTimer := NoTimer, pendingTimer := false) }

  /** `handlePowerResume` up to its reconnect: `lastConnected` survives here too. */
  function Awake(s: State): State {
    s.(retryCount := 0, opens := 0, powerWake := true, reconnectTimer := NoTimer, pendingTimer := false,
       pendingReconnect := false, client := None, status := Idle)
  }

  function Resumed(s: State): State {
    if s.settings.None? then s
    else if s.settings.value.tokenExpires then Awake(s).(pendingReconnect := true, pendingTimer := true)
    else Opened(Awake(s))
  }

  predicate Enabled(s: State, e: Event) {
    match e
    case Connack(c, _) => c in s.unclosed
    case Closed(c, _) => c in s.unclosed
    case AckTimeout => s.ackTimer.Some?
    case ReconnectDue => s.reconnectTimer != NoTimer
    case PendingDue => s.pendingTimer
    case _ => true
  }

  function Step(s: State, e: Event): State
    requires Enabled(s, e)
  {
    match e
    case Connect(settings, wildcard) => Reconfigured(s, settings, wildcard)
    case Disconnect => Dropped(s)
    case UpdateToken(expires) => TokenUpdated(s, expires)
    case ClientError(c, tooLarge) => Errored(s, c, tooLarge)
    case OversizedMessage(c) => Oversized(s, c)
    case Connack(c, now) => Acked(s, c, now)
    case Closed(c, now) => AfterClose(s, c, now)
    case Offline(c) => WentOffline(s, c)
    case AckTimeout => AckTimedOut(s)
    case ReconnectDue => Reconnecting(s)
    case PendingDue => PendingTimedOut(s)
    case PowerSuspend => Suspended(s)
    case PowerResume => Resumed(s)
  }

  ghost predicate ValidRun(s: State, run: seq<Event>)
    decreases |run|
  {
    run == [] || (Enabled(s, run[0]) && ValidRun(Step(s, run[0]), run[1..]))
  }

  function Run(s: State, run: seq<Event>): State
    requires ValidRun(s, run)
    decreases |run|
  {
    if run == [] then s else Run(Step(s, run[0]), run[1..])
  }

  // The invariant

  /** The current client has not closed yet. */
  predicate Attached(s: State) { s.client.Some? && s.client.value in s.unclosed }

  predicate Armed(s: State) { s.reconnectTimer != NoTimer }

  /** At most one of: an unclosed current client, an armed reconnect timer, a pending token refresh. */
  predicate OnePath(s: State) {
    !(Attached(s) && Armed(s)) && !(Attached(s) && s.pendingReconnect) && !(Armed(s) && s.pendingReconnect)
  }

  ghost predicate Inv(s: State) {
    && (s.client.Some? ==> s.client.value < s.nextClient)
    && (s.ackTimer.Some? ==> s.ackTimer.value < s.nextClient)
    && (s.ackedBy.Some? ==> s.ackedBy.value < s.nextClient)
    && (forall c | c in s.unclosed :: c < s.nextClient)
    && OnePath(s)
    && (s.pendingTimer ==> s.pendingReconnect)
    && (s.settings.None? ==> s.client.None? && !Armed(s) && !s.pendingReconnect)
    && (s.status == Connecting || s.status == Online ==> Attached(s) && s.settings.Some?)
    // A CONNACK time that is not the current client's own finds the budget untouched.
    && (s.lastConnected.Some? <==> s.ackedBy.Some?)
    && (s.lastConnected.Some? ==> (s.ackedBy == s.client && Attached(s)) || s.retryCount == 0)
    && (s.ackedBy.Some? ==> s.ackTimer != s.ackedBy)
    && 0 <= s.retryCount && 0 <= s.opens
    && s.opens + (if Armed(s) || s.pendingReconnect then 1 else 0) <= s.retryCount + 1
    && (s.settings.Some? ==> s.retryCount <= MaxRetries(s.settings.value))
    && (s.settings.None? ==> s.retryCount == 0)
  }

  lemma DroppedKeeps(s: State)
    requires Inv(s)
    ensures Inv(Dropped(s)) && Inv(Dropped(s).(status := Faulted))
  {
  }

  /** A client may be opened when no path is in use and the budget covers it. */
  lemma OpenedKeeps(s: State)
    requires Inv(s) && s.settings.Some? && !Attached(s) && !Armed(s) && !s.pendingReconnect && s.opens <= s.retryCount
    ensures Inv(Opened(s))
  {
  }

  lemma SettledKeeps(s: State, c: int)
    requires Inv(s) && c in s.unclosed && s.client == Some(c)
    ensures Inv(Settled(s, c)) && !Attached(Settled(s, c)) && !Settled(s, c).pendingReconnect
  {
  }

  lemma RetryKeeps(s: State)
    requires Inv(s) && !Attached(s) && !s.pendingReconnect && !Armed(s) && s.settings.Some? && s.lastConnected.None?
    ensures Inv(Retried(s)) && Inv(s.(retryCount := 0, opens := 0))
  {
  }

  lemma CloseKeeps(s: State, c: int, now: int)
    requires Inv(s) && c in s.unclosed
    ensures Inv(AfterClose(s, c, now))
  {
    if s.client == Some(c) {
      var settled := Settled(s, c);
      SettledKeeps(s, c);
      if s.status != Faulted && s.settings.Some? {
        RetryKeeps(settled);
        if StableClose(s, now) && s.ackedBy == Some(c) { RetryKeeps(settled.(retryCount := 0, opens := 0)); }
      }
    }
  }

  lemma TokenKeeps(s: State, expires: bool)
    requires Inv(s)
    ensures Inv(TokenUpdated(s, expires))
  {
  }

  lemma TimersKeep(s: State)
    requires Inv(s)
    ensures s.ackTimer.Some? ==> Inv(AckTimedOut(s))
    ensures Armed(s) ==> Inv(Reconnecting(s))
    ensures s.pendingTimer ==> Inv(PendingTimedOut(s))
  {
    if Armed(s) && s.settings.Some? && s.reconnectTimer == PlainReconnect { OpenedKeeps(s.(reconnectTimer := NoTimer)); }
    if s.pendingReconnect && s.settings.Some? { OpenedKeeps(s.(pendingReconnect := false, pendingTimer := false)); }
  }

  lemma PowerKeeps(s: State)
    requires Inv(s)
    ensures Inv(Suspended(s)) && Inv(Resumed(s))
  {
    if s.settings.Some? {
      OpenedKeeps(Awake(s));
    }
  }

  lemma ClientEventsKeep(s: State, c: int, tooLarge: bool, now: int)
    requires Inv(s)
    ensures Inv(Errored(s, c, tooLarge)) && Inv(Oversized(s, c)) && Inv(WentOffline(s, c))
    ensures c in s.unclosed ==> Inv(Acked(s, c, now))
  {
    DroppedKeeps(s);
  }

  lemma ConnectKeeps(s: State, settings: Settings, wildcard: bool)
    requires Inv(s)
    ensures Inv(Reconfigured(s, settings, wildcard))
  {
  }

  lemma StepKeeps(s: State, e: Event)
    requires Inv(s) && Enabled(s, e)
    ensures Inv(Step(s, e))
  {
    match e
    case Connect(settings, wildcard) => ConnectKeeps(s, settings, wildcard);
    case Disconnect => DroppedKeeps(s);
    case UpdateToken(expires) => TokenKeeps(s, expires);
    case ClientError(c, tooLarge) => ClientEventsKeep(s, c, tooLarge, 0);
    case OversizedMessage(c) => ClientEventsKeep(s, c, false, 0);
    case Connack(c, now) => ClientEventsKeep(s, c, false, now);
    case Closed(c, now) => CloseKeeps(s, c, now);
    case Offline(c) => ClientEventsKeep(s, c, false, 0);
    case AckTimeout => TimersKeep(s);
    case ReconnectDue => TimersKeep(s);
    case PendingDue => TimersKeep(s);
    case PowerSuspend => PowerKeeps(s);
    case PowerResume => PowerKeeps(s);
  }

  lemma {:induction false} RunKeeps(s: State, run: seq<Event>)
    requires Inv(s) && ValidRun(s, run)
    ensures Inv(Run(s, run))
    decreases |run|
  {
    if run != [] {
      StepKeeps(s, run[0]);
      RunKeeps(Step(s, run[0]), run[1..]);
    }
  }

  // What the adapter promises

  ghost predicate Reachable(s: State) {
    exists run :: ValidRun(Initial, run) && Run(Initial, run) == s
  }

  lemma ReachableHolds(s: State)
    requires Reachable(s)
    ensures Inv(s)
  {
    var run :| ValidRun(Initial, run) && Run(Initial, run) == s;
    RunKeeps(Initial, run);
  }

  lemma {:induction false} RunAppend(s: State, run: seq<Event>, e: Event)
    requires ValidRun(s, run) && Enabled(Run(s, run), e)
    ensures ValidRun(s, run + [e]) && Run(s, run + [e]) == Step(Run(s, run), e)
    decreases |run|
  {
    if run == [] {
      assert run + [e] == [e] && [e][1..] == [];
      assert ValidRun(Step(s, e), []);
    } else {
      assert (run + [e])[0] == run[0] && (run + [e])[1..] == run[1..] + [e];
      RunAppend(Step(s, run[0]), run[1..], e);
    }
  }

  lemma Extend(s: State, e: Event)
    requires Reachable(s) && Enabled(s, e)
    ensures Reachable(Step(s, e))
  {
    var run :| ValidRun(Initial, run) && Run(Initial, run) == s;
    RunAppend(Initial, run, e);
  }

  lemma InitiallyReachable()
    ensures Reachable(Initial)
  {
    assert ValidRun(Initial, []) && Run(Initial, []) == Initial;
  }

  /** The adapter is never on two reconnect paths, and is up only with a live client. */
  lemma NeverTwoPaths(s: State)
    requires Reachable(s)
    ensures OnePath(s) && (s.pendingTimer ==> s.pendingReconnect)
    ensures s.status == Connecting || s.status == Online ==> Attached(s)
  {
    ReachableHolds(s);
  }

  ghost predicate Quiet(s: State) {
    s.settings.None? && !Attached(s) && !Armed(s) && !s.pendingReconnect && s.status != Connecting && s.status != Online
  }

  /** After `disconnect` no path is left, and without `connect` no run opens a client or goes up again. */
  lemma {:induction false} DisconnectIsFinal(s: State, run: seq<Event>)
    requires Inv(s) && Quiet(s) && ValidRun(s, run)
    requires forall i | 0 <= i < |run| :: !run[i].Connect?
    ensures Quiet(Run(s, run)) && Run(s, run).nextClient == s.nextClient
    decreases |run|
  {
    if run != [] {
      StepKeeps(s, run[0]);
      DisconnectIsFinal(Step(s, run[0]), run[1..]);
    }
  }

  lemma DisconnectIsQuiet(s: State)
    requires Reachable(s)
    ensures Inv(Step(s, Disconnect)) && Quiet(Step(s, Disconnect))
  {
    ReachableHolds(s);
    StepKeeps(s, Disconnect);
  }

  /** The current client reported its own CONNACK at least 30 s before this close. */
  predicate OwnStableClose(s: State, e: Event) {
    e.Closed? && s.client == Some(e.client) && s.ackedBy == Some(e.client) && StableClose(s, e.now)
  }

  /** Steps that hand out a new retry budget. */
  predicate Resets(s: State, e: Event) {
    || e.Connect? || e.Disconnect?
    || (e.PowerResume? && s.settings.Some?)
    || (e.ClientError? && e.tooLarge && s.client == Some(e.client))
    || (e.OversizedMessage? && s.client == Some(e.client))
    || (OwnStableClose(s, e) && s.settings.Some? && s.status != Faulted)
  }

  /** Only connect, disconnect, power resume or the session's own stable close lowers the retry count. */
  lemma RetryCountFallsOnlyOnReset(s: State, e: Event)
    requires Reachable(s) && Enabled(s, e) && Step(s, e).retryCount < s.retryCount
    ensures e.Connect? || e.Disconnect? || e.PowerResume? || OwnStableClose(s, e)
            || ((e.OversizedMessage? || (e.ClientError? && e.tooLarge)) && s.client == Some(e.client))
  {
    ReachableHolds(s);
  }

  /** A stale CONNACK time may make a close look stable, but then there is no spent budget to give back. */
  lemma StaleStableCloseResetsNothing(s: State, c: int, now: int)
    requires Reachable(s) && Enabled(s, Closed(c, now)) && s.client == Some(c)
    requires StableClose(s, now) && s.ackedBy != Some(c)
    ensures s.retryCount == 0 && Step(s, Closed(c, now)).retryCount <= 1
  {
    ReachableHolds(s);
  }

  ghost predicate NoReset(s: State, run: seq<Event>)
    requires ValidRun(s, run)
    decreases |run|
  {
    run == [] || (!Resets(s, run[0]) && NoReset(Step(s, run[0]), run[1..]))
  }

  lemma StepCounts(s: State, e: Event)
    requires Enabled(s, e) && !Resets(s, e)
    ensures var t := Step(s, e);
            && t.opens - s.opens == t.nextClient - s.nextClient
            && (t.settings.Some? <==> s.settings.Some?)
            && (s.settings.Some? ==> MaxRetries(t.settings.value) == MaxRetries(s.settings.value))
  {
    hide AfterClose;
    if e.Closed? { CloseCounts(s, e.client, e.now); }
  }

  lemma CloseCounts(s: State, c: int, now: int)
    requires Enabled(s, Closed(c, now)) && !Resets(s, Closed(c, now))
    ensures var t := AfterClose(s, c, now); t.opens == s.opens && t.nextClient == s.nextClient && t.settings == s.settings
  {
    hide SessionDuration;
  }

  lemma {:induction false} OpensCounted(s: State, run: seq<Event>)
    requires ValidRun(s, run) && NoReset(s, run)
    ensures Run(s, run).opens - s.opens == Run(s, run).nextClient - s.nextClient
    ensures Run(s, run).settings.Some? <==> s.settings.Some?
    ensures s.settings.Some? ==> MaxRetries(Run(s, run).settings.value) == MaxRetries(s.settings.value)
    decreases |run|
  {
    if run != [] {
      StepCounts(s, run[0]);
      OpensCounted(Step(s, run[0]), run[1..]);
    }
  }

  /** Between two resets at most the clamped retries plus one clients are opened, over any run. */
  lemma RetryBudget(s: State, run: seq<Event>)
    requires Reachable(s) && s.settings.Some? && ValidRun(s, run) && NoReset(s, run)
    ensures Run(s, run).nextClient - s.nextClient <= MaxRetries(s.settings.value) + 1
    ensures Run(s, run).opens <= MaxRetries(s.settings.value) + 1
    ensures 1 <= MaxRetries(s.settings.value) <= MAX_RECONNECT_ATTEMPTS
  {
    ReachableHolds(s);
    RunKeeps(s, run);
    OpensCounted(s, run);
  }

  /** Something will still bring the adapter back: a client, a timer or a token refresh. */
  predicate HasPath(s: State) { Attached(s) || Armed(s) || s.pendingReconnect }

  /** No liveness: a CONNACK timeout takes the last path away exactly when it hits the connecting current client. */
  lemma AckTimeoutStrands(s: State)
    requires Reachable(s) && s.settings.Some? && HasPath(s) && s.ackTimer.Some?
    ensures !HasPath(Step(s, AckTimeout)) <==> s.client == s.ackTimer && s.status == Connecting
    ensures Step(s, AckTimeout).settings == s.settings
  {
    ReachableHolds(s);
  }

  /** It happens: the first connect is never acknowledged. */
  lemma FirstTimeoutStrands(settings: Settings) returns (s: State)
    ensures Reachable(s) && s.settings == Some(settings) && HasPath(s) && s.ackTimer.Some?
    ensures Reachable(Step(s, AckTimeout)) && !HasPath(Step(s, AckTimeout))
  {
    InitiallyReachable();
    Extend(Initial, Connect(settings, false));
    s := Step(Initial, Connect(settings, false));
    Extend(s, AckTimeout);
  }

  // The adapter as a machine over its reconnect paths

  /** What will bring the adapter up: nothing, its client, a timer or a fresh token. */
  datatype Path = Nowhere | OnClient | OnTimer(kind: Timer) | OnToken

  function PathOf(s: State): Path {
    if Attached(s) then OnClient else if Armed(s) then OnTimer(s.reconnectTimer) else if s.pendingReconnect then OnToken else Nowhere
  }

  /** The retries that the budget of a closing session has seen. */
  function Spent(s: State, now: int): int { if StableClose(s, now) then 0 else s.retryCount }

  /** Where an event leads, by what is at hand: the path, the settings, the current client and the budget. */
  function NextPath(s: State, e: Event): Path {
    match e
    case Connect(_, wildcard) => if wildcard then Nowhere else OnClient
    case Disconnect => Nowhere
    case UpdateToken(_) => if PathOf(s) == OnToken then OnClient else PathOf(s)
    case ClientError(c, tooLarge) => if tooLarge && s.client == Some(c) then Nowhere else PathOf(s)
    case OversizedMessage(c) => if s.client == Some(c) then Nowhere else PathOf(s)
    case Closed(c, now) =>
      if s.client != Some(c) then PathOf(s)
      else if s.settings.None? || s.status == Faulted || Spent(s, now) >= MaxRetries(s.settings.value) then Nowhere
      else OnTimer(if s.settings.value.tokenExpires then JwtReconnect else PlainReconnect)
    case AckTimeout => if s.client == s.ackTimer && s.status == Connecting then Nowhere else PathOf(s)
    case ReconnectDue => if s.reconnectTimer == PlainReconnect then OnClient else OnToken
    case PendingDue => OnClient
    case PowerSuspend => if PathOf(s).OnTimer? then Nowhere else PathOf(s)
    case PowerResume => if s.settings.None? then Nowhere else if s.settings.value.tokenExpires then OnToken else OnClient
    case _ => PathOf(s)
  }

  /** Every event moves the adapter along exactly one of four paths, so a reconnect is lost only where this machine says. */
  lemma FollowsPaths(s: State, e: Event)
    requires Reachable(s) && Enabled(s, e)
    ensures PathOf(Step(s, e)) == NextPath(s, e)
  {
    ReachableHolds(s);
    hide AfterClose, MaxRetries;
    if e.Closed? { ClosePath(s, e.client, e.now); }
  }

  lemma ClosePath(s: State, c: int, now: int)
    requires Inv(s) && c in s.unclosed
    ensures PathOf(AfterClose(s, c, now)) == NextPath(s, Closed(c, now))
  {
    hide SessionDuration, MaxRetries;
  }

  /** Events that open a client. */
  predicate OpensClient(s: State, e: Event) {
    match e
    case Connect(_, wildcard) => !wildcard
    case UpdateToken(_) => PathOf(s) == OnToken
    case ReconnectDue => s.reconnectTimer == PlainReconnect
    case PendingDue => true
    case PowerResume => s.settings.Some? && !s.settings.value.tokenExpires
    case _ => false
  }

  /** A client is opened exactly by these, and is then the current one, connecting under its CONNACK watchdog. */
  lemma OpensExactly(s: State, e: Event)
    requires Reachable(s) && Enabled(s, e)
    ensures var t := Step(s, e);
            && t.nextClient == (if OpensClient(s, e) then s.nextClient + 1 else s.nextClient)
            && (OpensClient(s, e) ==> t.client == t.ackTimer == Some(s.nextClient) && t.status == Connecting && t.settings.Some?)
  {
    ReachableHolds(s);
    hide SessionDuration, MaxRetries;
  }

  /** A close of the current client schedules a reconnect exactly while the budget lasts, for a token that expires by way
      of its refresh, and otherwise ends in an error. */
  lemma CloseSchedules(s: State, c: int, now: int)
    requires Reachable(s) && Enabled(s, Closed(c, now)) && s.client == Some(c) && s.settings.Some? && s.status != Faulted
    ensures var t, n := Step(s, Closed(c, now)), Spent(s, now);
            && (Armed(t) <==> n < MaxRetries(s.settings.value))
            && (Armed(t) ==> (t.reconnectTimer == JwtReconnect <==> s.settings.value.tokenExpires))
            && (Armed(t) ==> t.retryCount == n + 1 && t.status == Idle)
            && (t.status == Faulted <==> !Armed(t)) && t.settings == s.settings
  {
    ReachableHolds(s);
  }

  /** A connect, and a power resume with settings, begin with all the retries asked for, five by default and one to twelve. */
  lemma NewBudget(s: State, e: Event)
    requires Reachable(s) && Enabled(s, e)
    requires (e.Connect? && !e.wildcardTopic) || (e.PowerResume? && s.settings.Some?)
    ensures var t := Step(s, e);
            && t.retryCount == 0 && t.settings == (if e.Connect? then Some(e.settings) else s.settings)
            && var asked, n := t.settings.value.maxRetries, MaxRetries(t.settings.value);
               && (asked == None ==> n == 5)
               && (asked.Some? ==> if asked.value < 1 then n == 1 else if asked.value > 12 then n == 12 else n == asked.value)
  {
    ReachableHolds(s);
  }

  /** The settings of the last connect stay, with the newest token, until a disconnect or a packet too large. */
  lemma SettingsStay(s: State, e: Event)
    requires Enabled(s, e)
    ensures Step(s, e).settings ==
            match e
            case Connect(settings, wildcard) => if wildcard then None else Some(settings)
            case Disconnect => None
            case ClientError(c, tooLarge) => if tooLarge && s.client == Some(c) then None else s.settings
            case OversizedMessage(c) => if s.client == Some(c) then None else s.settings
            case UpdateToken(expires) => if s.settings.None? then None else Some(Settings(s.settings.value.maxRetries, expires))
            case _ => s.settings
  {
    hide SessionDuration, MaxRetries;
  }

  /** The close of a session that was acknowledged 30 s before, at a time other than zero, has its budget back. */
  lemma LongSessionRestores(s: State, c: int, at: int, now: int)
    requires Reachable(s) && Enabled(s, Connack(c, at)) && s.client == Some(c)
    ensures var t := Step(s, Connack(c, at));
            Spent(t, now) == if at != 0 && now - at >= 30_000 then 0 else s.retryCount
  {
  }

  /** The adapter is online exactly from a CONNACK of its current client to that client's end or a restart. */
  lemma OnlineExactly(s: State, e: Event)
    requires Reachable(s) && Enabled(s, e)
    ensures Step(s, e).status == Online <==>
            || (e.Connack? && s.client == Some(e.client))
            || (s.status == Online
                && match e
                   case Connect(_, _) => false
                   case Disconnect => false
                   case ClientError(c, tooLarge) => !(tooLarge && s.client == Some(c))
                   case OversizedMessage(c) => s.client != Some(c)
                   case Closed(c, _) => s.client != Some(c)
                   case Offline(c) => s.client != Some(c)
                   case PowerResume => false
                   case _ => true)
  {
    ReachableHolds(s);
    hide SessionDuration, MaxRetries;
  }

  /** The current client is over for the adapter: replaced, dropped or ended. */
  predicate EndsClient(s: State, e: Event) {
    match e
    case Connect(_, _) => true
    case Disconnect => true
    case ClientError(c, tooLarge) => tooLarge && s.client == Some(c)
    case OversizedMessage(c) => s.client == Some(c)
    case Closed(c, _) => s.client == Some(c)
    case _ => false
  }

  /** The adapter is connecting exactly from the opening of a client to its CONNACK, its first trouble or its end. */
  lemma ConnectingExactly(s: State, e: Event)
    requires Reachable(s) && Enabled(s, e)
    ensures Step(s, e).status == Connecting <==>
            || OpensClient(s, e)
            || (s.status == Connecting && !EndsClient(s, e) && !e.AckTimeout? && !e.PowerResume?
                && !((e.Connack? || e.ClientError? || e.Offline?) && s.client == Some(e.client)))
  {
    ReachableHolds(s);
    if s.status == Connecting { ConnectingIsWatched(s); }
    hide SessionDuration, MaxRetries, Reachable;
  }

  /** The watchdog is armed with the opened client and stopped by its CONNACK, an error or its end. */
  lemma WatchdogExactly(s: State, e: Event)
    requires Reachable(s) && Enabled(s, e)
    ensures Step(s, e).ackTimer ==
            if OpensClient(s, e) then Some(s.nextClient)
            else if EndsClient(s, e) || e.AckTimeout? || ((e.Connack? || e.ClientError?) && s.client == Some(e.client)) then None
            else s.ackTimer
  {
    ReachableHolds(s);
    hide SessionDuration, MaxRetries, Reachable;
  }

  /** A token refresh has its timeout running from its beginning, until it is over or the power is suspended. */
  lemma RefreshIsTimed(s: State, e: Event)
    requires Reachable(s) && Enabled(s, e)
    ensures Step(s, e).pendingTimer <==>
            NextPath(s, e) == OnToken && (e.ReconnectDue? || e.PowerResume? || (s.pendingTimer && !e.PowerSuspend?))
  {
    ReachableHolds(s);
    hide SessionDuration, MaxRetries, Reachable;
  }

  /** The shorter delay after a power resume serves the first scheduled token refresh; closes of current clients are counted. */
  lemma WakeServesOnce(s: State, e: Event)
    requires Reachable(s) && Enabled(s, e)
    ensures var t, own := Step(s, e), e.Closed? && s.client == Some(e.client);
            && t.disconnects == s.disconnects + (if own then 1 else 0)
            && (t.powerWake <==> (e.PowerResume? && s.settings.Some?) || (s.powerWake && !(own && NextPath(s, e) == OnTimer(JwtReconnect))))
  {
    ReachableHolds(s);
    hide SessionDuration, MaxRetries, Reachable;
  }

  ghost predicate Watched(s: State) { s.status == Connecting ==> s.client.Some? && s.ackTimer == s.client }

  lemma {:induction false} RunWatched(s: State, run: seq<Event>)
    requires Watched(s) && ValidRun(s, run)
    ensures Watched(Run(s, run))
    decreases |run|
  {
    if run != [] {
      StepWatched(s, run[0]);
      RunWatched(Step(s, run[0]), run[1..]);
    }
  }

  lemma StepWatched(s: State, e: Event)
    requires Watched(s) && Enabled(s, e)
    ensures Watched(Step(s, e))
  {
    hide SessionDuration, MaxRetries;
  }

  /** A connecting client is never without its watchdog, so a connect that is not answered always ends. */
  lemma ConnectingIsWatched(s: State)
    requires Reachable(s) && s.status == Connecting
    ensures Enabled(s, AckTimeout) && s.ackTimer == s.client && Step(s, AckTimeout).status == Idle
  {
    var run :| ValidRun(Initial, run) && Run(Initial, run) == s;
    RunWatched(Initial, run);
  }
}
