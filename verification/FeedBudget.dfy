/** Tumbling-window budgets of the live feed (`beacon-feed.ts`), over the messages of one feed generation. */
module FeedBudget {
  const SECOND: real := 1000.0
  const MAX_PACKETS := 100
  const MAX_FRAMES := 256
  const MAX_BYTES := 2 * 1024 * 1024
  const MAX_CONTROL_BYTES := 1024
  const CONTROL_RESERVE := 8

  /** What a parsed message turns out to be. */
  datatype Kind = Traffic | Lagged | Subscribed | Other

  /** A text message of the current socket; `now` is the monotone clock. */
  datatype Message = Message(now: real, bytes: nat, kind: Kind)

  /** `start` is absent for minus infinity. */
  datatype Window = Window(started: bool, start: real, packets: int, frames: int, bytes: int, control: int)

  const Fresh := Window(false, 0.0, 0, 0, 0, 0)

  /** What one message used up, and under which window. */
  datatype Entry = Entry(now: real, start: real, packets: int, frames: int, bytes: int, control: int, parsed: int)

  function Rolled(w: Window, now: real): Window {
    if !w.started || now - w.start >= SECOND then Window(true, now, 0, 0, 0, 0) else w
  }

  predicate ControlOnly(w: Window, m: Message) { w.frames >= MAX_FRAMES || w.bytes + m.bytes > MAX_BYTES }

  predicate Dropped(w: Window, m: Message) {
    ControlOnly(w, m) && (m.bytes > MAX_CONTROL_BYTES || w.control >= CONTROL_RESERVE)
  }

  predicate Forwards(w: Window, m: Message) { !ControlOnly(w, m) && m.kind == Traffic && w.packets < MAX_PACKETS }

  /** The use that the handler makes of one message, on a window already rolled. */
  function Used(w: Window, m: Message): Entry {
    if Dropped(w, m) then Entry(m.now, w.start, 0, 0, 0, 0, 0)
    else if ControlOnly(w, m) then Entry(m.now, w.start, 0, 0, 0, 1, m.bytes)
    else Entry(m.now, w.start, if Forwards(w, m) then 1 else 0, 1, m.bytes, 0, m.bytes)
  }

  function Charged(w: Window, e: Entry): Window {
    w.(packets := w.packets + e.packets, frames := w.frames + e.frames, bytes := w.bytes + e.bytes, control := w.control + e.control)
  }

  function Receive(w: Window, m: Message): (Window, Entry) {
    var rolled := Rolled(w, m.now);
    (Charged(rolled, Used(rolled, m)), Used(rolled, m))
  }

  function Final(ms: seq<Message>): Window {
    if ms == [] then Fresh else Receive(Final(ms[..|ms| - 1]), ms[|ms| - 1]).0
  }

  function Log(ms: seq<Message>): seq<Entry> {
    if ms == [] then [] else Log(ms[..|ms| - 1]) + [Receive(Final(ms[..|ms| - 1]), ms[|ms| - 1]).1]
  }

  ghost predicate Monotone(ms: seq<Message>) { forall i, j | 0 <= i <= j < |ms| :: ms[i].now <= ms[j].now }

  // Sums over a log

  function Total(log: seq<Entry>, weight: Entry -> int, counts: Entry -> bool): int {
    if log == [] then 0
    else Total(log[..|log| - 1], weight, counts) + if counts(log[|log| - 1]) then weight(log[|log| - 1]) else 0
  }

  function StartedAt(s: real): Entry -> bool { (e: Entry) => e.start == s }

  /** The half-open second that begins at `t`. */
  function Within(t: real): Entry -> bool { (e: Entry) => t <= e.now < t + SECOND }

  function Packets(): Entry -> int { (e: Entry) => e.packets }

  function Frames(): Entry -> int { (e: Entry) => e.frames }

  function Bytes(): Entry -> int { (e: Entry) => e.bytes }

  function Control(): Entry -> int { (e: Entry) => e.control }

  /** Bytes handed to the JSON parser, control notices included. */
  function Parsed(): Entry -> int { (e: Entry) => e.parsed }

  /** Windows last a second and begin at least a second apart. */
  ghost predicate Tumbling(log: seq<Entry>) {
    && (forall i | 0 <= i < |log| :: log[i].start <= log[i].now < log[i].start + SECOND)
    && (forall i, j | 0 <= i < |log| && 0 <= j < |log| && log[i].start != log[j].start ::
          log[i].start - log[j].start >= SECOND || log[j].start - log[i].start >= SECOND)
  }

  lemma {:induction false} TwoWindows(log: seq<Entry>, weight: Entry -> int, t: real, a: real, b: real)
    requires forall i | 0 <= i < |log| :: weight(log[i]) >= 0
    requires forall i | 0 <= i < |log| && Within(t)(log[i]) :: log[i].start == a || log[i].start == b
    ensures Total(log, weight, Within(t)) <= Total(log, weight, StartedAt(a)) + Total(log, weight, StartedAt(b))
  {
    if log != [] {
      TwoWindows(log[..|log| - 1], weight, t, a, b);
    }
  }

  lemma {:induction false} NoneCounted(log: seq<Entry>, weight: Entry -> int, counts: Entry -> bool)
    requires forall i | 0 <= i < |log| :: !counts(log[i])
    ensures Total(log, weight, counts) == 0
  {
    if log != [] { NoneCounted(log[..|log| - 1], weight, counts); }
  }

  /** A second meets at most two windows: whatever no window exceeds, no second exceeds twice. */
  lemma TwiceTheBudget(log: seq<Entry>, weight: Entry -> int, budget: int, t: real)
    requires Tumbling(log) && (forall i | 0 <= i < |log| :: weight(log[i]) >= 0)
    requires forall s: real :: Total(log, weight, StartedAt(s)) <= budget
    ensures Total(log, weight, Within(t)) <= 2 * budget
  {
    assert Total(log, weight, StartedAt(0.0)) <= budget;
    if i :| 0 <= i < |log| && Within(t)(log[i]) {
      var a := log[i].start;
      if j :| 0 <= j < |log| && Within(t)(log[j]) && log[j].start != a {
        TwoWindows(log, weight, t, a, log[j].start);
      } else {
        TwoWindows(log, weight, t, a, a);
      }
    } else {
      NoneCounted(log, weight, Within(t));
      WeightsAddUp(log, weight, StartedAt(0.0));
    }
  }

  lemma {:induction false} WeightsAddUp(log: seq<Entry>, weight: Entry -> int, counts: Entry -> bool)
    requires forall i | 0 <= i < |log| :: weight(log[i]) >= 0
    ensures Total(log, weight, counts) >= 0
  {
    if log != [] { WeightsAddUp(log[..|log| - 1], weight, counts); }
  }

  // The handler's windows keep the books

  const MAX_PARSED := MAX_BYTES + CONTROL_RESERVE * MAX_CONTROL_BYTES

  /** The counter `amount` is what the current window used, and no window used more than `budget`. */
  ghost predicate Accounted(log: seq<Entry>, start: real, weight: Entry -> int, amount: int, budget: int) {
    Total(log, weight, StartedAt(start)) == amount <= budget && forall s: real :: Total(log, weight, StartedAt(s)) <= budget
  }

  ghost predicate Kept(log: seq<Entry>, w: Window, now: real) {
    && Tumbling(log)
    && (forall i | 0 <= i < |log| :: log[i].now <= now && (log[i].start == w.start || w.start - log[i].start >= SECOND))
    && (!w.started ==> log == [] && w == Fresh)
    && (w.started ==> w.start <= now)
    && (forall i | 0 <= i < |log| ::
          log[i].packets >= 0 && log[i].frames >= 0 && log[i].bytes >= 0 && log[i].control >= 0 && log[i].parsed >= 0)
    && w.packets <= MAX_PACKETS && w.frames <= MAX_FRAMES && w.bytes <= MAX_BYTES && w.control <= CONTROL_RESERVE
    && Accounted(log, w.start, Packets(), w.packets, MAX_PACKETS)
    && Accounted(log, w.start, Frames(), w.frames, MAX_FRAMES)
    && Accounted(log, w.start, Bytes(), w.bytes, MAX_BYTES)
    && Accounted(log, w.start, Control(), w.control, CONTROL_RESERVE)
    && Total(log, Parsed(), StartedAt(w.start)) <= w.bytes + MAX_CONTROL_BYTES * w.control
    && forall s: real :: Total(log, Parsed(), StartedAt(s)) <= MAX_PARSED
  }

  lemma Append(log: seq<Entry>, e: Entry, weight: Entry -> int, s: real)
    ensures Total(log + [e], weight, StartedAt(s)) == Total(log, weight, StartedAt(s)) + if e.start == s then weight(e) else 0
  {
  }

  lemma Charge(log: seq<Entry>, e: Entry, weight: Entry -> int, amount: int, budget: int)
    requires Accounted(log, e.start, weight, amount, budget) && amount + weight(e) <= budget
    ensures Accounted(log + [e], e.start, weight, amount + weight(e), budget)
  {
  }

  /** A window that nothing was charged to. */
  lemma NewWindow(log: seq<Entry>, start: real, now: real, weight: Entry -> int, amount: int, budget: int)
    requires Accounted(log, start, weight, amount, budget) && forall i | 0 <= i < |log| :: log[i].start != now
    ensures Accounted(log, now, weight, 0, budget) || budget < 0
  {
    NoneCounted(log, weight, StartedAt(now));
  }

  lemma RollKeeps(log: seq<Entry>, w: Window, before: real, now: real)
    requires Kept(log, w, before) && before <= now
    ensures Kept(log, Rolled(w, now), now)
  {
    if !w.started || now - w.start >= SECOND {
      NewWindow(log, w.start, now, Packets(), w.packets, MAX_PACKETS);
      NewWindow(log, w.start, now, Frames(), w.frames, MAX_FRAMES);
      NewWindow(log, w.start, now, Bytes(), w.bytes, MAX_BYTES);
      NewWindow(log, w.start, now, Control(), w.control, CONTROL_RESERVE);
      NoneCounted(log, Parsed(), StartedAt(now));
    }
  }

  lemma ChargeParsed(log: seq<Entry>, e: Entry, w: Window)
    requires w.bytes + e.bytes <= MAX_BYTES && w.control + e.control <= CONTROL_RESERVE
    requires e.parsed <= e.bytes + MAX_CONTROL_BYTES * e.control
    requires Total(log, Parsed(), StartedAt(e.start)) <= w.bytes + MAX_CONTROL_BYTES * w.control
    requires forall s: real :: Total(log, Parsed(), StartedAt(s)) <= MAX_PARSED
    ensures Total(log + [e], Parsed(), StartedAt(e.start)) <= (w.bytes + e.bytes) + MAX_CONTROL_BYTES * (w.control + e.control)
    ensures forall s: real :: Total(log + [e], Parsed(), StartedAt(s)) <= MAX_PARSED
  {
  }

  lemma UseKeeps(log: seq<Entry>, w: Window, m: Message)
    requires Kept(log, w, m.now) && w.started && m.now - w.start < SECOND
    ensures Kept(log + [Used(w, m)], Charged(w, Used(w, m)), m.now)
  {
    hide Accounted, Total;
    var e := Used(w, m);
    Charge(log, e, Packets(), w.packets, MAX_PACKETS);
    Charge(log, e, Frames(), w.frames, MAX_FRAMES);
    Charge(log, e, Bytes(), w.bytes, MAX_BYTES);
    Charge(log, e, Control(), w.control, CONTROL_RESERVE);
    ChargeParsed(log, e, w);
  }

  lemma {:induction false} RunKeeps(ms: seq<Message>, now: real)
    requires Monotone(ms) && forall i | 0 <= i < |ms| :: ms[i].now <= now
    ensures Kept(Log(ms), Final(ms), now)
  {
    if ms == [] {
      Empty();
    } else {
      var n := |ms| - 1;
      RunKeeps(ms[..n], ms[n].now);
      RollKeeps(Log(ms[..n]), Final(ms[..n]), ms[n].now, ms[n].now);
      UseKeeps(Log(ms[..n]), Rolled(Final(ms[..n]), ms[n].now), ms[n]);
      Later(Log(ms), Final(ms), ms[n].now, now);
    }
  }

  // What the budgets admit, read off the history

  /** The start of the tumbling window in which the last message falls. */
  function WindowStart(ms: seq<Message>): real
    requires ms != []
  {
    var n := |ms| - 1;
    if n == 0 || ms[n].now - WindowStart(ms[..n]) >= SECOND then ms[n].now else WindowStart(ms[..n])
  }

  /** What the window that began at `start` has used before. */
  function Spent(log: seq<Entry>, weight: Entry -> int, start: real): int { Total(log, weight, StartedAt(start)) }

  /** There is room to parse any message of this size. */
  predicate Fits(log: seq<Entry>, start: real, bytes: nat) {
    Spent(log, Frames(), start) < MAX_FRAMES && Spent(log, Bytes(), start) + bytes <= MAX_BYTES
  }

  /** There is none, but it is short enough to be a control notice and one of the reserved ones is left. */
  predicate FitsReserve(log: seq<Entry>, start: real, bytes: nat) {
    !Fits(log, start, bytes) && bytes <= MAX_CONTROL_BYTES && Spent(log, Control(), start) < CONTROL_RESERVE
  }

  predicate Emits(log: seq<Entry>, start: real, m: Message) {
    Fits(log, start, m.bytes) && m.kind == Traffic && Spent(log, Packets(), start) < MAX_PACKETS
  }

  /** What the last message must have used. */
  ghost predicate Earned(log: seq<Entry>, start: real, m: Message, e: Entry) {
    var fits, reserve := Fits(log, start, m.bytes), FitsReserve(log, start, m.bytes);
    && e.now == m.now && e.start == start
    && e.packets == (if Emits(log, start, m) then 1 else 0)
    && e.frames == (if fits then 1 else 0) && e.bytes == (if fits then m.bytes else 0)
    && e.control == (if reserve then 1 else 0) && e.parsed == (if fits || reserve then m.bytes else 0)
  }

  lemma WindowIsStart(ms: seq<Message>)
    ensures Final(ms).started <==> ms != []
    ensures ms != [] ==> Final(ms).start == WindowStart(ms)
  {
  }

  /** On a window that kept the books the use of a message is what the books allow. */
  lemma UseIsEarned(log: seq<Entry>, w: Window, m: Message)
    requires Kept(log, w, m.now)
    ensures Earned(log, w.start, m, Used(w, m))
  {
    hide Total, Tumbling;
  }

  /** Every message is forwarded, parsed or dropped exactly as the budgets of its tumbling window say, so the message
      history alone determines what is emitted. */
  lemma LastIsEarned(ms: seq<Message>, m: Message)
    requires Monotone(ms + [m])
    ensures Earned(Log(ms), WindowStart(ms + [m]), m, Receive(Final(ms), m).1)
  {
    var n := |ms|;
    assert forall i | 0 <= i < n :: (ms + [m])[i] == ms[i] && (ms + [m])[n] == m;
    assert (ms + [m])[..n] == ms;
    RunKeeps(ms, m.now);
    RollKeeps(Log(ms), Final(ms), m.now, m.now);
    hide Kept, Log, Used, Charged;
    WindowIsStart(ms + [m]);
    UseIsEarned(Log(ms), Rolled(Final(ms), m.now), m);
  }

  lemma Empty()
    ensures Kept([], Fresh, 0.0) && forall now: real :: Kept([], Fresh, now)
  {
  }

  lemma Later(log: seq<Entry>, w: Window, before: real, now: real)
    requires Kept(log, w, before) && before <= now
    ensures Kept(log, w, now)
  {
  }

  /** In any half-open second of one feed generation, whatever its sockets did: at most 200 updates are forwarded, 512
      frames and 16 control notices are parsed, and at most twice the byte budgets go to the parser. */
  lemma SecondsAreBounded(ms: seq<Message>, t: real)
    requires Monotone(ms)
    ensures Total(Log(ms), Packets(), Within(t)) <= 2 * MAX_PACKETS
    ensures Total(Log(ms), Frames(), Within(t)) <= 2 * MAX_FRAMES
    ensures Total(Log(ms), Control(), Within(t)) <= 2 * CONTROL_RESERVE
    ensures Total(Log(ms), Parsed(), Within(t)) <= 2 * MAX_PARSED
  {
    RunKeeps(ms, if ms == [] then 0.0 else ms[|ms| - 1].now);
    TwiceTheBudget(Log(ms), Packets(), MAX_PACKETS, t);
    TwiceTheBudget(Log(ms), Frames(), MAX_FRAMES, t);
    TwiceTheBudget(Log(ms), Control(), CONTROL_RESERVE, t);
    TwiceTheBudget(Log(ms), Parsed(), MAX_PARSED, t);
  }

  // The client object

  datatype Outcome = Discarded | Unforwarded | Forwarded | Restarted | WentLive

  class BeaconFeedClient {
    var started: bool
    var packetWindow: real
    var packetCount: int
    var parseFrames: int
    var parseBytes: int
    var controlFrames: int
    ghost var received: seq<Message>

    ghost function View(): Window reads this {
      Window(started, packetWindow, packetCount, parseFrames, parseBytes, controlFrames)
    }

    /** The counters are those of the messages of this generation. */
    ghost predicate Valid() reads this { View() == Final(received) }

    constructor ()
      ensures Valid() && received == []
    {
      started, packetWindow, packetCount, parseFrames, parseBytes, controlFrames := false, 0.0, 0, 0, 0, 0;
      received := [];
    }

    /** `disconnect` begins a new generation; reconnects of a generation leave the counters alone. */
    method Disconnect()
      modifies this
      ensures Valid() && received == []
    {
      started, packetWindow, packetCount, parseFrames, parseBytes, controlFrames := false, 0.0, 0, 0, 0, 0;
      received := [];
    }

    method EmitTraffic() returns (sent: bool)
      modifies this`packetCount
      ensures sent <==> old(packetCount) < MAX_PACKETS
      ensures packetCount == old(packetCount) + if sent then 1 else 0
    {
      sent := packetCount < MAX_PACKETS;
      if sent { packetCount := packetCount + 1; }
    }

    method OnMessage(m: Message) returns (outcome: Outcome)
      requires Valid()
      modifies this
      ensures Valid() && received == old(received) + [m]
      ensures Monotone(received) ==>
                var log, start := Log(old(received)), WindowStart(received);
                && (outcome == Forwarded <==> Emits(log, start, m))
                && (outcome == Discarded <==> !Fits(log, start, m.bytes) && !FitsReserve(log, start, m.bytes))
                && (outcome == Restarted <==> m.kind == Lagged && outcome != Discarded)
                && (outcome == WentLive <==> m.kind == Subscribed && outcome != Discarded)
                && Earned(log, start, m, Log(received)[|log|])
      ensures Log(received) == Log(old(received)) + [Receive(Final(old(received)), m).1]
    {
      hide Fits, FitsReserve, Emits, Log, Final, WindowStart, Monotone;
      ghost var before := received;
      assert (before + [m])[..|before|] == before;
      LogGrows(before, m);
      if Monotone(before + [m]) { LastIsEarned(before, m); }
      received := received + [m];
      if !started || m.now - packetWindow >= SECOND {
        started, packetWindow := true, m.now;
        packetCount, parseFrames, parseBytes, controlFrames := 0, 0, 0, 0;
      }
      var controlOnly := parseFrames >= MAX_FRAMES || parseBytes + m.bytes > MAX_BYTES;
      if controlOnly {
        if m.bytes > MAX_CONTROL_BYTES || controlFrames >= CONTROL_RESERVE { return Discarded; }
        controlFrames := controlFrames + 1;
      } else {
        parseFrames := parseFrames + 1;
        parseBytes := parseBytes + m.bytes;
      }
      if m.kind == Lagged { return Restarted; }
      if m.kind == Subscribed { return WentLive; }
      if controlOnly || m.kind != Traffic { return Unforwarded; }
      var sent := EmitTraffic();
      outcome := if sent then Forwarded else Unforwarded;
    }
  }

  lemma LogGrows(ms: seq<Message>, m: Message)
    ensures |Log(ms)| == |ms| && Log(ms + [m]) == Log(ms) + [Receive(Final(ms), m).1]
    ensures Final(ms + [m]) == Receive(Final(ms), m).0
  {
  }
}
