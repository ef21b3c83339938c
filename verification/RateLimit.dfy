/** The sliding-window limiters of `fetchLinkPreview.ts` and `ipcRateLimit.ts`, which share one algorithm. */
module RateLimit {
  const LINK_PREVIEW_MAX: nat := 20
  const LINK_PREVIEW_WINDOW_MS: nat := 60_000

  /** Timestamps left after the shift loop. */
  function Dropped(kept: seq<int>, cutoff: int): seq<int> {
    if kept == [] || kept[0] >= cutoff then kept else Dropped(kept[1..], cutoff)
  }

  /** One call at `now`: the timestamps afterwards and the verdict. */
  function Call(kept: seq<int>, max: nat, windowMs: nat, now: int): (seq<int>, bool) {
    var recent := Dropped(kept, now - windowMs);
    if |recent| >= max then (recent, false) else (recent + [now], true)
  }

  // Whole histories

  function Kept(max: nat, windowMs: nat, times: seq<int>): seq<int> {
    if times == [] then [] else Call(Kept(max, windowMs, times[..|times| - 1]), max, windowMs, times[|times| - 1]).0
  }

  predicate Granted(max: nat, windowMs: nat, times: seq<int>)
    requires times != []
  {
    Call(Kept(max, windowMs, times[..|times| - 1]), max, windowMs, times[|times| - 1]).1
  }

  /** The calls that were let through, in order. */
  function Accepted(max: nat, windowMs: nat, times: seq<int>): seq<int> {
    if times == [] then []
    else if Granted(max, windowMs, times) then Accepted(max, windowMs, times[..|times| - 1]) + [times[|times| - 1]]
    else Accepted(max, windowMs, times[..|times| - 1])
  }

  /** A clock that never goes back. */
  ghost predicate Monotone(times: seq<int>) { forall i, j | 0 <= i <= j < |times| :: times[i] <= times[j] }

  /** How many of `s` lie in the closed span. */
  function Count(s: seq<int>, from: int, to: int): nat {
    if s == [] then 0 else Count(s[..|s| - 1], from, to) + if from <= s[|s| - 1] <= to then 1 else 0
  }

  lemma {:induction false} DroppedIsSuffix(kept: seq<int>, cutoff: int)
    requires Monotone(kept)
    ensures var r := Dropped(kept, cutoff);
            && |r| <= |kept| && r == kept[|kept| - |r|..]
            && (forall i | 0 <= i < |kept| - |r| :: kept[i] < cutoff) && (forall i | 0 <= i < |r| :: r[i] >= cutoff)
  {
    if kept != [] && kept[0] < cutoff { DroppedIsSuffix(kept[1..], cutoff); }
  }

  /** The stored timestamps are the accepted ones, less some that are older than the last window. */
  ghost predicate Tracks(accepted: seq<int>, kept: seq<int>, cutoff: int) {
    && |kept| <= |accepted| && kept == accepted[|accepted| - |kept|..]
    && forall i | 0 <= i < |accepted| - |kept| :: accepted[i] < cutoff
  }

  /** Any `max + 1` accepted calls in a row take longer than a window. */
  ghost predicate Spaced(accepted: seq<int>, max: nat, windowMs: nat) {
    && Monotone(accepted) && (max == 0 ==> accepted == [])
    && forall i | 0 <= i < |accepted| - max :: accepted[i + max] - accepted[i] > windowMs
  }

  lemma DropTracks(accepted: seq<int>, kept: seq<int>, cutoff: int)
    requires Monotone(accepted) && Tracks(accepted, kept, cutoff)
    ensures Tracks(accepted, Dropped(kept, cutoff), cutoff)
    ensures var recent := Dropped(kept, cutoff); forall i | |accepted| - |recent| <= i < |accepted| :: accepted[i] >= cutoff
  {
  }

  lemma GrantSpaces(accepted: seq<int>, recent: seq<int>, max: nat, windowMs: nat, now: int)
    requires Spaced(accepted, max, windowMs) && Tracks(accepted, recent, now - windowMs) && |recent| < max
    requires forall i | 0 <= i < |accepted| :: accepted[i] <= now
    ensures Spaced(accepted + [now], max, windowMs) && Tracks(accepted + [now], recent + [now], now - windowMs)
  {
  }

  ghost predicate Sound(accepted: seq<int>, kept: seq<int>, max: nat, windowMs: nat, now: int) {
    Spaced(accepted, max, windowMs) && Tracks(accepted, kept, now - windowMs) && forall i | 0 <= i < |accepted| :: accepted[i] <= now
  }

  lemma SpacedIsMonotone(accepted: seq<int>, max: nat, windowMs: nat)
    requires Spaced(accepted, max, windowMs)
    ensures Monotone(accepted)
  {
  }

  lemma CallKeeps(accepted: seq<int>, kept: seq<int>, max: nat, windowMs: nat, now: int)
    requires Sound(accepted, kept, max, windowMs, now)
    ensures var (after, ok) := Call(kept, max, windowMs, now);
            Sound(if ok then accepted + [now] else accepted, after, max, windowMs, now)
  {
    hide Spaced, Tracks, Dropped;
    var recent := Dropped(kept, now - windowMs);
    SpacedIsMonotone(accepted, max, windowMs);
    DropTracks(accepted, kept, now - windowMs);
    if |recent| < max { GrantSpaces(accepted, recent, max, windowMs, now); }
  }

  lemma Later(accepted: seq<int>, kept: seq<int>, max: nat, windowMs: nat, before: int, now: int)
    requires Sound(accepted, kept, max, windowMs, before) && before <= now
    ensures Sound(accepted, kept, max, windowMs, now)
  {
  }

  lemma {:induction false} HistoryIsSound(max: nat, windowMs: nat, times: seq<int>, now: int)
    requires Monotone(times) && forall i | 0 <= i < |times| :: times[i] <= now
    ensures Sound(Accepted(max, windowMs, times), Kept(max, windowMs, times), max, windowMs, now)
  {
    if times != [] {
      hide Sound, Call;
      var n := |times| - 1;
      var accepted, kept := Accepted(max, windowMs, times[..n]), Kept(max, windowMs, times[..n]);
      HistoryIsSound(max, windowMs, times[..n], times[n]);
      CallKeeps(accepted, kept, max, windowMs, times[n]);
      Later(Accepted(max, windowMs, times), Kept(max, windowMs, times), max, windowMs, times[n], now);
    }
  }

  lemma SpacedCount(accepted: seq<int>, max: nat, windowMs: nat, first: nat, n: nat)
    requires Spaced(accepted, max, windowMs) && first + n <= |accepted|
    requires n > 0 ==> accepted[first + n - 1] - accepted[first] <= windowMs
    ensures n <= max
  {
    if first + max < |accepted| {
      assert accepted[first + max] - accepted[first] > windowMs;
    }
  }

  /** In an ordered history the calls of a span are consecutive. */
  lemma {:induction false} CountsRun(s: seq<int>, from: int, to: int, first: nat)
    requires Monotone(s) && first <= |s|
    requires (forall i | 0 <= i < first :: s[i] < from) && forall i | first <= i < |s| :: s[i] >= from
    ensures Count(s, from, to) <= |s| - first
    ensures forall i | first <= i < first + Count(s, from, to) :: from <= s[i] <= to
    ensures (forall i | 0 <= i < |s| :: s[i] <= to) ==> Count(s, from, to) == |s| - first
  {
    if s != [] {
      var n := |s| - 1;
      CountsRun(s[..n], from, to, if first <= n then first else n);
    }
  }

  /** Where a span begins in an ordered history. */
  lemma {:induction false} FirstFrom(s: seq<int>, from: int) returns (first: nat)
    requires Monotone(s)
    ensures first <= |s|
    ensures (forall i | 0 <= i < first :: s[i] < from) && forall i | first <= i < |s| :: s[i] >= from
  {
    if s == [] || s[|s| - 1] < from {
      first := |s|;
    } else {
      first := FirstFrom(s[..|s| - 1], from);
    }
  }

  /** Over any history of a monotone clock, any closed span of one window length holds at most `max` accepted calls. */
  lemma SpanIsBounded(max: nat, windowMs: nat, times: seq<int>, from: int)
    requires Monotone(times)
    ensures Count(Accepted(max, windowMs, times), from, from + windowMs) <= max
  {
    var accepted := Accepted(max, windowMs, times);
    HistoryIsSound(max, windowMs, times, if times == [] then 0 else times[|times| - 1]);
    var first := FirstFrom(accepted, from);
    CountsRun(accepted, from, from + windowMs, first);
    SpacedCount(accepted, max, windowMs, first, Count(accepted, from, from + windowMs));
  }

  /** What the shift loop leaves is what the window holds. */
  lemma RecentCounts(accepted: seq<int>, kept: seq<int>, max: nat, windowMs: nat, now: int)
    requires Sound(accepted, kept, max, windowMs, now)
    ensures Count(accepted, now - windowMs, now) == |Dropped(kept, now - windowMs)| <= max
  {
    DropTracks(accepted, kept, now - windowMs);
    var first := |accepted| - |Dropped(kept, now - windowMs)|;
    CountsRun(accepted, now - windowMs, now, first);
    hide Count, Dropped;
    SpacedCount(accepted, max, windowMs, first, Count(accepted, now - windowMs, now));
  }

  /** A call is refused exactly when `max` accepted calls lie in the window that ends with it. */
  lemma RefusesOnlyWhenFull(max: nat, windowMs: nat, times: seq<int>)
    requires Monotone(times) && times != []
    ensures var now := times[|times| - 1];
            var earlier := Accepted(max, windowMs, times[..|times| - 1]);
            !Granted(max, windowMs, times) <==> Count(earlier, now - windowMs, now) == max
  {
    hide Sound, Dropped, Count, Kept, Accepted;
    var n := |times| - 1;
    HistoryIsSound(max, windowMs, times[..n], times[n]);
    RecentCounts(Accepted(max, windowMs, times[..n]), Kept(max, windowMs, times[..n]), max, windowMs, times[n]);
  }

  lemma HistoryGrows(max: nat, windowMs: nat, times: seq<int>, now: int)
    ensures var (after, ok) := Call(Kept(max, windowMs, times), max, windowMs, now);
            Kept(max, windowMs, times + [now]) == after && Granted(max, windowMs, times + [now]) == ok
  {
  }

  class SlidingWindow {
    const max: nat
    const windowMs: nat
    var timestamps: seq<int>
    ghost var times: seq<int>

    ghost predicate Valid() reads this { timestamps == Kept(max, windowMs, times) }

    constructor (max: nat, windowMs: nat)
      ensures Valid() && times == [] && this.max == max && this.windowMs == windowMs
    {
      this.max, this.windowMs, timestamps, times := max, windowMs, [], [];
    }

    /** The link-preview limiter. */
    constructor LinkPreview()
      ensures Valid() && times == [] && max == LINK_PREVIEW_MAX && windowMs == LINK_PREVIEW_WINDOW_MS
    {
      max, windowMs, timestamps, times := LINK_PREVIEW_MAX, LINK_PREVIEW_WINDOW_MS, [], [];
    }

    method Take(now: int) returns (ok: bool)
      requires Valid()
      modifies this
      ensures Valid() && times == old(times) + [now] && ok == Granted(max, windowMs, times)
    {
      ghost var before := timestamps;
      HistoryGrows(max, windowMs, times, now);
      times := times + [now];
      var cutoff := now - windowMs;
      while |timestamps| > 0 && timestamps[0] < cutoff
        invariant Dropped(timestamps, cutoff) == Dropped(before, cutoff)
        invariant times == old(times) + [now]
        decreases |timestamps|
      {
        timestamps := timestamps[1..];
      }
      if |timestamps| >= max { return false; }
      timestamps := timestamps + [now];
      ok := true;
    }
  }
}
