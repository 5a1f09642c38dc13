/** The requests-per-minute limit: callers wait until the last minute has room. */
module Throttle {
  import opened Common

  /** In nanoseconds, on a clock that never goes back. */
  const MINUTE := 60_000_000_000

  /** The times still within a minute of `cutoff`: the front is popped while it
      is older. */
  function Trimmed(window: seq<int>, cutoff: int): seq<int> {
    if window != [] && window[0] < cutoff then Trimmed(window[1..], cutoff) else window
  }

  class Client {
    const limit: nat
    var window: seq<int>

    constructor (limit: nat)
      ensures this.limit == limit && window == []
    {
      this.limit := limit;
      window := [];
    }

    /** One hold of the window's lock: `None` when the caller is let through,
        or how long it is to wait. */
    method Attempt(now: int) returns (wait: Option<int>)
      modifies this
      ensures window == After(old(window), limit, now)
      ensures wait == Wait(old(window), limit, now)
    {
      if limit == 0 {
        return None;
      }
      ghost var was := window;
      while window != [] && window[0] < now - MINUTE
        invariant Trimmed(window, now - MINUTE) == Trimmed(was, now - MINUTE)
        decreases |window|
      {
        window := window[1..];
      }
      if |window| < limit {
        window := window + [now];
        return None;
      }
      var oldest := window[0];
      wait := Some(if oldest + MINUTE >= now then oldest + MINUTE - now else 0);
    }
  }

  predicate Admits(window: seq<int>, limit: nat, now: int) {
    limit == 0 || |Trimmed(window, now - MINUTE)| < limit
  }

  function After(window: seq<int>, limit: nat, now: int): seq<int> {
    if limit == 0 then window
    else Trimmed(window, now - MINUTE) + if Admits(window, limit, now) then [now] else []
  }

  /** Until the oldest admission is a minute old. */
  function Wait(window: seq<int>, limit: nat, now: int): Option<int> {
    if Admits(window, limit, now) then None
    else
      var oldest := Trimmed(window, now - MINUTE)[0];
      Some(if oldest + MINUTE >= now then oldest + MINUTE - now else 0)
  }

  // -- every run of every caller ---------------------------------------------------------

  /** The window after attempts at `times`, by whoever. */
  function WindowAfter(limit: nat, times: seq<int>): seq<int> {
    if times == [] then [] else After(WindowAfter(limit, times[..|times| - 1]), limit, times[|times| - 1])
  }

  /** The attempts let through. */
  function Admitted(limit: nat, times: seq<int>): seq<int> {
    if times == [] then []
    else
      var before, now := times[..|times| - 1], times[|times| - 1];
      Admitted(limit, before) + if Admits(WindowAfter(limit, before), limit, now) then [now] else []
  }

  predicate Sorted(s: seq<int>) {
    forall i, j | 0 <= i < j < |s| :: s[i] <= s[j]
  }

  /** How many of `s` are in the closed interval. */
  function Within(s: seq<int>, from: int, to: int): nat {
    if s == [] then 0 else Within(s[..|s| - 1], from, to) + if from <= s[|s| - 1] <= to then 1 else 0
  }

  /** Any `limit` + 1 admissions in a row take more than a minute. */
  predicate Spaced(admitted: seq<int>, limit: nat) {
    forall i, j | 0 <= i && i + limit <= j < |admitted| :: admitted[i] + MINUTE < admitted[j]
  }

  lemma {:induction false} TrimmedIsSuffix(window: seq<int>, cutoff: int) returns (n: nat)
    ensures n <= |window| && Trimmed(window, cutoff) == window[n..]
    ensures forall i | 0 <= i < n :: window[i] < cutoff
    ensures n < |window| ==> window[n] >= cutoff
  {
    n := 0;
    if window != [] && window[0] < cutoff {
      var m := TrimmedIsSuffix(window[1..], cutoff);
      n := m + 1;
      assert forall i | 0 < i < n :: window[i] == window[1..][i - 1];
    }
  }

  /** The window is the end of what was admitted, and all before it is more
      than a minute old. */
  predicate Kept(admitted: seq<int>, window: seq<int>, limit: nat, now: int) {
    && Sorted(admitted) && Spaced(admitted, limit)
    && |window| <= limit && |window| <= |admitted| && window == admitted[|admitted| - |window|..]
    && (forall i | 0 <= i < |admitted| :: admitted[i] <= now)
    && (forall i | 0 <= i < |admitted| - |window| :: admitted[i] < now - MINUTE)
  }

  lemma KeptLater(admitted: seq<int>, window: seq<int>, limit: nat, before: int, now: int)
    requires Kept(admitted, window, limit, before) && before <= now
    ensures Kept(admitted, window, limit, now)
  {
  }

  lemma TrimKeeps(admitted: seq<int>, window: seq<int>, limit: nat, now: int)
    requires Kept(admitted, window, limit, now)
    ensures Kept(admitted, Trimmed(window, now - MINUTE), limit, now)
  {
    var n := TrimmedIsSuffix(window, now - MINUTE);
    var k := |admitted| - |window|;
    assert forall i | k <= i < k + n :: admitted[i] == window[i - k];
  }

  lemma AdmitKeeps(admitted: seq<int>, window: seq<int>, limit: nat, now: int)
    requires Kept(admitted, window, limit, now) && |window| < limit
    ensures Kept(admitted + [now], window + [now], limit, now)
  {
  }

  predicate Until(times: seq<int>, now: int) {
    Sorted(times) && (times != [] ==> times[|times| - 1] <= now)
  }

  lemma UntilLast(times: seq<int>)
    requires Sorted(times) && times != []
    ensures Until(times[..|times| - 1], times[|times| - 1])
  {
  }

  lemma {:induction false} EveryRunKeeps(limit: nat, times: seq<int>, now: int)
    requires limit > 0 && Until(times, now)
    ensures Kept(Admitted(limit, times), WindowAfter(limit, times), limit, now)
  {
    if times != [] {
      var before, last := times[..|times| - 1], times[|times| - 1];
      var admitted, window := Admitted(limit, before), WindowAfter(limit, before);
      UntilLast(times);
      EveryRunKeeps(limit, before, last);
      AttemptKeeps(admitted, window, limit, last);
      KeptLater(Admitted(limit, times), WindowAfter(limit, times), limit, last, now);
    }
  }

  lemma AttemptKeeps(admitted: seq<int>, window: seq<int>, limit: nat, now: int)
    requires limit > 0 && Kept(admitted, window, limit, now)
    ensures Kept(admitted + (if Admits(window, limit, now) then [now] else []), After(window, limit, now), limit, now)
  {
    TrimKeeps(admitted, window, limit, now);
    if Admits(window, limit, now) {
      AdmitKeeps(admitted, Trimmed(window, now - MINUTE), limit, now);
    } else {
      assert admitted + [] == admitted && Trimmed(window, now - MINUTE) + [] == Trimmed(window, now - MINUTE);
    }
  }

  lemma {:induction false} CountAfter(s: seq<int>, k: nat, from: int, to: int)
    requires k <= |s| && forall i | 0 <= i < k :: s[i] < from
    ensures Within(s, from, to) <= |s| - k
  {
    if k < |s| {
      CountAfter(s[..|s| - 1], k, from, to);
    } else if s != [] {
      CountAfter(s[..|s| - 1], k - 1, from, to);
    }
  }

  lemma {:induction false} SpacedCount(admitted: seq<int>, limit: nat, from: int)
    requires Sorted(admitted) && Spaced(admitted, limit)
    ensures Within(admitted, from, from + MINUTE) <= limit
  {
    if |admitted| > 0 {
      var before, last := admitted[..|admitted| - 1], admitted[|admitted| - 1];
      if from <= last <= from + MINUTE {
        if |admitted| > limit {
          CountAfter(admitted, |admitted| - limit, from, from + MINUTE);
        } else {
          CountAfter(admitted, 0, from, from + MINUTE);
        }
      } else {
        SpacedCount(before, limit, from);
      }
    }
  }

  /** Whoever asks and whenever: any 60 seconds, their ends included, hold at
      most `limit` admissions. */
  lemma AnyMinuteHoldsTheLimit(limit: nat, times: seq<int>, from: int)
    requires limit > 0 && Sorted(times)
    ensures Within(Admitted(limit, times), from, from + 60 * 1_000_000_000) <= limit
    ensures Sorted(WindowAfter(limit, times)) && |WindowAfter(limit, times)| <= limit
  {
    var now := if times == [] then 0 else times[|times| - 1];
    EveryRunKeeps(limit, times, now);
    SpacedCount(Admitted(limit, times), limit, from);
  }

  lemma {:induction false} CountSuffix(s: seq<int>, k: nat, from: int, to: int)
    requires k <= |s|
    requires forall i | 0 <= i < k :: s[i] < from
    requires forall i | k <= i < |s| :: from <= s[i] <= to
    ensures Within(s, from, to) == |s| - k
  {
    if k < |s| {
      CountSuffix(s[..|s| - 1], k, from, to);
    } else if s != [] {
      CountSuffix(s[..|s| - 1], k - 1, from, to);
    }
  }

  lemma WindowIsTheMinute(admitted: seq<int>, window: seq<int>, limit: nat, now: int)
    requires Kept(admitted, window, limit, now)
    ensures Within(admitted, now - MINUTE, now) == |Trimmed(window, now - MINUTE)| <= limit
  {
    TrimKeeps(admitted, window, limit, now);
    var n := TrimmedIsSuffix(window, now - MINUTE);
    var trimmed := Trimmed(window, now - MINUTE);
    var k := |admitted| - |trimmed|;
    assert trimmed != [] ==> admitted[k] == window[n];
    CountSuffix(admitted, k, now - MINUTE, now);
  }

  /** A caller waits exactly when the 60 seconds up to now are full. */
  lemma WaitsExactlyWhenFull(limit: nat, times: seq<int>, now: int)
    requires limit > 0 && Until(times, now)
    ensures Wait(WindowAfter(limit, times), limit, now).Some?
       <==> Within(Admitted(limit, times), now - 60 * 1_000_000_000, now) == limit
  {
    EveryRunKeeps(limit, times, now);
    WindowIsTheMinute(Admitted(limit, times), WindowAfter(limit, times), limit, now);
  }

  // -- waking --------------------------------------------------------------------------

  /** The oldest admission a waiting caller waited for. */
  function Oldest(window: seq<int>, limit: nat, now: int): int
    requires !Admits(window, limit, now)
  {
    Trimmed(window, now - MINUTE)[0]
  }

  predicate AllAfter(s: seq<int>, time: int) {
    forall i | 0 <= i < |s| :: s[i] > time
  }

  lemma TrimmedIsAfter(window: seq<int>, cutoff: int, oldest: int)
    requires Sorted(window) && oldest < cutoff
    ensures AllAfter(Trimmed(window, cutoff), oldest)
  {
    var n := TrimmedIsSuffix(window, cutoff);
    assert forall i | n <= i < |window| :: window[i] >= window[n];
  }

  /** Waking strictly after its wait, the oldest admission it waited for is out
      of the window, whoever asked in between and whatever came of it. */
  lemma OldestIsGone(limit: nat, before: seq<int>, now: int, between: seq<int>, later: int)
    requires limit > 0 && Until(before + [now] + between, later)
    requires !Admits(WindowAfter(limit, before), limit, now)
    requires later > now + Wait(WindowAfter(limit, before), limit, now).value
    ensures
      var oldest := Oldest(WindowAfter(limit, before), limit, now);
      oldest < later - MINUTE
      && AllAfter(Trimmed(WindowAfter(limit, before + [now] + between), later - MINUTE), oldest)
  {
    var window := WindowAfter(limit, before);
    var n := TrimmedIsSuffix(window, now - MINUTE);
    EveryRunKeeps(limit, before + [now] + between, later);
    TrimmedIsAfter(WindowAfter(limit, before + [now] + between), later - MINUTE, Oldest(window, limit, now));
  }

  /** Alone, it is let through strictly after its wait, and not before: at the
      very end of the wait it is told to wait no time at all. */
  lemma LetThroughAfterTheWait(window: seq<int>, limit: nat, now: int, later: int)
    requires Sorted(window) && |window| <= limit && limit > 0 && !Admits(window, limit, now) && now <= later
    ensures Admits(After(window, limit, now), limit, later) <==> later > now + Wait(window, limit, now).value
    ensures later == now + Wait(window, limit, now).value ==> Wait(After(window, limit, now), limit, later) == Some(0)
  {
    var trimmed := Trimmed(window, now - MINUTE);
    var n := TrimmedIsSuffix(window, now - MINUTE);
    assert trimmed == window && trimmed + [] == window;
    var m := TrimmedIsSuffix(window, later - MINUTE);
    assert window[0] >= now - MINUTE;
  }
}
