/**
 The sliding-window limiter of sign-in failures. It forgets failures as they leave the window; every
 answer is the one the complete history since the last reset would give.
 */
module RateLimiter {
  const DEFAULT_MAX_FAILURES: int := 5
  const DEFAULT_WINDOW: int := 15 * 60 * 1_000_000_000

  ghost predicate Chronological(h: seq<int>) {
    forall i, j :: 0 <= i < j < |h| ==> h[i] <= h[j]
  }

  /** The failures strictly after `cutoff`, in order. */
  ghost function After(h: seq<int>, cutoff: int): (r: seq<int>) {
    if h == [] then [] else (if h[0] > cutoff then [h[0]] else []) + After(h[1..], cutoff)
  }

  /** Fewer than the limit of the recorded failures lie strictly inside the window that ends `now`. */
  ghost predicate Allowed(h: seq<int>, now: int, window: int, maxFailures: int) {
    |After(h, now - window)| < maxFailures
  }

  lemma {:induction false} AfterAppended(h: seq<int>, more: seq<int>, cutoff: int)
    ensures After(h + more, cutoff) == After(h, cutoff) + After(more, cutoff)
  {
    if h == [] {
      assert h + more == more;
    } else {
      assert (h + more)[1..] == h[1..] + more;
      AfterAppended(h[1..], more, cutoff);
    }
  }

  lemma {:induction false} AfterOfExpired(h: seq<int>, cutoff: int)
    requires forall i :: 0 <= i < |h| ==> h[i] <= cutoff
    ensures After(h, cutoff) == []
  {
    if h != [] {
      AfterOfExpired(h[1..], cutoff);
    }
  }

  lemma {:induction false} AfterOfRecent(h: seq<int>, cutoff: int)
    requires forall i :: 0 <= i < |h| ==> h[i] > cutoff
    ensures After(h, cutoff) == h
  {
    if h != [] {
      AfterOfRecent(h[1..], cutoff);
    }
  }

  lemma {:induction false} AfterShrinks(h: seq<int>, cutoff: int, later: int)
    requires cutoff <= later
    ensures |After(h, later)| <= |After(h, cutoff)|
  {
    if h != [] {
      AfterShrinks(h[1..], cutoff, later);
    }
  }

  /** `kept` is what remains of `h` after dropping failures that had left the window at time `clock`. */
  ghost predicate Pruned(h: seq<int>, kept: seq<int>, expired: int) {
    && |kept| <= |h|
    && (forall i :: 0 <= i < |kept| ==> kept[i] == h[|h| - |kept| + i])
    && forall i :: 0 <= i < |h| - |kept| ==> h[i] <= expired
  }

  /** Forgetting expired failures changes no answer from then on. */
  lemma PruningIsInvisible(h: seq<int>, kept: seq<int>, expired: int, cutoff: int)
    requires Pruned(h, kept, expired) && expired <= cutoff
    ensures After(h, cutoff) == After(kept, cutoff)
  {
    var dropped := h[..|h| - |kept|];
    assert h[|h| - |kept|..] == kept && h == dropped + kept;
    AfterAppended(dropped, kept, cutoff);
    AfterOfExpired(dropped, cutoff);
  }

  /** What the limiter keeps of the history `h` of one key, when it last saw the clock at `clock`. */
  ghost predicate Remembers(h: seq<int>, kept: seq<int>, clock: int, window: int) {
    && Chronological(h) && Pruned(h, kept, clock - window)
    && forall i :: 0 <= i < |h| ==> h[i] <= clock
  }

  lemma RemembersLater(h: seq<int>, kept: seq<int>, clock: int, later: int, window: int)
    requires Remembers(h, kept, clock, window) && clock <= later
    ensures Remembers(h, kept, later, window)
  {
  }

  lemma RemembersNewFailure(h: seq<int>, kept: seq<int>, now: int, window: int)
    requires Remembers(h, kept, now, window)
    ensures Remembers(h + [now], kept + [now], now, window)
  {
  }

  /** Dropping the first entries that left the window leaves exactly the failures inside it. */
  lemma PruningLeavesRecent(h: seq<int>, kept: seq<int>, clock: int, now: int, window: int, first: nat)
    requires Remembers(h, kept, clock, window) && clock <= now && first <= |kept|
    requires forall i :: 0 <= i < first ==> kept[i] <= now - window
    requires first < |kept| ==> kept[first] > now - window
    ensures Remembers(h, kept[first..], now, window)
    ensures After(h, now - window) == kept[first..]
  {
    var cutoff, left := now - window, kept[first..];
    var gone := h[..|h| - |left|];
    PrunedFurther(h, kept, clock - window, cutoff, first);
    RestIsRecent(h, kept, cutoff, first);
    assert h == gone + left;
    AfterAppended(gone, left, cutoff);
    AfterOfExpired(gone, cutoff);
    AfterOfRecent(left, cutoff);
  }

  /** What is dropped on top of what was dropped before has expired too. */
  lemma PrunedFurther(h: seq<int>, kept: seq<int>, expired: int, cutoff: int, first: nat)
    requires Pruned(h, kept, expired) && expired <= cutoff && first <= |kept|
    requires forall i :: 0 <= i < first ==> kept[i] <= cutoff
    ensures Pruned(h, kept[first..], cutoff)
  {
    var before := |h| - |kept|;
    forall i | 0 <= i < before + first ensures h[i] <= cutoff {
      assert i >= before ==> h[i] == kept[i - before];
    }
  }

  lemma RestIsRecent(h: seq<int>, kept: seq<int>, cutoff: int, first: nat)
    requires Chronological(h) && first <= |kept| <= |h|
    requires forall i :: 0 <= i < |kept| ==> kept[i] == h[|h| - |kept| + i]
    requires first < |kept| ==> kept[first] > cutoff
    ensures forall i :: 0 <= i < |kept[first..]| ==> kept[first..][i] > cutoff
  {
    forall i | first <= i < |kept| ensures kept[i] > cutoff {
      assert kept[i] == h[|h| - |kept| + i] && kept[first] == h[|h| - |kept| + first];
    }
  }

  function Get(m: map<string, seq<int>>, key: string): seq<int> {
    if key in m then m[key] else []
  }

  /** The entries of every key agree with its history. */
  ghost predicate AllRemembered(history: map<string, seq<int>>, failures: map<string, seq<int>>, clock: int, window: int) {
    forall key :: Remembers(Get(history, key), Get(failures, key), clock, window)
  }

  /** One key gets new entries and a new history while time passes; the others keep theirs. */
  lemma OneKeyChanges(history: map<string, seq<int>>, failures: map<string, seq<int>>, clock: int, window: int, key: string,
                      history': map<string, seq<int>>, failures': map<string, seq<int>>, now: int)
    requires AllRemembered(history, failures, clock, window) && clock <= now
    requires forall k :: k != key ==> Get(history', k) == Get(history, k) && Get(failures', k) == Get(failures, k)
    requires Remembers(Get(history', key), Get(failures', key), now, window)
    ensures AllRemembered(history', failures', now, window)
  {
    forall k ensures Remembers(Get(history', k), Get(failures', k), now, window) {
      if k != key {
        RemembersLater(Get(history, k), Get(failures, k), clock, now, window);
      }
    }
  }

  /** The oldest failure inside the window; it decides when to come back. */
  ghost function Oldest(h: seq<int>, now: int, window: int): int
    requires After(h, now - window) != []
  {
    After(h, now - window)[0]
  }

  lemma {:induction false} AfterOldest(h: seq<int>, cutoff: int, t: int)
    requires Chronological(h) && After(h, cutoff) != [] && cutoff <= t < After(h, cutoff)[0]
    ensures After(h, t) == After(h, cutoff)
  {
    if h[0] > cutoff {
      AfterOfRecent(h, cutoff);
      AfterOfRecent(h, t);
    } else {
      AfterOldest(h[1..], cutoff, t);
    }
  }

  /** Before the announced time every attempt is refused, whatever else fails in between. */
  lemma NoEarlierRetry(h: seq<int>, more: seq<int>, now: int, window: int, maxFailures: int, t: int)
    requires Chronological(h) && maxFailures > 0 && !Allowed(h, now, window, maxFailures)
    requires now <= t < Oldest(h, now, window) + window
    ensures !Allowed(h + more, t, window, maxFailures)
  {
    AfterOldest(h, now - window, t - window);
    AfterAppended(h, more, t - window);
  }

  lemma {:induction false} OldestLeaves(h: seq<int>, cutoff: int)
    requires After(h, cutoff) != []
    ensures After(h, cutoff)[0] > cutoff
    ensures |After(h, After(h, cutoff)[0])| < |After(h, cutoff)|
  {
    if h[0] > cutoff {
      AfterShrinks(h[1..], cutoff, h[0]);
    } else {
      OldestLeaves(h[1..], cutoff);
      assert After(h, cutoff) == After(h[1..], cutoff);
    }
  }

  /**
   At the announced time, with no failure in between, the attempt is allowed exactly when fewer than
   the limit came after the oldest one; so always when exactly the limit were active.
   */
  lemma RetryIsExact(h: seq<int>, now: int, window: int, maxFailures: int)
    requires maxFailures > 0 && !Allowed(h, now, window, maxFailures)
    ensures var t := Oldest(h, now, window) + window;
      && t > now
      && (Allowed(h, t, window, maxFailures) <==> |After(h, Oldest(h, now, window))| < maxFailures)
      && (|After(h, now - window)| == maxFailures ==> Allowed(h, t, window, maxFailures))
  {
    OldestLeaves(h, now - window);
  }

  /** In order of time, the failures inside the window are those from some place on. */
  lemma {:induction false} AfterIsTail(h: seq<int>, cutoff: int) returns (n: nat)
    requires Chronological(h)
    ensures n <= |h| && After(h, cutoff) == h[n..]
    ensures forall i :: 0 <= i < n ==> h[i] <= cutoff
    ensures forall i :: n <= i < |h| ==> h[i] > cutoff
  {
    n := 0;
    if h != [] && h[0] <= cutoff {
      var rest := h[1..];
      assert Chronological(rest);
      var m := AfterIsTail(rest, cutoff);
      n := m + 1;
      forall i | 0 < i < |h|
        ensures h[i] == rest[i - 1]
      {
      }
    } else {
      AfterOfRecent(h, cutoff);
    }
  }

  /**
   An attempt is allowed exactly when fewer failures than the limit are recorded, or the one that many places
   from the end is at least a window old. Otherwise the announced time is a window after the first failure
   that is not.
   */
  lemma LimitIsExact(h: seq<int>, now: int, window: int, maxFailures: int)
    requires Chronological(h) && maxFailures > 0
    ensures Allowed(h, now, window, maxFailures) <==> |h| < maxFailures || h[|h| - maxFailures] + window <= now
    ensures !Allowed(h, now, window, maxFailures) ==>
              exists i :: 0 <= i < |h| && Oldest(h, now, window) == h[i] && now < h[i] + window
                          && forall j :: 0 <= j < i ==> h[j] + window <= now
  {
    var n := AfterIsTail(h, now - window);
    if !Allowed(h, now, window, maxFailures) {
      assert Oldest(h, now, window) == h[n];
    }
  }

  /** With more than the limit active, the announced time can be too early. */
  lemma RetryCanBeEarly()
    ensures var h := [1, 2, 3, 4];
      && !Allowed(h, 5, 10, 2) && Oldest(h, 5, 10) + 10 == 11 && !Allowed(h, 11, 10, 2)
  {
    var h := [1, 2, 3, 4];
    AfterOfRecent(h, -5);
    assert h == [1] + [2, 3, 4];
    AfterAppended([1], [2, 3, 4], 1);
    AfterOfRecent([2, 3, 4], 1);
  }

  /** How many entries at the front are at or before the cutoff. */
  method CountExpired(entries: seq<int>, cutoff: int) returns (first: nat)
    ensures first <= |entries| && forall i :: 0 <= i < first ==> entries[i] <= cutoff
    ensures first < |entries| ==> entries[first] > cutoff
  {
    first := 0;
    while first < |entries| && entries[first] <= cutoff
      invariant first <= |entries| && forall i :: 0 <= i < first ==> entries[i] <= cutoff
    {
      first := first + 1;
    }
  }

  class Limiter {
    const maxFailures: int
    const window: int
    var failures: map<string, seq<int>>
    /** Every failure since the last reset, per key, and the latest time anyone looked at the clock. */
    ghost var history: map<string, seq<int>>
    ghost var clock: int

    ghost function History(key: string): seq<int>
      reads this`history
    {
      Get(history, key)
    }

    ghost predicate Valid()
      reads this
    {
      maxFailures > 0 && window > 0 && AllRemembered(history, failures, clock, window)
    }

    constructor (maxFailures: int, window: int, ghost now: int)
      ensures Valid() && clock == now && history == map[]
      ensures this.maxFailures == (if maxFailures <= 0 then DEFAULT_MAX_FAILURES else maxFailures)
      ensures this.window == (if window <= 0 then DEFAULT_WINDOW else window)
    {
      this.maxFailures := if maxFailures <= 0 then DEFAULT_MAX_FAILURES else maxFailures;
      this.window := if window <= 0 then DEFAULT_WINDOW else window;
      failures, history, clock := map[], map[], now;
    }

    /** The failures of the key inside the window; the others are forgotten. */
    method Active(key: string, now: int) returns (entries: seq<int>)
      requires Valid() && clock <= now
      modifies this`failures, this`clock
      ensures Valid() && clock == now
      ensures entries == After(History(key), now - window)
      ensures failures == if entries == [] then old(failures) - {key} else old(failures)[key := entries]
    {
      entries := Get(failures, key);
      var first := CountExpired(entries, now - window);
      PruningLeavesRecent(History(key), entries, clock, now, window, first);
      entries := entries[first..];
      ghost var before, past := failures, clock;
      clock := now;
      failures := if entries == [] then failures - {key} else failures[key := entries];
      OneKeyChanges(history, before, past, window, key, history, failures, now);
    }

    /** Answers from the full history, and forgets only what can no longer matter. */
    method Allow(key: string, now: int) returns (ok: bool, retry: int)
      requires Valid() && clock <= now
      modifies this`failures, this`clock
      ensures Valid() && clock == now
      ensures ok <==> Allowed(History(key), now, window, maxFailures)
      ensures ok ==> retry == 0
      ensures !ok ==> retry > 0 && now + retry == Oldest(History(key), now, window) + window
    {
      var entries := Active(key, now);
      if |entries| < maxFailures {
        return true, 0;
      }
      OldestLeaves(History(key), now - window);
      retry := entries[0] + window - now;
      if retry < 0 {
        retry := 0;
      }
      return false, retry;
    }

    method RecordFailure(key: string, now: int)
      requires Valid() && clock <= now
      modifies this
      ensures Valid() && clock == now
      ensures history == old(history)[key := old(History(key)) + [now]]
    {
      var entries := Active(key, now);
      ghost var told, before := history, failures;
      history := history[key := History(key) + [now]];
      failures := failures[key := entries + [now]];
      assert Remembers(Get(told, key), Get(before, key), now, window);
      RemembersNewFailure(Get(told, key), entries, now, window);
      OneKeyChanges(told, before, now, window, key, history, failures, now);
    }

    method Reset(key: string)
      requires Valid()
      modifies this`failures, this`history
      ensures Valid() && history == old(history) - {key} && failures == old(failures) - {key}
    {
      ghost var told, before := history, failures;
      failures := failures - {key};
      history := history - {key};
      OneKeyChanges(told, before, clock, window, key, history, failures, clock);
    }
  }
}
