/** The fixed-window rate limiter over the rate_limits table. Times are nanoseconds since the
    Unix epoch. */
module RateLimit {
  import opened Text
  import opened TimeText

  datatype Decision = Decision(allowed: bool, remaining: nat, retryAfter: nat)

  /** A call of Allow: its key, its window length in whole seconds and when it was made. */
  datatype Hit = Hit(key: string, windowSecs: nat, at: nat)

  /** The index of the epoch-aligned window of an instant. */
  function WindowOf(at: nat, windowSecs: nat): nat
    requires windowSecs > 0
  {
    at / SECOND / windowSecs
  }

  predicate Falls(h: Hit, key: string, windowSecs: nat, w: nat)
    requires windowSecs > 0
  {
    h.key == key && h.windowSecs == windowSecs && WindowOf(h.at, windowSecs) == w
  }

  function CountIn(hits: seq<Hit>, key: string, windowSecs: nat, w: nat): nat
    requires windowSecs > 0
  {
    if hits == [] then 0
    else CountIn(hits[..|hits| - 1], key, windowSecs, w) + if Falls(hits[|hits| - 1], key, windowSecs, w) then 1 else 0
  }

  class RateLimiter {
    /** (key, window start in seconds, window seconds) -> count. */
    var counts: map<(string, nat, nat), nat>
    ghost var hits: seq<Hit>

    ghost predicate Valid()
      reads this
    {
      forall key: string, secs: nat, w: nat {:trigger CountIn(hits, key, secs, w)} ::
        secs > 0 ==> Stored(counts, key, secs, w) == CountIn(hits, key, secs, w)
    }

    constructor ()
      ensures Valid() && hits == []
    {
      counts, hits := map[], [];
    }

    /** Counts the call and decides. `window` is at least a second: the code divides by its
        whole seconds. */
    method Allow(key: string, limit: int, window: nat, now: nat) returns (d: Decision)
      requires Valid() && window >= SECOND
      modifies this
      ensures Valid() && hits == old(hits) + [Hit(key, window / SECOND, now)]
      ensures d.allowed == (CountIn(hits, key, window / SECOND, WindowOf(now, window / SECOND)) <= limit)
      ensures !d.allowed ==> d.retryAfter == RetryAfter(window, now)
      ensures d.remaining == Clamp(limit - CountIn(hits, key, window / SECOND, WindowOf(now, window / SECOND)))
    {
      var secs := window / SECOND;
      var w := WindowOf(now, secs);
      var start := w * secs;
      var count := Stored(counts, key, secs, w) + 1;
      ghost var before := counts;
      counts := counts[(key, start, secs) := count];
      hits := hits + [Hit(key, secs, now)];
      forall k: string, s: nat, v: nat | s > 0
        ensures Stored(counts, k, s, v) == CountIn(hits, k, s, v)
      {
        assert hits[..|hits| - 1] == old(hits);
        assert Stored(before, k, s, v) == CountIn(old(hits), k, s, v);
        if (k, v * s, s) == (key, start, secs) {
          SameWindow(v, w, s);
        }
      }
      d := Decision(count <= limit, Clamp(limit - count), if count <= limit then 0 else RetryAfter(window, now));
    }
  }

  function Stored(counts: map<(string, nat, nat), nat>, key: string, secs: nat, w: nat): nat {
    if (key, w * secs, secs) in counts then counts[(key, w * secs, secs)] else 0
  }

  lemma SameWindow(v: nat, w: nat, s: nat)
    requires s > 0 && v * s == w * s
    ensures v == w
  {
    assert (v - w) * s == 0 && (w - v) * s == 0;
    AtLeastOne(v - w, s);
    AtLeastOne(w - v, s);
  }

  function Clamp(x: int): nat {
    if x < 0 then 0 else x
  }

  /** Time from `now` to the end of its window. */
  function RetryAfter(window: nat, now: nat): nat
    requires window >= SECOND
  {
    var secs := window / SECOND;
    Clamp(WindowOf(now, secs) * secs * SECOND + window - now)
  }

  // ---- A fixed limit over a whole history ----

  /** Whether the k-th call was allowed. */
  predicate AllowedAt(hits: seq<Hit>, limit: nat, k: nat)
    requires k < |hits| && hits[k].windowSecs > 0
  {
    CountIn(hits[..k + 1], hits[k].key, hits[k].windowSecs, WindowOf(hits[k].at, hits[k].windowSecs)) <= limit
  }

  predicate Windowed(hits: seq<Hit>) {
    forall k :: 0 <= k < |hits| ==> hits[k].windowSecs > 0
  }

  function AllowedIn(hits: seq<Hit>, limit: nat, key: string, secs: nat, w: nat): nat
    requires secs > 0 && Windowed(hits)
  {
    if hits == [] then 0
    else
      var n := |hits| - 1;
      AllowedIn(hits[..n], limit, key, secs, w) + if Falls(hits[n], key, secs, w) && AllowedAt(hits, limit, n) then 1 else 0
  }

  function Min(a: nat, b: nat): nat { if a <= b then a else b }

  /** Each key gets exactly min(calls, limit) allowed calls in each aligned window. */
  lemma {:induction false} ExactlyTheLimit(hits: seq<Hit>, limit: nat, key: string, secs: nat, w: nat)
    requires secs > 0 && Windowed(hits)
    ensures AllowedIn(hits, limit, key, secs, w) == Min(CountIn(hits, key, secs, w), limit)
  {
    if hits != [] {
      var n := |hits| - 1;
      ExactlyTheLimit(hits[..n], limit, key, secs, w);
      assert hits[..n + 1] == hits;
    }
  }

  /** Allowed calls of a key with start <= at < start + secs. */
  function AllowedBetween(hits: seq<Hit>, limit: nat, key: string, secs: nat, start: nat): nat
    requires secs > 0 && Windowed(hits)
  {
    if hits == [] then 0
    else
      var n := |hits| - 1;
      AllowedBetween(hits[..n], limit, key, secs, start)
      + if hits[n].key == key && hits[n].windowSecs == secs && start <= hits[n].at < start + secs * SECOND
           && AllowedAt(hits, limit, n) then 1 else 0
  }

  /** An interval of one window length meets at most two aligned windows. */
  lemma TwoWindows(start: nat, at: nat, secs: nat)
    requires secs > 0 && start <= at < start + secs * SECOND
    ensures WindowOf(at, secs) == WindowOf(start, secs) || WindowOf(at, secs) == WindowOf(start, secs) + 1
  {
    var a, b := start / SECOND, at / SECOND;
    assert a <= b <= a + secs by {
      assert start + secs * SECOND < (a + 1) * SECOND + secs * SECOND;
      assert at < (a + 1 + secs) * SECOND;
    }
    DivStep(a, b, secs);
  }

  lemma DivStep(a: nat, b: nat, m: nat)
    requires m > 0 && a <= b <= a + m
    ensures a / m <= b / m <= a / m + 1
  {
    var q, r := a / m, b / m;
    assert q * m <= a < q * m + m && r * m <= b < r * m + m;
    assert (r - q) * m == r * m - q * m;
    AtLeastOne(q - r, m);
    AtLeastOne(r - q - 1, m);
    assert (q - r) * m == q * m - r * m && (r - q - 1) * m == r * m - q * m - m;
  }

  lemma {:induction false} BetweenSplits(hits: seq<Hit>, limit: nat, key: string, secs: nat, start: nat)
    requires secs > 0 && Windowed(hits)
    ensures var w := WindowOf(start, secs);
            AllowedBetween(hits, limit, key, secs, start)
              <= AllowedIn(hits, limit, key, secs, w) + AllowedIn(hits, limit, key, secs, w + 1)
  {
    if hits != [] {
      var n := |hits| - 1;
      BetweenSplits(hits[..n], limit, key, secs, start);
      if start <= hits[n].at < start + secs * SECOND {
        TwoWindows(start, hits[n].at, secs);
      }
    }
  }

  /** No interval of window length sees more than twice the limit. */
  lemma AtMostTwiceTheLimit(hits: seq<Hit>, limit: nat, key: string, secs: nat, start: nat)
    requires secs > 0 && Windowed(hits)
    ensures AllowedBetween(hits, limit, key, secs, start) <= 2 * limit
  {
    var w := WindowOf(start, secs);
    BetweenSplits(hits, limit, key, secs, start);
    ExactlyTheLimit(hits, limit, key, secs, w);
    ExactlyTheLimit(hits, limit, key, secs, w + 1);
  }

  // ---- What a refused caller is told ----

  /** Whole seconds reported to the caller: the rest of the window rounded up, at least one. */
  function ReportedSeconds(retryAfter: nat): nat {
    var s := (retryAfter + SECOND - 1) / SECOND;
    if s < 1 then 1 else s
  }

  /** A refusal names a wait within the window, and waiting the reported seconds always ends in a
      later window. */
  lemma RetryAfterIsHonest(window: nat, now: nat)
    requires window >= SECOND
    ensures 0 < RetryAfter(window, now) <= window
    ensures var secs := window / SECOND;
            WindowOf(now + ReportedSeconds(RetryAfter(window, now)) * SECOND, secs) > WindowOf(now, secs)
  {
    var secs := window / SECOND;
    var second := now / SECOND;
    var w := second / secs;
    assert w * secs <= second < w * secs + secs;
    assert w * secs * SECOND <= second * SECOND <= now < second * SECOND + SECOND;
    assert (second + 1) * SECOND <= (w * secs + secs) * SECOND;
    assert secs * SECOND <= window;
    var later := now + ReportedSeconds(RetryAfter(window, now)) * SECOND;
    assert later >= w * secs * SECOND + window;
    assert later >= (w * secs + secs) * SECOND;
    LaterWindow(later, w, secs);
  }

  lemma LaterWindow(later: nat, w: nat, secs: nat)
    requires secs > 0 && later >= (w * secs + secs) * SECOND
    ensures WindowOf(later, secs) > w
  {
    var second := later / SECOND;
    assert second >= (w + 1) * secs;
    var v := second / secs;
    assert second < v * secs + secs;
    assert (w - v + 1) * secs == (w + 1) * secs - v * secs;
    AtLeastOne(w - v + 1, secs);
  }
}
