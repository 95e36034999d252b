/** The circuit breaker. It keeps only the events it still needs, filtering its slice in place;
    it is proved to decide as if it had kept every record since it was last cleared. */
module Breaker {

  /** The records after `cutoff`. */
  function After(records: seq<int>, cutoff: int): seq<int> {
    if records == [] then []
    else
      var n := |records| - 1;
      After(records[..n], cutoff) + if records[n] > cutoff then [records[n]] else []
  }

  /** The records in the window of the last one: itself, and those less than `window` before it. */
  function Live(records: seq<int>, window: int): seq<int> {
    if records == [] then []
    else
      var n := |records| - 1;
      After(records[..n], records[n] - window) + [records[n]]
  }

  /** Whether the k-th record brings the count in its window to the threshold. */
  predicate Trips(records: seq<int>, threshold: int, window: int, k: nat)
    requires k < |records|
  {
    |Live(records[..k + 1], window)| >= threshold
  }

  predicate Tripped(records: seq<int>, threshold: int, window: int) {
    exists k :: 0 <= k < |records| && Trips(records, threshold, window, k)
  }

  /** The last trip happened at `at`. */
  predicate LastTrip(records: seq<int>, threshold: int, window: int, at: int) {
    exists k :: 0 <= k < |records| && Trips(records, threshold, window, k) && records[k] == at
      && forall i :: k < i < |records| ==> !Trips(records, threshold, window, i)
  }

  predicate Sorted(records: seq<int>) {
    forall i, j :: 0 <= i < j < |records| ==> records[i] <= records[j]
  }

  /** The clock has not run back since the last record. */
  predicate NotBefore(records: seq<int>, now: int) {
    forall i :: 0 <= i < |records| ==> records[i] <= now
  }

  // ---- Facts about the filter ----

  lemma {:induction false} AfterAppend(xs: seq<int>, x: int, cutoff: int)
    ensures After(xs + [x], cutoff) == After(xs, cutoff) + if x > cutoff then [x] else []
  {
    assert (xs + [x])[..|xs|] == xs;
  }

  /** What an earlier cutoff threw away a later one would have thrown away too. */
  lemma {:induction false} AfterAfter(records: seq<int>, early: int, late: int)
    requires early <= late
    ensures After(After(records, early), late) == After(records, late)
  {
    if records != [] {
      var n := |records| - 1;
      AfterAfter(records[..n], early, late);
      var rest := After(records[..n], early);
      if records[n] > early {
        AfterAppend(rest, records[n], late);
      } else {
        assert rest + [] == rest;
      }
    }
  }

  lemma LiveAppend(records: seq<int>, window: int, now: int)
    ensures Live(records + [now], window) == After(records, now - window) + [now]
  {
    assert (records + [now])[..|records|] == records;
  }

  lemma LiveEmpty(window: int, cutoff: int)
    ensures Live([], window) == [] && After([], cutoff) == []
  {
  }

  /** Filtering the kept events at the next record gives what filtering the whole history gives. */
  lemma LiveStep(records: seq<int>, window: int, now: int)
    requires NotBefore(records, now)
    ensures Live(records + [now], window) == After(Live(records, window), now - window) + [now]
  {
    hide Live, After;
    LiveAppend(records, window, now);
    LiveEmpty(window, now - window);
    if records != [] {
      var n := |records| - 1;
      var init, last := records[..n], records[n];
      assert records == init + [last];
      LiveAppend(init, window, last);
      AfterAppend(After(init, last - window), last, now - window);
      AfterAfter(init, last - window, now - window);
      AfterAppend(init, last, now - window);
    }
  }

  lemma EarlierTrips(records: seq<int>, now: int, threshold: int, window: int)
    ensures forall k :: 0 <= k < |records| ==>
              Trips(records + [now], threshold, window, k) == Trips(records, threshold, window, k)
    ensures Trips(records + [now], threshold, window, |records|) <==> |Live(records + [now], window)| >= threshold
  {
    hide Live;
    assert (records + [now])[..|records| + 1] == records + [now];
    forall k | 0 <= k < |records|
      ensures Trips(records + [now], threshold, window, k) == Trips(records, threshold, window, k)
    {
      assert (records + [now])[..k + 1] == records[..k + 1];
    }
  }

  /** How one record changes whether the history has tripped, and when it last did. */
  lemma TripStep(records: seq<int>, now: int, threshold: int, window: int, at: int)
    ensures var more := records + [now];
            var trips := |Live(more, window)| >= threshold;
            && (Tripped(more, threshold, window) <==> trips || Tripped(records, threshold, window))
            && (trips ==> LastTrip(more, threshold, window, now))
            && (!trips && LastTrip(records, threshold, window, at) ==> LastTrip(more, threshold, window, at))
  {
    hide Live, Trips;
    var more := records + [now];
    EarlierTrips(records, now, threshold, window);
    assert more[|records|] == now;
    assert Trips(more, threshold, window, |records|) ==> LastTrip(more, threshold, window, now);
    forall k | 0 <= k < |records| && Trips(records, threshold, window, k)
      ensures Trips(more, threshold, window, k)
    {
    }
    if !Trips(more, threshold, window, |records|) && LastTrip(records, threshold, window, at) {
      var k :| 0 <= k < |records| && Trips(records, threshold, window, k) && records[k] == at
        && forall i :: k < i < |records| ==> !Trips(records, threshold, window, i);
      assert more[k] == at;
    }
  }

  // ---- The breaker ----

  class CircuitBreaker {
    const threshold: int
    const window: int
    var events: array<int>
    var len: nat
    var open: bool
    var openedAt: int
    /** Every record since the last clear. */
    ghost var records: seq<int>

    ghost predicate Valid()
      reads this, events
    {
      && len <= events.Length
      && events[..len] == Live(records, window)
      && Sorted(records)
      && (open <==> Tripped(records, threshold, window))
      && (open ==> LastTrip(records, threshold, window, openedAt))
    }

    constructor (threshold: int, window: int)
      ensures Valid() && records == [] && fresh(events)
      ensures this.threshold == threshold && this.window == window
    {
      this.threshold, this.window := threshold, window;
      events := new int[0];
      len, open, openedAt, records := 0, false, 0, [];
    }

    /** Drops the events at or before `cutoff`, in place. */
    method Evict(cutoff: int)
      requires len <= events.Length
      modifies this`len, events
      ensures len <= events.Length && events[..len] == After(old(events[..len]), cutoff)
    {
      hide After;
      ghost var was := events[..len];
      LiveEmpty(0, cutoff);
      var kept := 0;
      for i := 0 to len
        invariant kept <= i && len == |was|
        invariant events[..kept] == After(was[..i], cutoff)
        invariant events[i..len] == was[i..]
      {
        assert was[..i + 1] == was[..i] + [was[i]];
        AfterAppend(was[..i], was[i], cutoff);
        var t := events[i];
        assert t == events[i..len][0] == was[i..][0];
        assert events[i + 1..len] == events[i..len][1..] && was[i + 1..] == was[i..][1..];
        if t > cutoff {
          events[kept] := t;
          kept := kept + 1;
        }
      }
      assert was[..len] == was;
      len := kept;
    }

    /** append(events[:len], now), growing the buffer when it is full. */
    method Append(now: int)
      requires len <= events.Length
      modifies this`len, this`events, events
      ensures len <= events.Length && (events == old(events) || fresh(events))
      ensures events[..len] == old(events[..len]) + [now]
    {
      ghost var was := events[..len];
      if len == events.Length {
        var source := events;
        var bigger := new int[2 * len + 1](_ => 0);
        for i := 0 to source.Length
          invariant bigger[..i] == was[..i]
          invariant source[..] == was && events == source && len == source.Length
        {
          bigger[i] := source[i];
        }
        events := bigger;
      }
      events[len] := now;
      len := len + 1;
    }

    method Record(now: int) returns (isOpen: bool)
      requires Valid() && NotBefore(records, now)
      modifies this, events
      ensures Valid() && records == old(records) + [now] && (events == old(events) || fresh(events))
      ensures isOpen == Tripped(records, threshold, window)
      ensures open == isOpen
    {
      hide Tripped, LastTrip, Live, Trips;
      LiveStep(records, window, now);
      TripStep(records, now, threshold, window, openedAt);
      Evict(now - window);
      Append(now);
      records := records + [now];
      if len >= threshold {
        open := true;
        openedAt := now;
      }
      isOpen := open;
    }

    /** Reports open exactly when some record since the last clear has tripped and its window has
        not passed; a passed window clears the breaker. */
    method IsOpen(now: int) returns (isOpen: bool)
      requires Valid()
      modifies this`open, this`len, this`records
      ensures Valid()
      ensures isOpen <==> exists at :: LastTrip(old(records), threshold, window, at) && now <= at + window
      ensures records == if isOpen || !Tripped(old(records), threshold, window) then old(records) else []
    {
      LastTripUnique(records, threshold, window, openedAt);
      if !open {
        return false;
      }
      if now > openedAt + window {
        open, len, records := false, 0, [];
        return false;
      }
      return true;
    }

    method Reset()
      requires Valid()
      modifies this`open, this`len, this`records
      ensures Valid() && records == [] && !open
    {
      open, len, records := false, 0, [];
    }
  }

  lemma LastTripUnique(records: seq<int>, threshold: int, window: int, a: int)
    ensures forall b :: LastTrip(records, threshold, window, a) && LastTrip(records, threshold, window, b) ==> a == b
    ensures forall b :: LastTrip(records, threshold, window, b) ==> Tripped(records, threshold, window)
  {
    hide Trips;
  }

  // ---- When a record trips ----

  lemma {:induction false} AfterSorted(records: seq<int>, cutoff: int)
    requires Sorted(records)
    ensures |After(records, cutoff)| <= |records|
    ensures forall i :: 0 <= i < |records| ==> (records[i] > cutoff <==> i >= |records| - |After(records, cutoff)|)
  {
    if records != [] {
      var n := |records| - 1;
      AfterSorted(records[..n], cutoff);
      if records[n] > cutoff {
        assert forall i :: 0 <= i < n ==> records[i] == records[..n][i];
      } else {
        assert forall i :: 0 <= i < n ==> records[..n][i] <= records[n];
      }
    }
  }

  /** On a clock that does not run back, the k-th record trips exactly when the record
      `threshold - 1` places before it exists and is less than a window old. */
  lemma TripsExactly(records: seq<int>, threshold: int, window: int, k: nat)
    requires Sorted(records) && k < |records|
    ensures Trips(records, threshold, window, k) <==>
            threshold <= 1 || (threshold - 1 <= k && records[k] - records[k + 1 - threshold] < window)
  {
    hide After;
    var upTo, before := records[..k + 1], records[..k];
    assert upTo == before + [records[k]];
    LiveAppend(before, window, records[k]);
    AfterSorted(before, records[k] - window);
    assert forall i :: 0 <= i < k ==> before[i] == records[i];
  }
}
