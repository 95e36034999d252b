/** No starvation: how often DequeueBatch can leave a ready claim behind. */
module Fairness {
  import opened Domain
  import opened Text
  import opened TimeText
  import opened StoreSpec
  import opened ClaimSystem
  import opened Lifecycle
  import opened Stability
  import opened Payouts

  /** Which claims DequeueBatch may prefer to claim `id`: those whose stored created_at sorts not
      after its own. */
  function Ahead(rows: seq<Claim>, id: nat): (flags: seq<bool>)
    requires id < |rows|
    ensures |flags| == |rows|
  {
    seq(|rows|, j requires 0 <= j < |rows| => CreatedNotAfter(rows[j], rows[id]))
  }

  function Ones(flags: seq<bool>): seq<int> {
    seq(|flags|, j requires 0 <= j < |flags| => One(flags[j]))
  }

  function Dequeues(hs: seq<History>, flags: seq<bool>): seq<int>
    requires |hs| == |flags|
  {
    seq(|hs|, j requires 0 <= j < |hs| => if flags[j] then hs[j].dequeues else 0)
  }

  function Retries(hs: seq<History>, flags: seq<bool>): seq<int>
    requires |hs| == |flags|
  {
    seq(|hs|, j requires 0 <= j < |hs| => if flags[j] then hs[j].retries else 0)
  }

  /** Each batch that passed the claim over took batchSize claims from ahead of it. */
  predicate Fair(cfg: Config, s: State, id: nat)
    requires WellShaped(s) && id < |s.db.requests|
  {
    FairShare(cfg.batchSize, s.history, Ahead(s.db.requests, id), id)
  }

  predicate FairShare(n: int, hs: seq<History>, flags: seq<bool>, id: nat)
    requires id < |hs| == |flags|
  {
    if n > 0 then hs[id].passedOver * n <= Sum(Dequeues(hs, flags)) else hs[id].passedOver == 0
  }

  /** Sums over a longer table: the old rows first. */
  lemma {:induction false} SumExtends(xs: seq<int>, ys: seq<int>)
    requires |xs| <= |ys| && forall i :: 0 <= i < |xs| ==> xs[i] <= ys[i]
    requires forall i :: 0 <= i < |ys| ==> ys[i] >= 0
    ensures Sum(xs) <= Sum(ys)
  {
    if |xs| == |ys| {
      SumMonotone(xs, ys);
    } else {
      SumExtends(xs, ys[..|ys| - 1]);
    }
  }

  /** The order of two claims is settled by their immutable creation times. */
  lemma AheadStable(rows: seq<Claim>, rows': seq<Claim>, id: nat)
    requires id < |rows| <= |rows'|
    requires forall j :: 0 <= j < |rows| ==> rows'[j].createdAt == rows[j].createdAt
    ensures Ahead(rows, id) <= Ahead(rows', id)
  {
    forall j | 0 <= j < |rows| ensures Ahead(rows, id)[j] == Ahead(rows', id)[j] {
      assert rows'[j].createdAt == rows[j].createdAt && rows'[id].createdAt == rows[id].createdAt;
    }
  }

  lemma FairShareGrows(n: int, hs: seq<History>, hs': seq<History>, flags: seq<bool>, flags': seq<bool>, id: nat)
    requires id < |hs| == |flags| && |hs'| == |flags'| && flags <= flags'
    requires forall j :: 0 <= j < |hs| ==> hs[j].dequeues <= hs'[j].dequeues
    requires hs'[id].passedOver == hs[id].passedOver && FairShare(n, hs, flags, id)
    ensures FairShare(n, hs', flags', id)
  {
    SumExtends(Dequeues(hs, flags), Dequeues(hs', flags'));
  }

  lemma FairQuietStep(cfg: Config, s: State, s': State, id: nat)
    requires Stable(s, s') && QueueQuiet(s, s') && id < |s.db.requests| && Fair(cfg, s, id)
    ensures Fair(cfg, s', id)
  {
    forall j | 0 <= j < |s.db.requests| ensures s'.db.requests[j].createdAt == s.db.requests[j].createdAt {
      assert Follows(s, s', j);
    }
    AheadStable(s.db.requests, s'.db.requests, id);
    FairShareGrows(cfg.batchSize, s.history, s'.history,
                   Ahead(s.db.requests, id), Ahead(s'.db.requests, id), id);
  }

  lemma PickedAreAhead(rows: seq<Claim>, now: nat, n: int, picks: seq<nat>, id: nat)
    requires IsBatch(rows, now, n, picks) && id < |rows| && id !in picks && Ready(rows[id], now) && n > 0
    ensures |picks| == n && forall k :: 0 <= k < |picks| ==> picks[k] < |rows| && Ahead(rows, id)[picks[k]]
  {
    hide StampedNotAfter;
    forall k | 0 <= k < |picks| ensures Ahead(rows, id)[picks[k]] {
      assert CreatedNotAfter(rows[picks[k]], rows[id]);
    }
  }

  /** The batch took n claims from ahead of `id`. */
  lemma PassedOver(n: int, hs: seq<History>, hs': seq<History>, flags: seq<bool>, picks: seq<nat>, id: nat)
    requires n > 0 && |picks| == n && Distinct(picks) && id < |hs| == |hs'| == |flags|
    requires forall k :: 0 <= k < |picks| ==> picks[k] < |hs| && flags[picks[k]]
    requires forall j :: 0 <= j < |hs| ==> hs'[j].dequeues == hs[j].dequeues + if j in picks then 1 else 0
    requires hs'[id].passedOver == hs[id].passedOver + 1 && FairShare(n, hs, flags, id)
    ensures FairShare(n, hs', flags, id)
  {
    var xs, ys := Dequeues(hs, flags), Dequeues(hs', flags);
    forall j | 0 <= j < |xs| ensures ys[j] == xs[j] + if j in picks then 1 else 0 {
      if k :| 0 <= k < |picks| && picks[k] == j {
        assert flags[j];
      }
    }
    SumIncrements(xs, ys, picks);
    assert hs'[id].passedOver * n == hs[id].passedOver * n + n;
  }

  lemma DequeueNotes(cfg: Config, s: State, picks: seq<nat>, now: nat)
    requires WellShaped(s) && cfg.batchSize > 0
    ensures var hs, hs' := s.history, NextDequeue(cfg, s, picks, now).history;
            && |hs'| == |hs|
            && (forall j :: 0 <= j < |hs| ==> hs'[j].dequeues == hs[j].dequeues + if j in picks then 1 else 0)
            && (forall j :: 0 <= j < |hs| ==>
                  hs'[j].passedOver == hs[j].passedOver + One(j !in picks && Ready(s.db.requests[j], now)))
  {
    var hs' := NextDequeue(cfg, s, picks, now).history;
    assert forall j :: 0 <= j < |hs'| ==> hs'[j] == DequeueNote(s, picks, now, j);
  }

  lemma AheadAfterDequeue(cfg: Config, s: State, picks: seq<nat>, now: nat, id: nat)
    requires WellShaped(s) && id < |s.db.requests| && cfg.batchSize > 0
    ensures Ahead(NextDequeue(cfg, s, picks, now).db.requests, id) == Ahead(s.db.requests, id)
  {
    AheadStable(s.db.requests, NextDequeue(cfg, s, picks, now).db.requests, id);
  }

  lemma FairDequeue(cfg: Config, s: State, picks: seq<nat>, now: nat, id: nat)
    requires WellShaped(s) && IsBatch(s.db.requests, now, cfg.batchSize, picks) && cfg.batchSize > 0
    requires id < |s.db.requests| && Fair(cfg, s, id)
    ensures Fair(cfg, NextDequeue(cfg, s, picks, now), id)
  {
    hide StampedNotAfter;
    var hs' := NextDequeue(cfg, s, picks, now).history;
    var flags := Ahead(s.db.requests, id);
    assert FairShare(cfg.batchSize, hs', flags, id) by {
      DequeueNotes(cfg, s, picks, now);
      if id in picks || !Ready(s.db.requests[id], now) {
        FairShareGrows(cfg.batchSize, s.history, hs', flags, flags, id);
      } else {
        PickedAreAhead(s.db.requests, now, cfg.batchSize, picks, id);
        PassedOver(cfg.batchSize, s.history, hs', flags, picks, id);
      }
    }
    AheadAfterDequeue(cfg, s, picks, now, id);
  }

  lemma FairNew(cfg: Config, s: State, id: nat)
    requires WellShaped(s) && id < |s.db.requests| && s.history[id].passedOver == 0
    ensures Fair(cfg, s, id)
  {
    SumNonNegative(Dequeues(s.history, Ahead(s.db.requests, id)));
  }

  lemma FairStep(cfg: Config, s: State, step: Step, id: nat)
    requires WellShaped(s) && (id < |s.db.requests| ==> Fair(cfg, s, id))
    requires id < |Next(cfg, s, step).db.requests|
    ensures WellShaped(Next(cfg, s, step)) && Fair(cfg, Next(cfg, s, step), id)
  {
    var s' := Next(cfg, s, step);
    StableStep(cfg, s, step);
    if id >= |s.db.requests| {
      StableAdmit(cfg, s, step);
      FairNew(cfg, s', id);
    } else if step.Dequeue? && Enabled(cfg, s, step) && cfg.batchSize > 0 {
      FairDequeue(cfg, s, step.picks, step.now, id);
    } else {
      assert s' == s || QueueQuiet(s, s');
      FairQuietStep(cfg, s, s', id);
    }
  }

  lemma {:induction false} FairRun(cfg: Config, steps: seq<Step>, id: nat)
    requires Exists(cfg, steps, id)
    ensures WellShaped(Run(cfg, steps)) && Fair(cfg, Run(cfg, steps), id)
  {
    if steps != [] {
      var init := steps[..|steps| - 1];
      Reachable(cfg, init);
      if Exists(cfg, init, id) {
        FairRun(cfg, init, id);
      }
      FairStep(cfg, Run(cfg, init), steps[|steps| - 1], id);
    }
  }

  /** No starvation: if n is the batch size and S the claims whose stored created_at sorts not
      after that of `id`, then `id` is passed over at most |S| * max(1, MaxRetries) / n times,
      each operator retry on a claim of S counting as one more attempt. */
  lemma NoStarvation(cfg: Config, steps: seq<Step>, id: nat)
    requires Exists(cfg, steps, id) && cfg.batchSize > 0
    ensures WellShaped(Run(cfg, steps))
    ensures var s := Run(cfg, steps);
            s.history[id].passedOver * cfg.batchSize <=
              Max(1, cfg.maxRetries) * Sum(Ones(Ahead(s.db.requests, id)))
              + Sum(Retries(s.history, Ahead(s.db.requests, id)))
  {
    FairRun(cfg, steps, id);
    var s := Run(cfg, steps);
    forall j | 0 <= j < |s.db.requests|
      ensures s.history[j].dequeues <= Max(1, cfg.maxRetries) + s.history[j].retries
    {
      BoundedAttempts(cfg, steps, j);
    }
    var flags := Ahead(s.db.requests, id);
    SumBound(Dequeues(s.history, flags), Ones(flags), Retries(s.history, flags), Max(1, cfg.maxRetries));
  }

  lemma {:induction false} SumBound(xs: seq<int>, ones: seq<int>, extra: seq<int>, m: int)
    requires |xs| == |ones| == |extra|
    requires forall i :: 0 <= i < |xs| ==> ones[i] in {0, 1} && xs[i] <= (if ones[i] == 1 then m else 0) + extra[i]
    ensures Sum(xs) <= m * Sum(ones) + Sum(extra)
  {
    if xs != [] {
      var n := |xs| - 1;
      SumBound(xs[..n], ones[..n], extra[..n], m);
      assert m * Sum(ones) == m * Sum(ones[..n]) + m * ones[n];
    }
  }

  /** Nobody created a second or more after a claim is ever ahead of it, so with a clock that
      does not run back the set S stops growing one second after the claim was created. */
  lemma AheadMeansOlder(rows: seq<Claim>, id: nat, j: nat)
    requires id < |rows| && j < |rows| && Ahead(rows, id)[j] && InRange(rows[j].createdAt)
    ensures rows[j].createdAt < rows[id].createdAt + SECOND
  {
    TextSkewUnderOneSecond(rows[j].createdAt, rows[id].createdAt);
  }

  /** A batch holds ready claims only, each once, at most as many as asked for, oldest first up to less
      than a second; and what it leaves out although ready is not older than what it took. */
  lemma BatchIsOldestFirst(rows: seq<Claim>, now: nat, n: int, picks: seq<nat>, a: nat, b: nat, left: nat)
    requires IsBatch(rows, now, n, picks) && a < b < |picks| && left < |rows|
    requires forall i :: 0 <= i < |rows| ==> InRange(rows[i].createdAt)
    ensures picks[a] < |rows| && picks[b] < |rows| && picks[a] != picks[b] && |picks| <= n
    ensures rows[picks[a]].status == Queued && rows[picks[a]].createdAt < rows[picks[b]].createdAt + SECOND
    ensures left !in picks && Ready(rows[left], now) ==> |picks| == n && rows[picks[a]].createdAt < rows[left].createdAt + SECOND
  {
    hide FormatTime;
    assert Ready(rows[picks[a]], now);
    assert CreatedNotAfter(rows[picks[a]], rows[picks[b]]);
    TextSkewUnderOneSecond(rows[picks[a]].createdAt, rows[picks[b]].createdAt);
    if left !in picks && Ready(rows[left], now) {
      assert CreatedNotAfter(rows[picks[a]], rows[left]);
      TextSkewUnderOneSecond(rows[picks[a]].createdAt, rows[left].createdAt);
    }
  }
}
