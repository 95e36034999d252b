/** Which claims the watcher dead-letters as stuck: only those that have been 'sending' for long, and
    all of those while they fit its limit. */
module Reconciliation {
  import opened Domain
  import opened Text
  import opened TimeText
  import opened StoreSpec
  import opened ClaimSystem
  import opened Lifecycle
  import opened Payouts
  import opened Confirmations

  predicate IsSending(s: State, id: nat) {
    id < |s.db.requests| && s.db.requests[id].status == Sending
  }

  /** The step left row `id` as it was. */
  predicate SameRow(s: State, s': State, id: nat) {
    id < |s.db.requests| && id < |s'.db.requests| && s'.db.requests[id] == s.db.requests[id]
  }

  // ---- How a claim comes to be 'sending' ----

  lemma DequeueSends(cfg: Config, s: State, picks: seq<nat>, now: nat, id: nat)
    requires WellShaped(s) && IsSending(NextDequeue(cfg, s, picks, now), id)
    ensures var s' := NextDequeue(cfg, s, picks, now);
            SameRow(s, s', id) || (id in picks && s'.db.requests[id].updatedAt == now)
  {
    hide Ready;
  }

  lemma OtherWorkDoesNot(cfg: Config, s: State, outcome: SendOutcome, ok: bool, now: nat, id: nat)
    requires WellShaped(s)
    ensures s.worker.Batch? && s.worker.todo != [] && s.worker.todo[0] < |s.db.requests| && IsSending(NextSend(s, outcome), id) ==>
              SameRow(s, NextSend(s, outcome), id)
    ensures s.worker.Acking? && IsSending(NextAck(s, ok, now), id) ==> SameRow(s, NextAck(s, ok, now), id)
    ensures s.worker.FailRead? && IsSending(NextWriteFail(cfg, s, ok), id) ==> SameRow(s, NextWriteFail(cfg, s, ok), id)
  {
    hide WrittenOff;
  }

  lemma WorkerSends(cfg: Config, s: State, step: Step, id: nat)
    requires Enabled(cfg, s, step) && WorkerStep(step) && IsSending(Take(cfg, s, step), id)
    ensures var s' := Take(cfg, s, step);
            SameRow(s, s', id) || (step.Dequeue? && id in step.picks && s'.db.requests[id].updatedAt == step.now)
  {
    hide IsBatch, NextDequeue, NextSend, NextAck, NextWriteFail;
    if step.Dequeue? {
      DequeueSends(cfg, s, step.picks, step.now, id);
    } else if step.Send? {
      OtherWorkDoesNot(cfg, s, step.outcome, true, 0, id);
    } else if step.Ack? {
      OtherWorkDoesNot(cfg, s, SendOk(None), step.ok, step.now, id);
    } else if step.WriteFail? {
      OtherWorkDoesNot(cfg, s, SendOk(None), step.ok, 0, id);
    }
  }

  lemma WatcherDoesNotSend(cfg: Config, s: State, step: Step, id: nat)
    requires Enabled(cfg, s, step) && WatcherStep(step) && IsSending(Take(cfg, s, step), id)
    ensures SameRow(s, Take(cfg, s, step), id)
  {
    hide IsPendingList, IsStuckList, EnoughConfirmations, WrittenOff;
  }

  lemma ServiceDoesNotSend(cfg: Config, s: State, step: Step, id: nat)
    requires Enabled(cfg, s, step) && !WorkerStep(step) && !WatcherStep(step) && IsSending(Take(cfg, s, step), id)
    ensures SameRow(s, Take(cfg, s, step), id)
  {
    hide CreateFor, EnforceCampaign, WrittenOff, Consumable;
  }

  lemma SendingStep(cfg: Config, s: State, step: Step, id: nat)
    requires IsSending(Next(cfg, s, step), id)
    ensures var s' := Next(cfg, s, step);
            SameRow(s, s', id) || (step.Dequeue? && id in step.picks && s'.db.requests[id].updatedAt == step.now)
  {
    hide Take, Enabled;
    if Enabled(cfg, s, step) {
      if WorkerStep(step) {
        WorkerSends(cfg, s, step, id);
      } else if WatcherStep(step) {
        WatcherDoesNotSend(cfg, s, step, id);
      } else {
        ServiceDoesNotSend(cfg, s, step, id);
      }
    }
  }

  /** Step d dequeued the claim at t, and it has been 'sending' since, up to the end of the run. */
  predicate SendingSince(cfg: Config, steps: seq<Step>, id: nat, d: nat, t: nat) {
    && d < |steps| && steps[d].Dequeue? && id in steps[d].picks && steps[d].now == t
    && forall m :: d < m <= |steps| ==> SendingRow(Run(cfg, steps[..m]), id, t)
  }

  predicate SendingRow(s: State, id: nat, t: nat) {
    IsSending(s, id) && s.db.requests[id].updatedAt == t
  }

  /** A claim that is 'sending' was dequeued at the time in its updated_at, and not touched since. */
  lemma {:induction false} SendingIsDequeued(cfg: Config, steps: seq<Step>, id: nat) returns (d: nat)
    requires IsSending(Run(cfg, steps), id)
    ensures SendingSince(cfg, steps, id, d, Run(cfg, steps).db.requests[id].updatedAt)
  {
    hide Next;
    var n := |steps| - 1;
    var init, last := steps[..n], steps[n];
    var s, s' := Run(cfg, init), Run(cfg, steps);
    SendingStep(cfg, s, last, id);
    assert steps[..n + 1] == steps;
    if SameRow(s, s', id) {
      d := SendingIsDequeued(cfg, init, id);
      hide Run;
      forall m | d < m <= |steps|
        ensures SendingRow(Run(cfg, steps[..m]), id, s'.db.requests[id].updatedAt)
      {
        if m <= n {
          assert steps[..m] == init[..m];
          assert SendingRow(Run(cfg, init[..m]), id, s.db.requests[id].updatedAt);
        }
      }
    } else {
      d := n;
      hide Run;
    }
  }

  // ---- Where the list comes from ----

  lemma ReconcilingStep(cfg: Config, s: State, step: Step)
    requires Next(cfg, s, step).watcher.Reconciling?
    ensures var stuck := Next(cfg, s, step).watcher.stuck;
            || (s.watcher.Reconciling? && forall x :: x in stuck ==> x in s.watcher.stuck)
            || (step.ListStuck? && Enabled(cfg, s, step) && stuck == step.picks)
  {
    hide Enabled, Take;
    if Enabled(cfg, s, step) {
      if WatcherStep(step) {
        ReconcilingWatcher(cfg, s, step);
      } else {
        WatcherStays(cfg, s, step);
      }
    }
  }

  lemma ReconcilingWatcher(cfg: Config, s: State, step: Step)
    requires Enabled(cfg, s, step) && WatcherStep(step) && Take(cfg, s, step).watcher.Reconciling?
    ensures var stuck := Take(cfg, s, step).watcher.stuck;
            || (s.watcher.Reconciling? && forall x :: x in stuck ==> x in s.watcher.stuck)
            || (step.ListStuck? && stuck == step.picks)
  {
    hide IsPendingList, IsStuckList, EnoughConfirmations, WrittenOff;
  }

  lemma WatcherStays(cfg: Config, s: State, step: Step)
    requires Enabled(cfg, s, step) && !WatcherStep(step)
    ensures Take(cfg, s, step).watcher == s.watcher
  {
    hide IsBatch, CreateFor, EnforceCampaign, WrittenOff, Consumable, Ready, AckAllowed;
  }

  /** Step l of the run listed everything that is still to be reconciled. */
  predicate ListedAt(cfg: Config, steps: seq<Step>, stuck: seq<nat>, l: nat) {
    && l < |steps| && steps[l].ListStuck? && Enabled(cfg, Run(cfg, steps[..l]), steps[l])
    && forall x :: x in stuck ==> x in steps[l].picks
  }

  lemma {:induction false} ListWasRead(cfg: Config, steps: seq<Step>) returns (l: nat)
    requires Run(cfg, steps).watcher.Reconciling?
    ensures ListedAt(cfg, steps, Run(cfg, steps).watcher.stuck, l)
  {
    hide Next, Enabled;
    var n := |steps| - 1;
    var init, last := steps[..n], steps[n];
    var s := Run(cfg, init);
    ReconcilingStep(cfg, s, last);
    if s.watcher.Reconciling? && forall x :: x in Run(cfg, steps).watcher.stuck ==> x in s.watcher.stuck {
      l := ListWasRead(cfg, init);
      assert init[..l] == steps[..l];
    } else {
      l := n;
    }
  }

  predicate ClockInRange(steps: seq<Step>) {
    forall m :: 0 <= m < |steps| && steps[m].Dequeue? ==> InRange(steps[m].now)
  }

  /** A claim is dead-lettered as stuck only if it had been 'sending' for stuckAfter, up to less than a
      second of text-order skew, when the watcher listed it: it was dequeued at some t, was 'sending'
      without a break from then until the list was read, and the list was read later than
      t + stuckAfter - 1s. */
  lemma DeadLetteredIsOld(cfg: Config, steps: seq<Step>, k: nat) returns (d: nat, l: nat)
    requires k < |steps| && steps[k].Reconcile? && Enabled(cfg, Run(cfg, steps[..k]), steps[k]) && ClockInRange(steps)
    ensures var id := Run(cfg, steps[..k]).watcher.stuck[0];
            && d < l < k && steps[d].Dequeue? && id in steps[d].picks && steps[l].ListStuck? && id in steps[l].picks
            && (forall m :: d < m <= l ==> IsSending(Run(cfg, steps[..m]), id))
            && steps[d].now + cfg.stuckAfter < steps[l].now + SECOND
  {
    ReconcileHas(cfg, Run(cfg, steps[..k]), steps[k]);
    hide Run, Enabled;
    var before := steps[..k];
    var id := Run(cfg, before).watcher.stuck[0];
    l := ListWasRead(cfg, before);
    assert before[..l] == steps[..l] && before[l] == steps[l];
    var listed := steps[..l];
    var s := Run(cfg, listed);
    StuckRow(cfg, s, steps[l], id);
    d := SendingIsDequeued(cfg, listed, id);
    assert listed[d] == steps[d];
    StuckTimeBound(cfg, s, steps[l], id);
    forall m | d < m <= l
      ensures IsSending(Run(cfg, steps[..m]), id)
    {
      assert listed[..m] == steps[..m];
      assert SendingRow(Run(cfg, listed[..m]), id, s.db.requests[id].updatedAt);
    }
  }

  lemma ReconcileHas(cfg: Config, s: State, step: Step)
    requires step.Reconcile? && Enabled(cfg, s, step)
    ensures s.watcher.Reconciling? && s.watcher.stuck != []
  {
  }

  lemma StuckRow(cfg: Config, s: State, step: Step, id: nat)
    requires step.ListStuck? && Enabled(cfg, s, step) && id in step.picks
    ensures IsSending(s, id)
  {
    hide StampedNotAfter;
    var k :| 0 <= k < |step.picks| && step.picks[k] == id;
    assert Stuck(s.db.requests[step.picks[k]], step.now - cfg.stuckAfter);
  }

  lemma StuckTimeBound(cfg: Config, s: State, step: Step, id: nat)
    requires step.ListStuck? && Enabled(cfg, s, step) && id in step.picks && IsSending(s, id)
    requires InRange(s.db.requests[id].updatedAt)
    ensures s.db.requests[id].updatedAt + cfg.stuckAfter < step.now + SECOND
  {
    hide FormatTime, CreatedNotAfter;
    var k :| 0 <= k < |step.picks| && step.picks[k] == id;
    assert Stuck(s.db.requests[step.picks[k]], step.now - cfg.stuckAfter);
    TextSkewUnderOneSecond(s.db.requests[id].updatedAt, step.now - cfg.stuckAfter);
  }

  // ---- What is listed ----

  /** The claims among the first n that are 'sending'. */
  function SendingAmong(rows: seq<Claim>, n: nat): seq<nat>
    requires n <= |rows|
  {
    if n == 0 then [] else SendingAmong(rows, n - 1) + if rows[n - 1].status == Sending then [n - 1] else []
  }

  lemma {:induction false} SendingAmongExact(rows: seq<Claim>, n: nat)
    requires n <= |rows|
    ensures Distinct(SendingAmong(rows, n))
    ensures forall i: nat :: i in SendingAmong(rows, n) <==> i < n && rows[i].status == Sending
  {
    if n > 0 {
      SendingAmongExact(rows, n - 1);
      DistinctAppend(SendingAmong(rows, n - 1), n - 1);
    }
  }

  lemma StuckTime(c: Claim, cutoff: nat)
    requires c.status == Sending && c.updatedAt + SECOND <= cutoff && InRange(cutoff)
    ensures Stuck(c, cutoff)
  {
    TextOrderOfSpaced(c.updatedAt, cutoff);
    NotBoth(FormatTime(c.updatedAt), FormatTime(cutoff));
  }

  /** While the claims that are 'sending' fit the limit, every list the query may return holds every
      claim that has been 'sending' since a second before the cutoff or longer. */
  lemma LongSendingIsListed(rows: seq<Claim>, cutoff: nat, limit: int, picks: seq<nat>, id: nat)
    requires IsStuckList(rows, cutoff, limit, picks) && |SendingAmong(rows, |rows|)| <= limit
    requires id < |rows| && rows[id].status == Sending && rows[id].updatedAt + SECOND <= cutoff && InRange(cutoff)
    ensures id in picks
  {
    hide StampedNotAfter;
    StuckTime(rows[id], cutoff);
    SendingAmongExact(rows, |rows|);
    forall x | x in picks
      ensures x in SendingAmong(rows, |rows|)
    {
      var k :| 0 <= k < |picks| && picks[k] == x;
      assert Stuck(rows[picks[k]], cutoff);
    }
    if id !in picks {
      FewerWithout(picks, SendingAmong(rows, |rows|), id);
    }
  }
}
