/** What no step of the claim system ever changes: rows are never removed, a claim keeps its
    identity, its history only grows, and a budget's net charge only grows by an insert. */
module Stability {
  import opened Domain
  import opened Text
  import opened StoreSpec
  import opened ClaimSystem
  import opened Lifecycle

  predicate SameIdentity(a: Claim, b: Claim) {
    b == a.(status := b.status, retryCount := b.retryCount, nextAttemptAt := b.nextAttemptAt, updatedAt := b.updatedAt)
  }

  /** +1 while the claim is not written off, -1 for every time it was moved back from that. */
  function Net(c: Claim, h: History): int {
    One(!WrittenOff(c.status)) - h.revived
  }

  predicate Grown(h: History, h': History) {
    h.sends <= h'.sends && h.retries <= h'.retries && h.dequeues <= h'.dequeues && h.passedOver <= h'.passedOver
  }

  predicate Follows(s: State, s': State, id: nat)
    requires WellShaped(s) && WellShaped(s') && id < |s.db.requests| <= |s'.db.requests|
  {
    && SameIdentity(s.db.requests[id], s'.db.requests[id])
    && Grown(s.history[id], s'.history[id])
    && Net(s'.db.requests[id], s'.history[id]) <= Net(s.db.requests[id], s.history[id])
  }

  predicate Stable(s: State, s': State) {
    && WellShaped(s) && WellShaped(s') && |s.db.requests| <= |s'.db.requests|
    && forall i :: 0 <= i < |s.db.requests| ==> Follows(s, s', i)
  }

  /** No new rows. */
  predicate Steady(s: State, s': State) {
    Stable(s, s') && |s'.db.requests| == |s.db.requests|
  }

  /** Moreover no claim was dequeued or passed over. */
  predicate QueueQuiet(s: State, s': State) {
    && WellShaped(s) && WellShaped(s') && |s.db.requests| <= |s'.db.requests|
    && forall i :: 0 <= i < |s.db.requests| ==>
         s'.history[i].dequeues == s.history[i].dequeues && s'.history[i].passedOver == s.history[i].passedOver
  }

  predicate Quiet(s: State, s': State) {
    Steady(s, s') && QueueQuiet(s, s')
  }

  lemma QuietSame(s: State, s': State)
    requires WellShaped(s) && WellShaped(s') && s'.db.requests == s.db.requests && s'.history == s.history
    ensures Quiet(s, s')
  {
  }

  lemma QuietWrite(s: State, s': State, id: nat)
    requires WellShaped(s) && WellShaped(s') && id < |s.db.requests| == |s'.db.requests|
    requires s'.db.requests == s.db.requests[id := s'.db.requests[id]]
    requires s'.history == s.history[id := s'.history[id]]
    requires Follows(s, s', id)
    requires s'.history[id].dequeues == s.history[id].dequeues
    requires s'.history[id].passedOver == s.history[id].passedOver
    ensures Quiet(s, s')
  {
  }

  lemma QuietIntake(s: State, id: nat, ok: bool, now: nat)
    requires WellShaped(s) && id < |s.db.requests|
    ensures Quiet(s, NextConsume(s, id, ok))
    ensures Quiet(s, NextEnqueue(s, id, ok, now))
    ensures Quiet(s, NextReject(s, id, ok, now))
  {
    QuietWrite(s, NextConsume(s, id, ok), id);
    QuietWrite(s, NextEnqueue(s, id, ok, now), id);
    QuietWrite(s, NextReject(s, id, ok, now), id);
  }

  lemma QuietOperator(s: State, id: nat, now: nat)
    requires WellShaped(s) && id < |s.db.requests|
    ensures Quiet(s, NextRetry(s, id, now)) && Quiet(s, NextCancel(s, id, now))
  {
    QuietWrite(s, NextRetry(s, id, now), id);
    QuietWrite(s, NextCancel(s, id, now), id);
  }

  lemma QuietWriteFail(cfg: Config, s: State, ok: bool)
    requires WellShaped(s) && s.worker.FailRead?
    ensures Quiet(s, NextWriteFail(cfg, s, ok))
  {
    if s.worker.id < |s.db.requests| {
      QuietWrite(s, NextWriteFail(cfg, s, ok), s.worker.id);
    }
  }

  lemma QuietAck(s: State, ok: bool, now: nat)
    requires WellShaped(s) && s.worker.Acking?
    ensures Quiet(s, NextAck(s, ok, now))
  {
    if s.worker.id < |s.db.requests| {
      QuietWrite(s, NextAck(s, ok, now), s.worker.id);
    }
  }

  lemma QuietSend(s: State, outcome: SendOutcome)
    requires WellShaped(s) && s.worker.Batch? && s.worker.todo != [] && s.worker.todo[0] < |s.db.requests|
    ensures Quiet(s, NextSend(s, outcome))
  {
    QuietWrite(s, NextSend(s, outcome), s.worker.todo[0]);
  }

  lemma QuietReceipt(cfg: Config, s: State, receipt: Receipt, ok: bool, now: nat)
    requires WellShaped(s) && s.watcher.Receipts? && s.watcher.pending != []
    requires s.watcher.pending[0] < |s.db.transactions|
    ensures Quiet(s, NextCheckReceipt(cfg, s, receipt, ok, now))
  {
    var id := s.db.transactions[s.watcher.pending[0]].claimId;
    if id < |s.db.requests| {
      QuietWrite(s, NextCheckReceipt(cfg, s, receipt, ok, now), id);
    }
  }

  lemma QuietReconcile(s: State, ok: bool, now: nat)
    requires WellShaped(s) && s.watcher.Reconciling? && s.watcher.stuck != []
    ensures Quiet(s, NextReconcile(s, ok, now))
  {
    if s.watcher.stuck[0] < |s.db.requests| {
      QuietWrite(s, NextReconcile(s, ok, now), s.watcher.stuck[0]);
    }
  }

  lemma StableServiceStep(cfg: Config, s: State, step: Step)
    requires Enabled(cfg, s, step) && !WorkerStep(step) && !WatcherStep(step) && !step.Admit?
    ensures Quiet(s, Take(cfg, s, step))
  {
    if step.Consume? {
      QuietIntake(s, step.id, step.ok, 0);
    } else if step.Enqueue? || step.Reject? {
      QuietIntake(s, step.id, step.ok, step.now);
    } else if step.OperatorRetry? || step.OperatorCancel? {
      QuietOperator(s, step.id, step.now);
    } else {
      QuietSame(s, Take(cfg, s, step));
    }
  }

  lemma StableDequeue(cfg: Config, s: State, picks: seq<nat>, now: nat)
    requires WellShaped(s) && AllReady(s.db.requests, now, picks)
    ensures Steady(s, NextDequeue(cfg, s, picks, now))
  {
    forall i | 0 <= i < |s.db.requests|
      ensures i in picks ==> s.db.requests[i].status == Queued
    {
      if k :| 0 <= k < |picks| && picks[k] == i {
        assert Ready(s.db.requests[i], now);
      }
    }
  }

  lemma StableWorkerStep(cfg: Config, s: State, step: Step)
    requires Enabled(cfg, s, step) && WorkerStep(step) && !step.Dequeue?
    ensures Quiet(s, Take(cfg, s, step))
  {
    if step.Send? {
      QuietSend(s, step.outcome);
    } else if step.Ack? {
      QuietAck(s, step.ok, step.now);
    } else if step.WriteFail? {
      QuietWriteFail(cfg, s, step.ok);
    } else {
      QuietSame(s, Take(cfg, s, step));
    }
  }

  lemma StableWatcherStep(cfg: Config, s: State, step: Step)
    requires Enabled(cfg, s, step) && WatcherStep(step)
    ensures Quiet(s, Take(cfg, s, step))
  {
    if step.CheckReceipt? {
      QuietReceipt(cfg, s, step.receipt, step.ok, step.now);
    } else if step.Reconcile? {
      QuietReconcile(s, step.ok, step.now);
    } else {
      QuietSame(s, Take(cfg, s, step));
    }
  }

  /** The claim an Admit step would insert. */
  function Candidate(s: State, call: nat, created: nat): Claim
    requires call < |s.calls| && s.calls[call].state.Checked?
  {
    NewClaim(s.calls[call].request, s.calls[call].state.campaignId, s.calls[call].state.code, created)
  }

  predicate Inserts(cfg: Config, s: State, step: Step) {
    step.Admit? && Enabled(cfg, s, step) && CreateFor(cfg, s, Candidate(s, step.call, step.created), step.windowNow).Inserted?
  }

  lemma StableAdmit(cfg: Config, s: State, step: Step)
    requires step.Admit? && Enabled(cfg, s, step)
    ensures Stable(s, Take(cfg, s, step)) && QueueQuiet(s, Take(cfg, s, step))
    ensures Inserts(cfg, s, step) || Steady(s, Take(cfg, s, step))
    ensures Inserts(cfg, s, step) ==>
              var s' := Take(cfg, s, step);
              && s'.db.requests == s.db.requests + [Candidate(s, step.call, step.created)]
              && s'.history == s.history + [NEW_HISTORY]
  {
  }

  lemma StableStep(cfg: Config, s: State, step: Step)
    requires WellShaped(s)
    ensures Stable(s, Next(cfg, s, step))
    ensures Inserts(cfg, s, step) || Steady(s, Next(cfg, s, step))
    ensures step.Dequeue? || QueueQuiet(s, Next(cfg, s, step))
  {
    if Enabled(cfg, s, step) {
      if step.Dequeue? {
        StableDequeue(cfg, s, step.picks, step.now);
      } else if WorkerStep(step) {
        StableWorkerStep(cfg, s, step);
      } else if WatcherStep(step) {
        StableWatcherStep(cfg, s, step);
      } else if step.Admit? {
        StableAdmit(cfg, s, step);
      } else {
        StableServiceStep(cfg, s, step);
      }
    }
  }
}
