/** The main results about payouts, over every run of the claim system: at most one payout per
    permission, confirmation that is earned and final, bounded attempts, and no starvation. */
module Payouts {
  import opened Domain
  import opened Text
  import opened TimeText
  import opened StoreSpec
  import opened ClaimSystem
  import opened Lifecycle

  predicate Exists(cfg: Config, steps: seq<Step>, id: nat) {
    id < |Run(cfg, steps).db.requests|
  }

  function After(cfg: Config, steps: seq<Step>, id: nat): View
    requires Exists(cfg, steps, id) && WellShaped(Run(cfg, steps))
  {
    ViewOf(Run(cfg, steps), id)
  }

  lemma Reachable(cfg: Config, steps: seq<Step>)
    ensures Inv(cfg, Run(cfg, steps))
  {
    Initially(cfg);
    InvRun(cfg, INIT, steps);
  }

  lemma SoundAfter(cfg: Config, steps: seq<Step>, id: nat)
    requires Exists(cfg, steps, id)
    ensures WellShaped(Run(cfg, steps)) && Sound(cfg.maxRetries, After(cfg, steps, id))
  {
    Reachable(cfg, steps);
  }

  // ---- At most one payout ----

  /** The transactions the node has accepted for a claim. */
  function Paid(h: History): nat {
    h.sends + h.ambiguous
  }

  /** In every interleaving a claim's successful sends never exceed one plus its operator retries.
      Counting also the broadcasts that the node accepted while reporting an error, its payments
      never exceed max(1, MaxRetries) plus its operator retries. */
  lemma AtMostOncePayout(cfg: Config, steps: seq<Step>, id: nat)
    requires Exists(cfg, steps, id)
    ensures WellShaped(Run(cfg, steps))
    ensures var h := Run(cfg, steps).history[id];
            && h.sends <= 1 + h.retries
            && Paid(h) <= Max(1, cfg.maxRetries) + h.retries
            && (cfg.batchSize <= 0 ==> Paid(h) == 0)
  {
    SoundAfter(cfg, steps, id);
    PaidForRun(cfg, steps);
    BoundedAttempts(cfg, steps, id);
  }

  /** The worker has dequeued the claim and not sent it yet. */
  predicate Unsent(w: Worker, id: nat) {
    !w.Idle? && id in w.todo
  }

  /** Every payment of a claim used up one of its dequeues. */
  predicate PaidForBy(batchSize: int, h: History, unsent: bool) {
    Paid(h) + One(unsent) <= h.dequeues && (batchSize <= 0 ==> h.dequeues == 0)
  }

  predicate PaidFor(cfg: Config, s: State)
    requires WellShaped(s)
  {
    forall i :: 0 <= i < |s.history| ==> PaidForBy(cfg.batchSize, s.history[i], Unsent(s.worker, i))
  }

  predicate SamePayments(h: History, h': History) {
    h'.sends == h.sends && h'.ambiguous == h.ambiguous && h'.dequeues == h.dequeues
  }

  /** Nobody but the worker pays or moves the worker. */
  predicate NotPaying(s: State, s': State) {
    && WellShaped(s) && WellShaped(s') && s'.worker == s.worker && |s.history| <= |s'.history|
    && (forall i :: 0 <= i < |s.history| ==> SamePayments(s.history[i], s'.history[i]))
    && (forall i :: |s.history| <= i < |s'.history| ==> s'.history[i] == NEW_HISTORY)
  }

  lemma WatcherDoesNotPay(cfg: Config, s: State, step: Step)
    requires Enabled(cfg, s, step) && WatcherStep(step)
    ensures NotPaying(s, Take(cfg, s, step))
  {
    hide IsPendingList, IsStuckList, NextCheckReceipt, NextReconcile, NotPaying;
    if step.CheckReceipt? {
      ReceiptDoesNotPay(cfg, s, step.receipt, step.ok, step.now);
    } else if step.Reconcile? {
      ReconcileDoesNotPay(s, step.ok, step.now);
    } else {
      MoveDoesNotPay(s, Take(cfg, s, step).watcher);
    }
  }

  lemma ReceiptDoesNotPay(cfg: Config, s: State, receipt: Receipt, ok: bool, now: nat)
    requires WellShaped(s) && s.watcher.Receipts? && s.watcher.pending != []
    requires s.watcher.pending[0] < |s.db.transactions|
    ensures NotPaying(s, NextCheckReceipt(cfg, s, receipt, ok, now))
  {
    hide EnoughConfirmations, WrittenOff;
  }

  lemma ReconcileDoesNotPay(s: State, ok: bool, now: nat)
    requires WellShaped(s) && s.watcher.Reconciling? && s.watcher.stuck != []
    ensures NotPaying(s, NextReconcile(s, ok, now))
  {
    hide WrittenOff;
  }

  lemma MoveDoesNotPay(s: State, watcher: Watcher)
    requires WellShaped(s)
    ensures NotPaying(s, s.(watcher := watcher))
  {
  }

  lemma IntakeDoesNotPay(cfg: Config, s: State, step: Step)
    requires Enabled(cfg, s, step) && (step.Consume? || step.Enqueue? || step.Reject? || step.AbandonIntake?)
    ensures NotPaying(s, Take(cfg, s, step))
  {
    hide Consumable, WrittenOff;
  }

  lemma OperatorDoesNotPay(cfg: Config, s: State, step: Step)
    requires Enabled(cfg, s, step) && !WorkerStep(step) && !WatcherStep(step)
    requires !(step.Consume? || step.Enqueue? || step.Reject? || step.AbandonIntake?)
    ensures NotPaying(s, Take(cfg, s, step))
  {
    hide CreateFor, EnforceCampaign, WrittenOff;
  }

  lemma ServiceDoesNotPay(cfg: Config, s: State, step: Step)
    requires Enabled(cfg, s, step) && !WorkerStep(step) && !WatcherStep(step)
    ensures NotPaying(s, Take(cfg, s, step))
  {
    hide Enabled, Take, NotPaying;
    if step.Consume? || step.Enqueue? || step.Reject? || step.AbandonIntake? {
      IntakeDoesNotPay(cfg, s, step);
    } else {
      OperatorDoesNotPay(cfg, s, step);
    }
  }

  lemma PaidForElsewhere(cfg: Config, s: State, s': State)
    requires WellShaped(s) && PaidFor(cfg, s) && NotPaying(s, s')
    requires forall i :: i >= |s.history| ==> !Unsent(s.worker, i)
    ensures PaidFor(cfg, s')
  {
    hide Unsent;
    forall i | 0 <= i < |s'.history|
      ensures PaidForBy(cfg.batchSize, s'.history[i], Unsent(s'.worker, i))
    {
      assert i < |s.history| ==> PaidForBy(cfg.batchSize, s.history[i], Unsent(s.worker, i));
    }
  }

  /** The worker holds only claims that exist. */
  lemma UnsentExist(cfg: Config, s: State)
    requires Inv(cfg, s)
    ensures forall i :: i >= |s.history| ==> !Unsent(s.worker, i)
  {
    hide AllSound;
    assert WorkerInRange(s);
  }

  lemma PaidForDequeue(cfg: Config, s: State, picks: seq<nat>, now: nat)
    requires WellShaped(s) && PaidFor(cfg, s) && s.worker.Idle?
    ensures WellShaped(NextDequeue(cfg, s, picks, now)) && PaidFor(cfg, NextDequeue(cfg, s, picks, now))
  {
    hide Ready;
    var s' := NextDequeue(cfg, s, picks, now);
    forall i | 0 <= i < |s.history|
      ensures PaidForBy(cfg.batchSize, s'.history[i], Unsent(s'.worker, i))
    {
      assert PaidForBy(cfg.batchSize, s.history[i], Unsent(s.worker, i));
    }
  }

  lemma PaidForSend(cfg: Config, s: State, outcome: SendOutcome)
    requires Inv(cfg, s) && PaidFor(cfg, s) && s.worker.Batch? && s.worker.todo != []
    ensures WellShaped(NextSend(s, outcome)) && PaidFor(cfg, NextSend(s, outcome))
  {
    hide AllSound;
    var s' := NextSend(s, outcome);
    var todo := s.worker.todo;
    assert todo == [todo[0]] + todo[1..];
    forall i | 0 <= i < |s.history|
      ensures PaidForBy(cfg.batchSize, s'.history[i], Unsent(s'.worker, i))
    {
      assert PaidForBy(cfg.batchSize, s.history[i], Unsent(s.worker, i));
    }
  }

  /** The worker's steps after a send: whoever is unsent was unsent before. */
  lemma PaidForSettling(cfg: Config, s: State, s': State)
    requires WellShaped(s) && WellShaped(s') && PaidFor(cfg, s) && |s'.history| == |s.history|
    requires forall i :: 0 <= i < |s.history| ==> SamePayments(s.history[i], s'.history[i])
    requires s'.worker == Idle || (!s.worker.Idle? && s'.worker.todo == s.worker.todo)
    ensures PaidFor(cfg, s')
  {
    forall i | 0 <= i < |s.history|
      ensures PaidForBy(cfg.batchSize, s'.history[i], Unsent(s'.worker, i))
    {
      assert PaidForBy(cfg.batchSize, s.history[i], Unsent(s.worker, i));
    }
  }

  lemma PaidForAck(cfg: Config, s: State, ok: bool, now: nat)
    requires WellShaped(s) && PaidFor(cfg, s) && s.worker.Acking?
    ensures WellShaped(NextAck(s, ok, now)) && PaidFor(cfg, NextAck(s, ok, now))
  {
    hide PaidFor, WrittenOff;
    PaidForSettling(cfg, s, NextAck(s, ok, now));
  }

  lemma PaidForFail(cfg: Config, s: State, ok: bool, now: nat)
    requires WellShaped(s) && PaidFor(cfg, s)
    ensures s.worker.FailRead? ==> WellShaped(NextWriteFail(cfg, s, ok)) && PaidFor(cfg, NextWriteFail(cfg, s, ok))
    ensures s.worker.Failing? ==> WellShaped(NextReadRetryCount(s, ok, now)) && PaidFor(cfg, NextReadRetryCount(s, ok, now))
    ensures PaidFor(cfg, s.(worker := Idle))
  {
    hide PaidFor, WrittenOff;
    PaidForSettling(cfg, s, s.(worker := Idle));
    if s.worker.FailRead? {
      PaidForSettling(cfg, s, NextWriteFail(cfg, s, ok));
    } else if s.worker.Failing? {
      PaidForSettling(cfg, s, NextReadRetryCount(s, ok, now));
    }
  }

  lemma PaidForWorker(cfg: Config, s: State, step: Step)
    requires Inv(cfg, s) && PaidFor(cfg, s) && Enabled(cfg, s, step) && WorkerStep(step)
    ensures WellShaped(Take(cfg, s, step)) && PaidFor(cfg, Take(cfg, s, step))
  {
    hide AllSound, IsBatch, NextDequeue, NextSend, NextAck, NextReadRetryCount, NextWriteFail, PaidFor;
    if step.Dequeue? {
      PaidForDequeue(cfg, s, step.picks, step.now);
    } else if step.Send? {
      PaidForSend(cfg, s, step.outcome);
    } else if step.Ack? {
      PaidForAck(cfg, s, step.ok, step.now);
    } else if step.ReadRetryCount? {
      PaidForFail(cfg, s, step.ok, step.now);
    } else if step.WriteFail? {
      PaidForFail(cfg, s, step.ok, 0);
    } else {
      PaidForFail(cfg, s, true, 0);
    }
  }

  lemma PaidForStep(cfg: Config, s: State, step: Step)
    requires Inv(cfg, s) && PaidFor(cfg, s)
    ensures WellShaped(Next(cfg, s, step)) && PaidFor(cfg, Next(cfg, s, step))
  {
    hide Enabled, Take, PaidFor, NotPaying, AllSound, Unsent;
    InvStep(cfg, s, step);
    if Enabled(cfg, s, step) {
      if WorkerStep(step) {
        PaidForWorker(cfg, s, step);
      } else {
        if WatcherStep(step) {
          WatcherDoesNotPay(cfg, s, step);
        } else {
          ServiceDoesNotPay(cfg, s, step);
        }
        UnsentExist(cfg, s);
        PaidForElsewhere(cfg, s, Take(cfg, s, step));
      }
    }
  }

  lemma {:induction false} PaidForRun(cfg: Config, steps: seq<Step>)
    ensures WellShaped(Run(cfg, steps)) && PaidFor(cfg, Run(cfg, steps))
  {
    if steps != [] {
      var init := steps[..|steps| - 1];
      PaidForRun(cfg, init);
      Reachable(cfg, init);
      PaidForStep(cfg, Run(cfg, init), steps[|steps| - 1]);
    }
  }

  /** A claim that has been paid and never retried cannot be sent again by anyone: it is not
      queued, no loop holds it and no call is about to queue it. */
  lemma PaidClaimIsOutOfReach(cfg: Config, steps: seq<Step>, id: nat)
    requires Exists(cfg, steps, id) && WellShaped(Run(cfg, steps))
    requires After(cfg, steps, id).history.sends > 0 && After(cfg, steps, id).history.retries == 0
    ensures var v := After(cfg, steps, id);
            v.claim.status != Queued && !v.held && v.intake == Settled && v.history.sends == 1
  {
    SoundAfter(cfg, steps, id);
  }

  // ---- Confirmation ----

  predicate IsConfirmed(s: State, id: nat)
    requires WellShaped(s)
  {
    id < |s.db.requests| && s.db.requests[id].status == Confirmed && s.history[id].retries == 0
  }

  /** The step left the claim alone, and the watcher. */
  predicate Untouched(s: State, s': State, id: nat) {
    && WellShaped(s) && WellShaped(s') && id < |s.db.requests| <= |s'.db.requests|
    && s'.db.requests[id] == s.db.requests[id] && s'.history[id] == s.history[id] && s'.watcher == s.watcher
    && s.db.transactions <= s'.db.transactions
  }

  lemma DequeueFrame(cfg: Config, s: State, picks: seq<nat>, now: nat, id: nat)
    requires WellShaped(s) && id < |s.db.requests| && s.db.requests[id].status != Queued && AllReady(s.db.requests, now, picks)
    ensures Untouched(s, NextDequeue(cfg, s, picks, now), id)
  {
    hide StampedNotAfter;
    assert forall k :: 0 <= k < |picks| ==> Ready(s.db.requests[picks[k]], now);
    assert id !in picks;
  }

  lemma AttemptFrame(cfg: Config, s: State, outcome: SendOutcome, ok: bool, now: nat, id: nat)
    requires WellShaped(s) && id < |s.db.requests| && s.db.requests[id].status != Sending && !Holds(s.worker, id)
    ensures s.worker.Batch? && s.worker.todo != [] && s.worker.todo[0] < |s.db.requests| ==>
              Untouched(s, NextSend(s, outcome), id)
    ensures s.worker.Acking? ==> Untouched(s, NextAck(s, ok, now), id)
    ensures s.worker.FailRead? ==> Untouched(s, NextWriteFail(cfg, s, ok), id)
  {
  }

  /** The worker's steps leave alone whom it neither holds nor can dequeue. */
  lemma WorkerFrame(cfg: Config, s: State, step: Step, id: nat)
    requires Enabled(cfg, s, step) && WorkerStep(step) && id < |s.db.requests| && !Holds(s.worker, id)
    requires s.db.requests[id].status != Queued && s.db.requests[id].status != Sending
    ensures Untouched(s, Take(cfg, s, step), id)
  {
    hide CreatedNotAfter, Ready, Holds, NextDequeue, NextSend, NextAck, NextWriteFail;
    if step.Dequeue? {
      DequeueFrame(cfg, s, step.picks, step.now, id);
    } else if step.Send? {
      AttemptFrame(cfg, s, step.outcome, true, 0, id);
    } else if step.Ack? {
      AttemptFrame(cfg, s, SendOk(None), step.ok, step.now, id);
    } else if step.WriteFail? {
      AttemptFrame(cfg, s, SendOk(None), step.ok, 0, id);
    }
  }

  lemma IntakeFrame(cfg: Config, s: State, step: Step, id: nat)
    requires Enabled(cfg, s, step) && (step.Consume? || step.Enqueue? || step.Reject? || step.AbandonIntake?)
    requires id < |s.db.requests| && s.intake[id] == Settled
    ensures Untouched(s, Take(cfg, s, step), id)
  {
    hide Consumable;
  }

  lemma OperatorFrame(cfg: Config, s: State, step: Step, id: nat)
    requires Enabled(cfg, s, step) && (step.OperatorRetry? || step.OperatorCancel?) && id < |s.db.requests|
    requires s.db.requests[id].status in {Sent, Confirmed, Sending}
    ensures Untouched(s, Take(cfg, s, step), id)
  {
  }

  lemma CallFrame(cfg: Config, s: State, step: Step, id: nat)
    requires Enabled(cfg, s, step) && id < |s.db.requests|
    requires step.Begin? || step.Lookup? || step.CheckCampaign? || step.Admit? || step.AbandonCall?
             || step.OperatorInvite? || step.OperatorDropInvite? || step.SettleInvite?
    ensures Untouched(s, Take(cfg, s, step), id)
  {
    hide CreateFor, EnforceCampaign;
  }

  /** The service and the operator leave alone a sent or confirmed claim whose call is over. */
  lemma ServiceFrame(cfg: Config, s: State, step: Step, id: nat)
    requires Enabled(cfg, s, step) && !WorkerStep(step) && !WatcherStep(step) && id < |s.db.requests|
    requires s.intake[id] == Settled && s.db.requests[id].status in {Sent, Confirmed, Sending}
    ensures Untouched(s, Take(cfg, s, step), id)
  {
    hide Enabled, Take, Untouched;
    if step.Consume? || step.Enqueue? || step.Reject? || step.AbandonIntake? {
      IntakeFrame(cfg, s, step, id);
    } else if step.OperatorCancel? || step.OperatorRetry? {
      OperatorFrame(cfg, s, step, id);
    } else {
      CallFrame(cfg, s, step, id);
    }
  }

  lemma ConfirmedReceipt(cfg: Config, s: State, receipt: Receipt, ok: bool, now: nat, id: nat)
    requires Inv(cfg, s) && IsConfirmed(s, id) && s.watcher.Receipts? && s.watcher.pending != []
    requires !InPending(s.db.transactions, s.watcher.pending, id)
    ensures WellShaped(NextCheckReceipt(cfg, s, receipt, ok, now))
    ensures IsConfirmed(NextCheckReceipt(cfg, s, receipt, ok, now), id)
  {
    assert s.db.transactions[s.watcher.pending[0]].claimId != id;
  }

  lemma ConfirmedWatcherStep(cfg: Config, s: State, step: Step, id: nat)
    requires Inv(cfg, s) && IsConfirmed(s, id) && WatcherStep(step) && Enabled(cfg, s, step)
    requires !Watches(s, id)
    ensures WellShaped(Take(cfg, s, step)) && IsConfirmed(Take(cfg, s, step), id)
  {
    hide StampedNotAfter, Inv, NextCheckReceipt;
    if step.CheckReceipt? {
      ConfirmedReceipt(cfg, s, step.receipt, step.ok, step.now, id);
    }
  }

  lemma ConfirmedStep(cfg: Config, s: State, step: Step, id: nat)
    requires Inv(cfg, s) && IsConfirmed(s, id)
    ensures Inv(cfg, Next(cfg, s, step)) && IsConfirmed(Next(cfg, s, step), id)
  {
    hide Take, Enabled;
    InvStep(cfg, s, step);
    assert Sound(cfg.maxRetries, ViewOf(s, id));
    if Enabled(cfg, s, step) {
      if WorkerStep(step) {
        WorkerFrame(cfg, s, step, id);
      } else if WatcherStep(step) {
        ConfirmedWatcherStep(cfg, s, step, id);
      } else {
        ServiceFrame(cfg, s, step, id);
      }
    }
  }

  /** Confirmed is final: once confirmed without an operator retry, confirmed forever, whatever
      the service, the loops and the operator do afterwards. */
  lemma {:induction false} ConfirmedIsFinal(cfg: Config, s: State, more: seq<Step>, id: nat)
    requires Inv(cfg, s) && IsConfirmed(s, id)
    ensures Inv(cfg, RunFrom(cfg, s, more)) && IsConfirmed(RunFrom(cfg, s, more), id)
  {
    if more != [] {
      var init := more[..|more| - 1];
      ConfirmedIsFinal(cfg, s, init, id);
      ConfirmedStep(cfg, RunFrom(cfg, s, init), more[|more| - 1], id);
    }
  }

  lemma ConfirmedHasOneTransaction(cfg: Config, steps: seq<Step>, id: nat)
    requires Exists(cfg, steps, id) && WellShaped(Run(cfg, steps))
    requires IsConfirmed(Run(cfg, steps), id)
    ensures CountTx(Run(cfg, steps).db.transactions, id) == 1
  {
    SoundAfter(cfg, steps, id);
  }

  /** Step k of the run confirms the claim: it looks at a successful receipt of one of the claim's
      transactions, deep enough under the head block the watcher had read. */
  predicate EarnedAt(cfg: Config, steps: seq<Step>, id: nat, k: nat) {
    k < |steps| &&
    var s := Run(cfg, steps[..k]);
    && steps[k].CheckReceipt? && steps[k].receipt.Mined?
    && s.watcher.Receipts? && s.watcher.pending != [] && s.watcher.pending[0] < |s.db.transactions|
    && s.db.transactions[s.watcher.pending[0]].claimId == id
    && EnoughConfirmations(cfg, s.watcher.head, steps[k].receipt.block)
    && !WasConfirmed(s, id) && WasConfirmed(Run(cfg, steps[..k + 1]), id)
    && Recorded(Run(cfg, steps[..k + 1]).db.transactions, id, steps[k].receipt.block, steps[k].receipt.gasUsed)
  }

  /** Every transaction row of the claim is confirmed with that block and gas. */
  predicate Recorded(txs: seq<Transaction>, id: nat, block: nat, gasUsed: nat) {
    forall t :: 0 <= t < |txs| && txs[t].claimId == id ==>
      txs[t].status == Confirmed && txs[t].blockNumber == block && txs[t].gasUsed == gasUsed
  }

  predicate WasConfirmed(s: State, id: nat) {
    id < |s.db.requests| && s.db.requests[id].status == Confirmed
  }

  lemma WorkerDoesNotConfirm(cfg: Config, s: State, step: Step, id: nat)
    requires Enabled(cfg, s, step) && WorkerStep(step)
    ensures WasConfirmed(Take(cfg, s, step), id) ==> WasConfirmed(s, id)
  {
    hide IsBatch, Ready;
  }

  lemma ServiceDoesNotConfirm(cfg: Config, s: State, step: Step, id: nat)
    requires Enabled(cfg, s, step) && !WorkerStep(step) && !WatcherStep(step)
    ensures WasConfirmed(Take(cfg, s, step), id) ==> WasConfirmed(s, id)
  {
    hide CreateFor, EnforceCampaign;
  }

  /** Only the watcher confirms. */
  lemma OthersDoNotConfirm(cfg: Config, s: State, step: Step, id: nat)
    requires Enabled(cfg, s, step) && !WatcherStep(step)
    ensures WasConfirmed(Take(cfg, s, step), id) ==> WasConfirmed(s, id)
  {
    hide Enabled, Take;
    if WorkerStep(step) {
      WorkerDoesNotConfirm(cfg, s, step, id);
    } else {
      ServiceDoesNotConfirm(cfg, s, step, id);
    }
  }

  lemma BecomesConfirmed(cfg: Config, s: State, step: Step, id: nat)
    requires WasConfirmed(Next(cfg, s, step), id) && !WasConfirmed(s, id)
    ensures step.CheckReceipt? && step.receipt.Mined?
    ensures s.watcher.Receipts? && s.watcher.pending != [] && s.watcher.pending[0] < |s.db.transactions|
    ensures s.db.transactions[s.watcher.pending[0]].claimId == id
    ensures EnoughConfirmations(cfg, s.watcher.head, step.receipt.block)
    ensures Recorded(Next(cfg, s, step).db.transactions, id, step.receipt.block, step.receipt.gasUsed)
  {
    if !WatcherStep(step) {
      OthersDoNotConfirm(cfg, s, step, id);
    }
  }

  /** Confirmed is earned: every confirmed claim owes its status to such a receipt. */
  lemma {:induction false} ConfirmedIsEarned(cfg: Config, steps: seq<Step>, id: nat) returns (k: nat)
    requires WasConfirmed(Run(cfg, steps), id)
    ensures EarnedAt(cfg, steps, id, k)
  {
    var init, last := steps[..|steps| - 1], steps[|steps| - 1];
    if WasConfirmed(Run(cfg, init), id) {
      k := ConfirmedIsEarned(cfg, init, id);
      assert init[..k] == steps[..k] && init[..k + 1] == steps[..k + 1];
    } else {
      BecomesConfirmed(cfg, Run(cfg, init), last, id);
      k := |init|;
      assert steps[..k + 1] == steps;
    }
  }

  /** The depth test means what it says exactly when the 64-bit sum does not wrap, or wraps
      past the head. */
  lemma ConfirmationDepthExact(cfg: Config, head: nat, block: nat)
    requires head < UINT64 && block < UINT64 && cfg.minConfirmations < UINT64
    ensures (EnoughConfirmations(cfg, head, block) <==> head >= block + cfg.minConfirmations)
            <==> (block + cfg.minConfirmations < UINT64 || head < block + cfg.minConfirmations - UINT64)
  {
    var sum := block + cfg.minConfirmations;
    if sum >= UINT64 {
      assert sum % UINT64 == sum - UINT64;
    }
  }

  // ---- Attempts ----

  /** Every claim is dequeued at most max(1, MaxRetries) times, plus once per operator retry. */
  lemma BoundedAttempts(cfg: Config, steps: seq<Step>, id: nat)
    requires Exists(cfg, steps, id)
    ensures WellShaped(Run(cfg, steps))
    ensures var h := Run(cfg, steps).history[id];
            h.dequeues <= Max(1, cfg.maxRetries) + h.retries && h.requeues < Max(1, cfg.maxRetries)
  {
    SoundAfter(cfg, steps, id);
  }

  /** Backoff: a claim whose last queueing was its k-th automatic re-queue is not dequeued before
      30k seconds have passed since that failure, up to less than one second of text-order skew. A
      claim that was re-queued and never retried by the operator is always such a claim. */
  lemma BackoffHonoured(cfg: Config, steps: seq<Step>, picks: seq<nat>, now: nat, id: nat)
    requires Exists(cfg, steps, id) && WellShaped(Run(cfg, steps)) && id in picks
    requires Enabled(cfg, Run(cfg, steps), Dequeue(picks, now))
    requires var next := After(cfg, steps, id).claim.nextAttemptAt; next.Some? ==> InRange(next.value)
    ensures var v := After(cfg, steps, id);
            && (v.claim.nextAttemptAt.Some? ==>
                  && v.history.lastFailure.Some? && v.history.lastFailure.value.count == v.history.requeues
                  && v.history.lastFailure.value.at + v.history.requeues * 30_000_000_000 < now + SECOND)
            && (v.history.retries == 0 && v.history.requeues > 0 ==> v.claim.nextAttemptAt.Some?)
  {
    SoundAfter(cfg, steps, id);
    var c := After(cfg, steps, id).claim;
    assert Ready(c, now);
    if c.nextAttemptAt.Some? {
      TextSkewUnderOneSecond(c.nextAttemptAt.value, now);
    }
  }
}
