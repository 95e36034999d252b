/** The transactions table over every run: no hash is stored twice, and a row tells what became of its
    claim. */
module Ledger {
  import opened Domain
  import opened Text
  import opened StoreSpec
  import opened ClaimSystem
  import opened Lifecycle
  import opened Payouts

  predicate HashesDistinct(txs: seq<Transaction>) {
    forall t, u :: 0 <= t < u < |txs| ==> txs[t].hash != txs[u].hash
  }

  /** For a claim never retried: the row is sent or confirmed with its claim, and failed with a claim
      that was failed, even if that was cancelled later. */
  predicate Tells(tx: Transaction, c: Claim, h: History) {
    h.retries == 0 ==>
      || (c.status == Sent && tx.status == Sent)
      || (c.status == Confirmed && tx.status == Confirmed)
      || ((c.status == Failed || c.status == Rejected) && tx.status == Failed)
  }

  predicate TellsAt(s: State, t: nat)
    requires WellShaped(s) && t < |s.db.transactions| && s.db.transactions[t].claimId < |s.db.requests|
  {
    var id := s.db.transactions[t].claimId;
    Tells(s.db.transactions[t], s.db.requests[id], s.history[id])
  }

  predicate LedgerInv(s: State) {
    && WellShaped(s) && TransactionsInRange(s) && HashesDistinct(s.db.transactions)
    && forall t :: 0 <= t < |s.db.transactions| ==> TellsAt(s, t)
  }

  /** A claim with a transaction row that was never retried is in nobody's hands. */
  lemma PaidFacts(cfg: Config, s: State, t: nat)
    requires Inv(cfg, s) && t < |s.db.transactions|
    ensures var id := s.db.transactions[t].claimId;
            && id < |s.db.requests|
            && (s.history[id].retries == 0 ==>
                  && !Holds(s.worker, id) && s.intake[id] == Settled
                  && !(s.worker.Acking? && s.worker.id == id && s.worker.hash.Some?))
  {
    var id := s.db.transactions[t].claimId;
    CountTxPositive(s.db.transactions, t);
    assert Sound(cfg.maxRetries, ViewOf(s, id));
  }

  // ---- The worker ----

  predicate Appends(txs: seq<Transaction>, txs': seq<Transaction>) {
    txs' == txs || (|txs'| == |txs| + 1 && txs'[..|txs|] == txs && !HashKnown(txs, txs'[|txs|].hash) && txs'[|txs|].status == Sent)
  }

  lemma WorkerAppends(cfg: Config, s: State, step: Step)
    requires Enabled(cfg, s, step) && WorkerStep(step)
    ensures var s' := Take(cfg, s, step);
            && Appends(s.db.transactions, s'.db.transactions)
            && (|s'.db.transactions| > |s.db.transactions| ==>
                  var id := s'.db.transactions[|s.db.transactions|].claimId;
                  id < |s'.db.requests| && s'.db.requests[id].status == Sent)
  {
    hide IsBatch, Ready, WrittenOff;
  }

  lemma DistinctAppended(txs: seq<Transaction>, txs': seq<Transaction>)
    requires HashesDistinct(txs) && Appends(txs, txs')
    ensures HashesDistinct(txs')
  {
    hide HashKnown;
    if |txs'| > |txs| {
      NewHash(txs, txs'[|txs|].hash);
      assert forall t :: 0 <= t < |txs| ==> txs'[t] == txs'[..|txs|][t];
    }
  }

  lemma NewHash(txs: seq<Transaction>, hash: nat)
    requires !HashKnown(txs, hash)
    ensures forall t :: 0 <= t < |txs| ==> txs[t].hash != hash
  {
  }

  lemma WorkerKeepsRetries(cfg: Config, s: State, step: Step, id: nat)
    requires Enabled(cfg, s, step) && WorkerStep(step) && id < |s.db.requests|
    ensures var s' := Take(cfg, s, step);
            WellShaped(s') && |s'.db.requests| == |s.db.requests| && s'.history[id].retries == s.history[id].retries
  {
    hide IsBatch, Ready, WrittenOff;
    if step.Dequeue? && cfg.batchSize > 0 {
      assert Take(cfg, s, step).history[id] == DequeueNote(s, step.picks, step.now, id);
    }
  }

  lemma LedgerWorker(cfg: Config, s: State, step: Step)
    requires Inv(cfg, s) && LedgerInv(s) && Enabled(cfg, s, step) && WorkerStep(step)
    ensures LedgerInv(Take(cfg, s, step))
  {
    hide Enabled, Take, AllSound;
    var s' := Take(cfg, s, step);
    InvStep(cfg, s, step);
    WorkerAppends(cfg, s, step);
    DistinctAppended(s.db.transactions, s'.db.transactions);
    forall t | 0 <= t < |s'.db.transactions|
      ensures TellsAt(s', t)
    {
      if t < |s.db.transactions| {
        assert s'.db.transactions[t] == s'.db.transactions[..|s.db.transactions|][t] == s.db.transactions[t];
        assert TellsAt(s, t);
        PaidFacts(cfg, s, t);
        var id := s.db.transactions[t].claimId;
        WorkerKeepsRetries(cfg, s, step, id);
        if s.history[id].retries == 0 {
          WorkerFrame(cfg, s, step, id);
        }
      }
    }
  }

  // ---- The service and the operator ----

  lemma ServiceKeepsTransactions(cfg: Config, s: State, step: Step)
    requires Enabled(cfg, s, step) && !WorkerStep(step) && !WatcherStep(step)
    ensures Take(cfg, s, step).db.transactions == s.db.transactions
  {
    hide CreateFor, EnforceCampaign, WrittenOff, Consumable;
  }

  lemma OperatorTells(cfg: Config, s: State, step: Step, id: nat, tx: Transaction)
    requires Enabled(cfg, s, step) && (step.OperatorRetry? || step.OperatorCancel?) && id < |s.db.requests|
    requires Tells(tx, s.db.requests[id], s.history[id])
    ensures var s' := Take(cfg, s, step);
            WellShaped(s') && id < |s'.db.requests| && Tells(tx, s'.db.requests[id], s'.history[id])
  {
    hide WrittenOff;
  }

  lemma ServiceTells(cfg: Config, s: State, step: Step, id: nat, tx: Transaction)
    requires WellShaped(s) && Enabled(cfg, s, step) && !WorkerStep(step) && !WatcherStep(step) && id < |s.db.requests|
    requires Tells(tx, s.db.requests[id], s.history[id]) && (s.history[id].retries == 0 ==> s.intake[id] == Settled)
    ensures var s' := Take(cfg, s, step);
            WellShaped(s') && id < |s'.db.requests| && Tells(tx, s'.db.requests[id], s'.history[id])
  {
    hide Enabled, Take, Tells;
    if step.OperatorRetry? || step.OperatorCancel? {
      OperatorTells(cfg, s, step, id, tx);
    } else if step.Consume? || step.Enqueue? || step.Reject? || step.AbandonIntake? {
      if s.intake[id] == Settled {
        IntakeFrame(cfg, s, step, id);
      } else {
        RetriedTells(cfg, s, step, id, tx);
      }
    } else {
      CallFrame(cfg, s, step, id);
    }
  }

  lemma RetriedTells(cfg: Config, s: State, step: Step, id: nat, tx: Transaction)
    requires Enabled(cfg, s, step) && (step.Consume? || step.Enqueue? || step.Reject? || step.AbandonIntake?)
    requires id < |s.db.requests| && s.history[id].retries > 0
    ensures var s' := Take(cfg, s, step);
            WellShaped(s') && id < |s'.db.requests| && Tells(tx, s'.db.requests[id], s'.history[id])
  {
    hide WrittenOff, Consumable;
  }

  lemma LedgerService(cfg: Config, s: State, step: Step)
    requires Inv(cfg, s) && LedgerInv(s) && Enabled(cfg, s, step) && !WorkerStep(step) && !WatcherStep(step)
    ensures LedgerInv(Take(cfg, s, step))
  {
    hide Enabled, Take, AllSound, Tells;
    var s' := Take(cfg, s, step);
    InvStep(cfg, s, step);
    ServiceKeepsTransactions(cfg, s, step);
    forall t | 0 <= t < |s'.db.transactions|
      ensures TellsAt(s', t)
    {
      assert TellsAt(s, t);
      PaidFacts(cfg, s, t);
      ServiceTells(cfg, s, step, s.db.transactions[t].claimId, s.db.transactions[t]);
    }
  }

  // ---- The watcher ----

  lemma FailTells(s: State, id: nat, now: nat)
    requires LedgerInv(s) && id < |s.db.requests|
    ensures LedgerInv(Write(s, id, AfterFailTransaction(s.db, id, now)))
  {
    hide WrittenOff;
    var s' := Write(s, id, AfterFailTransaction(s.db, id, now));
    forall t | 0 <= t < |s'.db.transactions|
      ensures TellsAt(s', t)
    {
      assert TellsAt(s, t);
    }
  }

  lemma ConfirmTells(s: State, id: nat, block: nat, gasUsed: nat, now: nat)
    requires LedgerInv(s) && id < |s.db.requests| && s.db.requests[id].status == Sent
    ensures LedgerInv(Write(s, id, AfterConfirm(s.db, id, block, gasUsed, now)))
  {
    hide WrittenOff;
    var s' := Write(s, id, AfterConfirm(s.db, id, block, gasUsed, now));
    forall t | 0 <= t < |s'.db.transactions|
      ensures TellsAt(s', t)
    {
      assert TellsAt(s, t);
    }
  }

  lemma MoveTells(s: State, w: Watcher)
    requires LedgerInv(s)
    ensures LedgerInv(s.(watcher := w))
  {
    forall t | 0 <= t < |s.db.transactions|
      ensures TellsAt(s.(watcher := w), t)
    {
      assert TellsAt(s, t);
    }
  }

  lemma LedgerWatcher(cfg: Config, s: State, step: Step)
    requires LedgerInv(s) && Enabled(cfg, s, step) && WatcherStep(step)
    ensures LedgerInv(Take(cfg, s, step))
  {
    hide LedgerInv, IsPendingList, IsStuckList, AfterFailTransaction, AfterConfirm, Write, EnoughConfirmations;
    var w := Take(cfg, s, step).watcher;
    MoveTells(s, w);
    var moved := s.(watcher := w);
    if step.CheckReceipt? {
      var id := s.db.transactions[s.watcher.pending[0]].claimId;
      assert NextCheckReceipt(cfg, s, step.receipt, step.ok, step.now).watcher == CarryOn(s.watcher) by {
        WatcherMoves(cfg, s, step.receipt, step.ok, step.now);
      }
      if id < |s.db.requests| {
        FailTells(moved, id, step.now);
        if s.db.requests[id].status == Sent && step.receipt.Mined? {
          ConfirmTells(moved, id, step.receipt.block, step.receipt.gasUsed, step.now);
        }
      }
    } else if step.Reconcile? {
      ReconcileTells(s, step.ok, step.now);
    }
  }

  lemma WatcherMoves(cfg: Config, s: State, receipt: Receipt, ok: bool, now: nat)
    requires WellShaped(s) && s.watcher.Receipts? && s.watcher.pending != [] && s.watcher.pending[0] < |s.db.transactions|
    ensures NextCheckReceipt(cfg, s, receipt, ok, now).watcher == CarryOn(s.watcher)
  {
    hide WrittenOff, EnoughConfirmations;
  }

  lemma ReconcileTells(s: State, ok: bool, now: nat)
    requires LedgerInv(s) && s.watcher.Reconciling? && s.watcher.stuck != []
    ensures LedgerInv(NextReconcile(s, ok, now))
  {
    hide TellsAt, HashesDistinct, TransactionsInRange;
    var id := s.watcher.stuck[0];
    var s1 := if ok && id < |s.db.requests| then Write(s, id, AfterFailTransaction(s.db, id, now)) else s;
    if ok && id < |s.db.requests| {
      FailTells(s, id, now);
    }
    MoveTells(s1, NextReconcile(s, ok, now).watcher);
  }

  lemma LedgerStep(cfg: Config, s: State, step: Step)
    requires Inv(cfg, s) && LedgerInv(s)
    ensures LedgerInv(Next(cfg, s, step))
  {
    hide Enabled, Take, LedgerInv, Inv;
    if Enabled(cfg, s, step) {
      if WorkerStep(step) {
        LedgerWorker(cfg, s, step);
      } else if WatcherStep(step) {
        LedgerWatcher(cfg, s, step);
      } else {
        LedgerService(cfg, s, step);
      }
    }
  }

  lemma {:induction false} LedgerRun(cfg: Config, steps: seq<Step>)
    ensures LedgerInv(Run(cfg, steps))
  {
    hide Next;
    if steps != [] {
      var init := steps[..|steps| - 1];
      LedgerRun(cfg, init);
      Reachable(cfg, init);
      LedgerStep(cfg, Run(cfg, init), steps[|steps| - 1]);
    }
  }

  /** In every run no transaction hash is stored twice, and the rows of a never retried claim are
      'sent', 'confirmed' or 'failed' with it. */
  lemma TransactionsTellTheClaim(cfg: Config, steps: seq<Step>, t: nat)
    requires t < |Run(cfg, steps).db.transactions|
    ensures var s := Run(cfg, steps);
            && WellShaped(s) && s.db.transactions[t].claimId < |s.db.requests|
            && (forall u :: 0 <= u < |s.db.transactions| && s.db.transactions[u].hash == s.db.transactions[t].hash ==> u == t)
            && var c, h := s.db.requests[s.db.transactions[t].claimId], s.history[s.db.transactions[t].claimId];
               h.retries == 0 ==>
                 && (c.status == Sent <==> s.db.transactions[t].status == Sent)
                 && (c.status == Confirmed <==> s.db.transactions[t].status == Confirmed)
                 && (c.status in {Failed, Rejected} <==> s.db.transactions[t].status == Failed)
  {
    LedgerRun(cfg, steps);
    assert TellsAt(Run(cfg, steps), t);
  }
}
