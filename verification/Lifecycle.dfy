/** Payout safety: the inductive invariant of the claim system, seen one claim at a time. */
module Lifecycle {
  import opened Domain
  import opened Text
  import opened TimeText
  import opened StoreSpec
  import opened ClaimSystem

  // ---- One claim's share of the state ----

  predicate Holds(w: Worker, id: nat) {
    match w
    case Idle => false
    case Batch(todo) => id in todo
    case Acking(_, _, todo) => id in todo
    case Failing(x, todo) => id == x || id in todo
    case FailRead(x, _, _, todo) => id == x || id in todo
  }

  predicate Watches(s: State, id: nat) {
    match s.watcher
    case Resting => false
    case Listed(pending) => InPending(s.db.transactions, pending, id)
    case Receipts(_, pending) => InPending(s.db.transactions, pending, id)
    case BeforeStuck => false
    case Reconciling(stuck) => id in stuck
  }

  predicate InPending(txs: seq<Transaction>, pending: seq<nat>, id: nat) {
    exists k :: 0 <= k < |pending| && pending[k] < |txs| && txs[pending[k]].claimId == id
  }

  function CountTx(txs: seq<Transaction>, id: nat): nat {
    if txs == [] then 0
    else CountTx(txs[..|txs| - 1], id) + if txs[|txs| - 1].claimId == id then 1 else 0
  }

  datatype View = View(
    claim: Claim,
    history: History,
    intake: Intake,
    held: bool,                  // the worker still has to send it, or to fail it
    acking: bool,
    ackingTx: bool,              // ... and the acknowledgement will store a transaction row
    failCount: Option<nat>,      // the retry count Fail is about to write
    txs: nat,
    watched: bool)

  function ViewOf(s: State, id: nat): View
    requires WellShaped(s) && id < |s.db.requests|
  {
    var w := s.worker;
    View(s.db.requests[id], s.history[id], s.intake[id], Holds(w, id),
         w.Acking? && w.id == id,
         w.Acking? && w.id == id && w.hash.Some?,
         if w.FailRead? && w.id == id then Some(w.count) else None,
         CountTx(s.db.transactions, id),
         Watches(s, id))
  }

  function One(b: bool): nat { if b then 1 else 0 }

  function Max(a: int, b: int): int { if a >= b then a else b }

  /** The invariant of one claim. Its first line is the payout budget: every way the claim can
      still be sent (waiting in the queue, held by the worker, its call not finished) is paid for
      by its creation or by an operator retry. */
  predicate Sound(maxRetries: int, v: View) {
    var c, h := v.claim, v.history;
    && h.sends + One(c.status == Queued) + One(v.held) + One(v.intake != Settled) <= 1 + h.retries
    && h.dequeues + One(c.status == Queued) + One(v.intake != Settled) <= 1 + h.requeues + h.retries
    && h.requeues == (if c.retryCount < maxRetries then c.retryCount else Max(0, maxRetries - 1))
    && (v.failCount.Some? ==> v.held && v.failCount.value == c.retryCount + 1)
    && v.txs + One(v.ackingTx) <= h.sends
    && (v.acking || c.status in {Sent, Confirmed} ==> h.sends > 0)
    && (c.status == Confirmed ==> v.txs > 0 && (v.watched ==> h.retries > 0))
    && (h.retries == 0 && v.intake != Settled ==> h.requeues == 0)
    && (h.retries == 0 && h.requeues > 0 && c.status == Queued ==> c.nextAttemptAt.Some?)
    && (c.nextAttemptAt.Some? ==>
          && h.lastFailure.Some?
          && h.lastFailure.value.count == h.requeues
          && c.nextAttemptAt.value == h.lastFailure.value.at + h.requeues * BACKOFF)
  }

  predicate WorkerInRange(s: State) {
    match s.worker
    case Idle => true
    case Batch(todo) => TodoInRange(s, todo)
    case Acking(id, _, todo) => id < |s.db.requests| && TodoInRange(s, todo)
    case Failing(id, todo) => id < |s.db.requests| && id !in todo && TodoInRange(s, todo)
    case FailRead(id, _, _, todo) => id < |s.db.requests| && id !in todo && TodoInRange(s, todo)
  }

  predicate TodoInRange(s: State, todo: seq<nat>) {
    Distinct(todo) && forall k :: 0 <= k < |todo| ==> todo[k] < |s.db.requests|
  }

  predicate PendingInRange(s: State, pending: seq<nat>) {
    Distinct(pending) && forall k :: 0 <= k < |pending| ==> pending[k] < |s.db.transactions|
  }

  predicate WatcherInRange(s: State) {
    match s.watcher
    case Resting => true
    case Listed(pending) => PendingInRange(s, pending)
    case Receipts(_, pending) => PendingInRange(s, pending)
    case BeforeStuck => true
    case Reconciling(stuck) => TodoInRange(s, stuck)
  }

  predicate TransactionsInRange(s: State) {
    forall t :: 0 <= t < |s.db.transactions| ==> s.db.transactions[t].claimId < |s.db.requests|
  }

  predicate Shape(s: State) {
    WellShaped(s) && WorkerInRange(s) && WatcherInRange(s) && TransactionsInRange(s)
  }

  predicate AllSound(cfg: Config, s: State)
    requires WellShaped(s)
  {
    forall i :: 0 <= i < |s.db.requests| ==> Sound(cfg.maxRetries, ViewOf(s, i))
  }

  predicate Inv(cfg: Config, s: State) {
    Shape(s) && AllSound(cfg, s)
  }

  lemma InvShape(cfg: Config, s: State)
    requires Inv(cfg, s)
    ensures WellShaped(s)
  {
  }

  // ---- Transaction rows per claim ----

  lemma {:induction false} CountTxSameClaims(a: seq<Transaction>, b: seq<Transaction>, id: nat)
    requires |a| == |b| && forall t :: 0 <= t < |a| ==> a[t].claimId == b[t].claimId
    ensures CountTx(a, id) == CountTx(b, id)
  {
    if a != [] {
      CountTxSameClaims(a[..|a| - 1], b[..|b| - 1], id);
    }
  }

  lemma {:induction false} CountTxPositive(txs: seq<Transaction>, t: nat)
    requires t < |txs|
    ensures CountTx(txs, txs[t].claimId) > 0
  {
    if t < |txs| - 1 {
      CountTxPositive(txs[..|txs| - 1], t);
    }
  }

  lemma {:induction false} CountTxNone(txs: seq<Transaction>, id: nat)
    requires forall t :: 0 <= t < |txs| ==> txs[t].claimId != id
    ensures CountTx(txs, id) == 0
  {
    if txs != [] {
      CountTxNone(txs[..|txs| - 1], id);
    }
  }

  lemma {:induction false} CountTxTwo(txs: seq<Transaction>, t: nat, u: nat)
    requires t < u < |txs| && txs[t].claimId == txs[u].claimId
    ensures CountTx(txs, txs[t].claimId) >= 2
  {
    if u < |txs| - 1 {
      CountTxTwo(txs[..|txs| - 1], t, u);
    } else {
      CountTxPositive(txs[..|txs| - 1], t);
    }
  }

  // ---- Steps preserve the invariant ----

  lemma Initially(cfg: Config)
    ensures Inv(cfg, INIT)
  {
  }

  /** A claim whose view did not change stays sound. */
  lemma Unmoved(cfg: Config, s: State, s': State)
    requires Inv(cfg, s) && Shape(s') && |s'.db.requests| == |s.db.requests|
    requires forall i :: 0 <= i < |s.db.requests| ==>
               ViewOf(s', i) == ViewOf(s, i) || Sound(cfg.maxRetries, ViewOf(s', i))
    ensures Inv(cfg, s')
  {
  }

  lemma KeepsInsert(cfg: Config, s: State, s': State, c: Claim)
    requires Inv(cfg, s) && WellShaped(s') && s'.db == AfterInsert(s.db, c)
    requires c.status == Received && c.retryCount == 0 && c.nextAttemptAt == None
    requires s'.intake[..|s.intake|] == s.intake && s'.history == s.history + [NEW_HISTORY]
    requires s'.worker == s.worker && s'.watcher == s.watcher
    ensures Inv(cfg, s')
  {
    var n := |s.db.requests|;
    forall i | 0 <= i < n ensures Sound(cfg.maxRetries, ViewOf(s', i)) {
      assert s'.intake[i] == s'.intake[..n][i];
      assert ViewOf(s', i) == ViewOf(s, i);
    }
    CountTxNone(s.db.transactions, n);
    assert !Watches(s', n) && !Holds(s.worker, n);
  }

  lemma KeepsAdmit(cfg: Config, s: State, call: nat, created: nat, windowNow: nat)
    requires Inv(cfg, s) && call < |s.calls| && s.calls[call].state.Checked?
    ensures Inv(cfg, NextAdmit(cfg, s, call, created, windowNow))
  {
    hide CreateFor, AllSound, Shape;
    InvShape(cfg, s);
    var s' := NextAdmit(cfg, s, call, created, windowNow);
    var state := s.calls[call].state;
    var c := NewClaim(s.calls[call].request, state.campaignId, state.code, created);
    if CreateFor(cfg, s, c, windowNow).Inserted? {
      KeepsInsert(cfg, s, s', c);
    } else {
      KeepsIntakeMove(cfg, s, s');
    }
  }

  predicate SameOwners(a: seq<Transaction>, b: seq<Transaction>) {
    |a| == |b| && forall t :: 0 <= t < |a| ==> a[t].claimId == b[t].claimId
  }

  /** Marking transaction rows changes neither whose they are nor how many there are. */
  lemma MarkingKeepsOwners(s: State, s': State, i: nat)
    requires SameOwners(s.db.transactions, s'.db.transactions) && s'.watcher == s.watcher
    ensures CountTx(s'.db.transactions, i) == CountTx(s.db.transactions, i)
    ensures Watches(s', i) == Watches(s, i)
  {
    CountTxSameClaims(s.db.transactions, s'.db.transactions, i);
  }

  predicate SameElsewhere(s: State, s': State, id: nat)
    requires WellShaped(s) && WellShaped(s')
  {
    && |s'.db.requests| == |s.db.requests|
    && SameOwners(s.db.transactions, s'.db.transactions)
    && s'.watcher == s.watcher
    && forall i :: 0 <= i < |s.db.requests| && i != id ==>
         && s'.db.requests[i] == s.db.requests[i]
         && s'.history[i] == s.history[i]
         && s'.intake[i] == s.intake[i]
  }

  /** A step that writes one claim and leaves the loops where they are. */
  lemma TouchesOne(cfg: Config, s: State, s': State, id: nat)
    requires Inv(cfg, s) && WellShaped(s') && SameElsewhere(s, s', id) && s'.worker == s.worker
    requires id < |s.db.requests| && Sound(cfg.maxRetries, ViewOf(s', id))
    ensures Inv(cfg, s')
  {
    forall i | 0 <= i < |s.db.requests| && i != id ensures ViewOf(s', i) == ViewOf(s, i) {
      MarkingKeepsOwners(s, s', i);
    }
    Unmoved(cfg, s, s');
  }

  lemma KeepsConsume(cfg: Config, s: State, id: nat, ok: bool)
    requires Inv(cfg, s) && id < |s.db.requests| && s.intake[id] == AwaitConsume
    ensures Inv(cfg, NextConsume(s, id, ok))
  {
    var s' := NextConsume(s, id, ok);
    assert Sound(cfg.maxRetries, ViewOf(s, id));
    assert ViewOf(s', id).history in
      {s.history[id], s.history[id].(consumed := true)};
    TouchesOne(cfg, s, s', id);
  }

  lemma KeepsEnqueue(cfg: Config, s: State, id: nat, ok: bool, now: nat)
    requires Inv(cfg, s) && id < |s.db.requests| && s.intake[id] == AwaitEnqueue
    ensures Inv(cfg, NextEnqueue(s, id, ok, now))
  {
    var s' := NextEnqueue(s, id, ok, now);
    assert Sound(cfg.maxRetries, ViewOf(s, id));
    TouchesOne(cfg, s, s', id);
  }

  lemma KeepsReject(cfg: Config, s: State, id: nat, ok: bool, now: nat)
    requires Inv(cfg, s) && id < |s.db.requests| && s.intake[id] == AwaitReject
    ensures Inv(cfg, NextReject(s, id, ok, now))
  {
    assert Sound(cfg.maxRetries, ViewOf(s, id));
    TouchesOne(cfg, s, NextReject(s, id, ok, now), id);
  }

  lemma KeepsAbandon(cfg: Config, s: State, id: nat)
    requires Inv(cfg, s) && id < |s.db.requests|
    ensures Inv(cfg, SetIntake(s, id, Settled))
  {
    assert Sound(cfg.maxRetries, ViewOf(s, id));
    TouchesOne(cfg, s, SetIntake(s, id, Settled), id);
  }

  lemma KeepsDequeue(cfg: Config, s: State, picks: seq<nat>, now: nat)
    requires Inv(cfg, s) && s.worker.Idle? && IsBatch(s.db.requests, now, cfg.batchSize, picks)
    ensures Inv(cfg, NextDequeue(cfg, s, picks, now))
  {
    hide StampedNotAfter;
    var s' := NextDequeue(cfg, s, picks, now);
    forall i | 0 <= i < |s.db.requests| ensures Sound(cfg.maxRetries, ViewOf(s', i)) {
      assert Sound(cfg.maxRetries, ViewOf(s, i));
    }
  }

  lemma KeepsSend(cfg: Config, s: State, outcome: SendOutcome)
    requires Inv(cfg, s) && s.worker.Batch? && s.worker.todo != []
    ensures Inv(cfg, NextSend(s, outcome))
  {
    var s' := NextSend(s, outcome);
    var todo := s.worker.todo;
    var id := todo[0];
    assert todo == [id] + todo[1..];
    forall i | 0 <= i < |s.db.requests| && i != id ensures ViewOf(s', i) == ViewOf(s, i) {}
    Unmoved(cfg, s, s');
  }

  lemma KeepsAck(cfg: Config, s: State, ok: bool, now: nat)
    requires Inv(cfg, s) && s.worker.Acking?
    ensures Inv(cfg, NextAck(s, ok, now))
  {
    var s' := NextAck(s, ok, now);
    var txs, txs' := s.db.transactions, s'.db.transactions;
    forall i | 0 <= i < |s.db.requests|
      ensures ViewOf(s', i) == ViewOf(s, i) || Sound(cfg.maxRetries, ViewOf(s', i))
    {
      assert Sound(cfg.maxRetries, ViewOf(s, i));
      if |txs'| > |txs| {
        assert txs'[..|txs|] == txs;
      }
      WatchesGrows(s, s', i);
    }
    Unmoved(cfg, s, s');
  }

  /** Appending transaction rows does not put anything new in front of the watcher. */
  lemma WatchesGrows(s: State, s': State, id: nat)
    requires WatcherInRange(s) && s'.watcher == s.watcher && s.db.transactions <= s'.db.transactions
    ensures Watches(s', id) == Watches(s, id)
  {
    match s.watcher
    case Listed(pending) => assert InPending(s.db.transactions, pending, id) == InPending(s'.db.transactions, pending, id);
    case Receipts(_, pending) =>
      assert InPending(s.db.transactions, pending, id) == InPending(s'.db.transactions, pending, id);
    case _ =>
  }

  lemma KeepsReadRetryCount(cfg: Config, s: State, ok: bool, now: nat)
    requires Inv(cfg, s) && s.worker.Failing?
    ensures Inv(cfg, NextReadRetryCount(s, ok, now))
  {
    var s' := NextReadRetryCount(s, ok, now);
    forall i | 0 <= i < |s.db.requests| && i != s.worker.id ensures ViewOf(s', i) == ViewOf(s, i) {}
    assert Sound(cfg.maxRetries, ViewOf(s, s.worker.id));
    Unmoved(cfg, s, s');
  }

  lemma KeepsWriteFail(cfg: Config, s: State, ok: bool)
    requires Inv(cfg, s) && s.worker.FailRead?
    ensures Inv(cfg, NextWriteFail(cfg, s, ok))
  {
    var s' := NextWriteFail(cfg, s, ok);
    var id := s.worker.id;
    assert SameElsewhere(s, s', id);
    forall i | 0 <= i < |s.db.requests| && i != id ensures ViewOf(s', i) == ViewOf(s, i) {}
    FailedAttempt(cfg, s, ok);
    Unmoved(cfg, s, s');
  }

  /** What the write of Fail does to the claim's view. */
  function FailedView(maxRetries: int, v: View, count: nat, at: nat): View {
    var c := v.claim.(retryCount := count, updatedAt := at);
    var requeued := v.history.(requeues := v.history.requeues + 1, lastFailure := Some(Failure(at, count)));
    if count >= maxRetries then v.(claim := c.(status := Failed), held := false, failCount := None)
    else v.(claim := c.(status := Queued, nextAttemptAt := Some(at + count * BACKOFF)), history := requeued,
            held := false, failCount := None)
  }

  lemma FailedViewSound(maxRetries: int, v: View, count: nat, at: nat)
    requires Sound(maxRetries, v) && v.failCount == Some(count)
    ensures Sound(maxRetries, FailedView(maxRetries, v, count, at))
    ensures Sound(maxRetries, v.(held := false, failCount := None))
  {
  }

  lemma RevivedSound(maxRetries: int, v: View, n: nat)
    ensures Sound(maxRetries, v.(history := v.history.(revived := n))) == Sound(maxRetries, v)
  {
  }

  lemma FailedAttempt(cfg: Config, s: State, ok: bool)
    requires Inv(cfg, s) && s.worker.FailRead?
    ensures Sound(cfg.maxRetries, ViewOf(NextWriteFail(cfg, s, ok), s.worker.id))
  {
    hide CountTx, Sound;
    var w := s.worker;
    var s' := NextWriteFail(cfg, s, ok);
    var v, v' := ViewOf(s, w.id), ViewOf(s', w.id);
    FailedViewSound(cfg.maxRetries, v, w.count, w.at);
    if ok {
      assert v'.(history := v'.history.(revived := v.history.revived)) == FailedView(cfg.maxRetries, v, w.count, w.at);
      RevivedSound(cfg.maxRetries, v', v.history.revived);
    } else {
      assert v' == v.(held := false, failCount := None);
    }
  }

  /** Only one of a claim's transactions can be in front of the watcher unless it was paid twice. */
  lemma NoSecondEntry(txs: seq<Transaction>, pending: seq<nat>, id: nat)
    requires pending != [] && Distinct(pending) && forall k :: 0 <= k < |pending| ==> pending[k] < |txs|
    ensures InPending(txs, pending[1..], id) ==> InPending(txs, pending, id)
    ensures InPending(txs, pending[1..], id) && id == txs[pending[0]].claimId ==> CountTx(txs, id) >= 2
  {
    if k :| 0 <= k < |pending| - 1 && txs[pending[1..][k]].claimId == id {
      var t, u := pending[0], pending[k + 1];
      assert pending[1..][k] == u;
      if id == txs[t].claimId {
        if t < u {
          CountTxTwo(txs, t, u);
        } else {
          CountTxTwo(txs, u, t);
        }
      }
    }
  }

  /** A step that moves only the watcher, and puts no confirmed claim in front of it. */
  lemma KeepsWatcherMove(cfg: Config, s: State, watcher: Watcher)
    requires Inv(cfg, s)
    requires var s' := s.(watcher := watcher);
             WatcherInRange(s') && forall i :: 0 <= i < |s.db.requests| && Watches(s', i) ==>
               Watches(s, i) || s.db.requests[i].status != Confirmed
    ensures Inv(cfg, s.(watcher := watcher))
  {
    var s' := s.(watcher := watcher);
    forall i | 0 <= i < |s.db.requests| ensures Sound(cfg.maxRetries, ViewOf(s', i)) {
      assert Sound(cfg.maxRetries, ViewOf(s, i));
      assert ViewOf(s', i) == ViewOf(s, i).(watched := Watches(s', i));
    }
  }

  lemma KeepsFailTransaction(cfg: Config, s: State, id: nat, now: nat)
    requires Inv(cfg, s) && id < |s.db.requests|
    ensures Inv(cfg, Write(s, id, AfterFailTransaction(s.db, id, now)))
  {
    var s' := Write(s, id, AfterFailTransaction(s.db, id, now));
    MarkingKeepsOwners(s, s', id);
    assert Sound(cfg.maxRetries, ViewOf(s, id));
    TouchesOne(cfg, s, s', id);
  }

  lemma KeepsConfirm(cfg: Config, s: State, id: nat, block: nat, gasUsed: nat, now: nat)
    requires Inv(cfg, s) && id < |s.db.requests| && s.db.requests[id].status == Sent
    requires CountTx(s.db.transactions, id) > 0 && (Watches(s, id) ==> s.history[id].retries > 0)
    ensures Inv(cfg, Write(s, id, AfterConfirm(s.db, id, block, gasUsed, now)))
  {
    var s' := Write(s, id, AfterConfirm(s.db, id, block, gasUsed, now));
    MarkingKeepsOwners(s, s', id);
    assert Sound(cfg.maxRetries, ViewOf(s, id));
    TouchesOne(cfg, s, s', id);
  }

  lemma KeepsReceipt(cfg: Config, s: State, receipt: Receipt, ok: bool, now: nat)
    requires Inv(cfg, s) && s.watcher.Receipts? && s.watcher.pending != []
    ensures Inv(cfg, NextCheckReceipt(cfg, s, receipt, ok, now))
  {
    var txs, pending := s.db.transactions, s.watcher.pending;
    var id := txs[pending[0]].claimId;
    var done := s.(watcher := CarryOn(s.watcher));
    forall i | 0 <= i < |s.db.requests| && Watches(done, i) ensures Watches(s, i) {
      NoSecondEntry(txs, pending, i);
    }
    KeepsWatcherMove(cfg, s, done.watcher);
    CountTxPositive(txs, pending[0]);
    NoSecondEntry(txs, pending, id);
    assert Sound(cfg.maxRetries, ViewOf(s, id));
    if ok && receipt.Reverted? {
      KeepsFailTransaction(cfg, done, id, now);
    } else if ok && receipt.Mined? && s.db.requests[id].status == Sent {
      KeepsConfirm(cfg, done, id, receipt.block, receipt.gasUsed, now);
    }
  }

  lemma KeepsReconcile(cfg: Config, s: State, ok: bool, now: nat)
    requires Inv(cfg, s) && s.watcher.Reconciling? && s.watcher.stuck != []
    ensures Inv(cfg, NextReconcile(s, ok, now))
  {
    var stuck := s.watcher.stuck;
    assert stuck == [stuck[0]] + stuck[1..];
    var s' := if ok then Write(s, stuck[0], AfterFailTransaction(s.db, stuck[0], now)) else s;
    if ok {
      KeepsFailTransaction(cfg, s, stuck[0], now);
    }
    KeepsWatcherMove(cfg, s', NextReconcile(s, ok, now).watcher);
  }

  lemma KeepsRetry(cfg: Config, s: State, id: nat, now: nat)
    requires Inv(cfg, s) && id < |s.db.requests| && Retryable(s.db.requests[id].status)
    ensures Inv(cfg, NextRetry(s, id, now))
  {
    assert Sound(cfg.maxRetries, ViewOf(s, id));
    TouchesOne(cfg, s, NextRetry(s, id, now), id);
  }

  lemma KeepsCancel(cfg: Config, s: State, id: nat, now: nat)
    requires Inv(cfg, s) && id < |s.db.requests| && Cancellable(s.db.requests[id].status)
    ensures Inv(cfg, NextCancel(s, id, now))
  {
    assert Sound(cfg.maxRetries, ViewOf(s, id));
    TouchesOne(cfg, s, NextCancel(s, id, now), id);
  }

  /** Calls and invitations are no part of any claim's view. */
  lemma KeepsIntakeMove(cfg: Config, s: State, s': State)
    requires Inv(cfg, s) && s' == s.(calls := s'.calls, db := s'.db, droppedUses := s'.droppedUses, openInvites := s'.openInvites)
    requires s'.db == s.db.(invitations := s'.db.invitations)
    ensures Inv(cfg, s')
  {
    Unmoved(cfg, s, s');
  }

  lemma KeepsWorkerCrash(cfg: Config, s: State)
    requires Inv(cfg, s)
    ensures Inv(cfg, s.(worker := Idle))
  {
    var s' := s.(worker := Idle);
    forall i | 0 <= i < |s.db.requests| ensures Sound(cfg.maxRetries, ViewOf(s', i)) {
      assert Sound(cfg.maxRetries, ViewOf(s, i));
    }
  }

  lemma InvServiceStep(cfg: Config, s: State, step: Step)
    requires Inv(cfg, s) && Enabled(cfg, s, step)
    requires !WorkerStep(step) && !WatcherStep(step)
    ensures Inv(cfg, Take(cfg, s, step))
  {
    if step.Admit? {
      KeepsAdmit(cfg, s, step.call, step.created, step.windowNow);
    } else if step.Consume? {
      KeepsConsume(cfg, s, step.id, step.ok);
    } else if step.Enqueue? {
      KeepsEnqueue(cfg, s, step.id, step.ok, step.now);
    } else if step.Reject? {
      KeepsReject(cfg, s, step.id, step.ok, step.now);
    } else if step.AbandonIntake? {
      KeepsAbandon(cfg, s, step.id);
    } else if step.OperatorRetry? {
      KeepsRetry(cfg, s, step.id, step.now);
    } else if step.OperatorCancel? {
      KeepsCancel(cfg, s, step.id, step.now);
    } else {
      KeepsIntakeMove(cfg, s, Take(cfg, s, step));
    }
  }

  predicate WorkerStep(step: Step) {
    step.Dequeue? || step.Send? || step.Ack? || step.ReadRetryCount? || step.WriteFail? || step.WorkerCrash?
  }

  predicate WatcherStep(step: Step) {
    || step.ListPending? || step.ReadHead? || step.CheckReceipt? || step.ListStuck? || step.Reconcile?
    || step.WatcherCrash?
  }

  lemma InvWorkerStep(cfg: Config, s: State, step: Step)
    requires Inv(cfg, s) && Enabled(cfg, s, step) && WorkerStep(step)
    ensures Inv(cfg, Take(cfg, s, step))
  {
    hide StampedNotAfter;
    match step
    case Dequeue(picks, now) => KeepsDequeue(cfg, s, picks, now);
    case Send(outcome) => KeepsSend(cfg, s, outcome);
    case Ack(ok, now) => KeepsAck(cfg, s, ok, now);
    case ReadRetryCount(ok, now) => KeepsReadRetryCount(cfg, s, ok, now);
    case WriteFail(ok) => KeepsWriteFail(cfg, s, ok);
    case WorkerCrash => KeepsWorkerCrash(cfg, s);
  }

  lemma InvWatcherStep(cfg: Config, s: State, step: Step)
    requires Inv(cfg, s) && Enabled(cfg, s, step) && WatcherStep(step)
    ensures Inv(cfg, Take(cfg, s, step))
  {
    hide StampedNotAfter;
    if step.CheckReceipt? {
      KeepsReceipt(cfg, s, step.receipt, step.ok, step.now);
    } else if step.Reconcile? {
      KeepsReconcile(cfg, s, step.ok, step.now);
    } else {
      KeepsWatcherMove(cfg, s, Take(cfg, s, step).watcher);
    }
  }

  lemma InvStep(cfg: Config, s: State, step: Step)
    requires Inv(cfg, s)
    ensures Inv(cfg, Next(cfg, s, step))
  {
    if Enabled(cfg, s, step) {
      if WorkerStep(step) {
        InvWorkerStep(cfg, s, step);
      } else if WatcherStep(step) {
        InvWatcherStep(cfg, s, step);
      } else {
        InvServiceStep(cfg, s, step);
      }
    }
  }

  lemma {:induction false} InvRun(cfg: Config, s: State, steps: seq<Step>)
    requires Inv(cfg, s)
    ensures Inv(cfg, RunFrom(cfg, s, steps))
  {
    if steps != [] {
      InvRun(cfg, s, steps[..|steps| - 1]);
      InvStep(cfg, RunFrom(cfg, s, steps[..|steps| - 1]), steps[|steps| - 1]);
    }
  }
}
