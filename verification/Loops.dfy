/** The service call, the worker loop and the watcher loops as they are written, over the Store
    object. Run without interference, each is a run of the claim system. */
module Loops {
  import opened Domain
  import opened Text
  import opened TimeText
  import opened StoreSpec
  import opened StoreClass
  import opened ClaimSystem
  import opened Lifecycle
  import opened Witnesses

  /** The run `steps` of the claim system from `s` ends with the given tables. */
  ghost predicate Explains(cfg: Config, s: State, steps: seq<Step>, db: Db) {
    Inv(cfg, RunFrom(cfg, s, steps)) && RunFrom(cfg, s, steps).db == db
  }

  lemma Grow(cfg: Config, s: State, steps: seq<Step>, last: Step)
    requires Inv(cfg, RunFrom(cfg, s, steps))
    ensures Inv(cfg, RunFrom(cfg, s, steps + [last]))
    ensures RunFrom(cfg, s, steps + [last]) == Next(cfg, RunFrom(cfg, s, steps), last)
  {
    Extend(cfg, s, steps, last);
    InvStep(cfg, RunFrom(cfg, s, steps), last);
  }

  // ---- The worker ----

  /** What the outside world answers while one claim is processed: the send, and whether each
      statement succeeds. */
  datatype Attempt = Attempt(outcome: SendOutcome, readOk: bool, writeOk: bool, now: nat)

  function AttemptSteps(a: Attempt): seq<Step> {
    if a.outcome.SendOk? then [Send(a.outcome), Ack(a.writeOk, a.now)]
    else if a.readOk then [Send(a.outcome), ReadRetryCount(true, a.now), WriteFail(a.writeOk)]
    else [Send(a.outcome), ReadRetryCount(false, a.now)]
  }

  /** What one processBatch does: one dequeue, then one attempt per claim. */
  function BatchSteps(selected: seq<nat>, now: nat, attempts: seq<Attempt>): seq<Step> {
    if attempts == [] then [Dequeue(selected, now)]
    else BatchSteps(selected, now, attempts[..|attempts| - 1]) + AttemptSteps(attempts[|attempts| - 1])
  }

  /** The state those steps lead to. */
  ghost function AttemptState(cfg: Config, s: State, a: Attempt): State
    requires Inv(cfg, s) && s.worker.Batch? && s.worker.todo != []
  {
    SendStep(cfg, s, a.outcome);
    var s1 := NextSend(s, a.outcome);
    if a.outcome.SendOk? then NextAck(s1, a.writeOk, a.now)
    else
      var s2 := NextReadRetryCount(s1, a.readOk, a.now);
      if a.readOk then NextWriteFail(cfg, s2, a.writeOk) else s2
  }

  lemma SendStep(cfg: Config, s: State, outcome: SendOutcome)
    requires Inv(cfg, s) && s.worker.Batch? && s.worker.todo != []
    ensures WellShaped(s) && s.worker.todo[0] < |s.db.requests|
    ensures var s' := NextSend(s, outcome);
            && Inv(cfg, s') && WellShaped(s') && Next(cfg, s, Send(outcome)) == s'
            && (if outcome.SendOk? then s'.worker == Acking(s.worker.todo[0], outcome.hash, s.worker.todo[1..])
                else s'.worker == Failing(s.worker.todo[0], s.worker.todo[1..]))
  {
    KeepsSend(cfg, s, outcome);
  }

  lemma AckStep(cfg: Config, s: State, ok: bool, now: nat)
    requires Inv(cfg, s) && s.worker.Acking?
    ensures var s' := NextAck(s, ok, now);
            Inv(cfg, s') && Next(cfg, s, Ack(ok, now)) == s' && s'.worker == Carry(s.worker.todo)
  {
    KeepsAck(cfg, s, ok, now);
  }

  lemma ReadStep(cfg: Config, s: State, ok: bool, now: nat)
    requires Inv(cfg, s) && s.worker.Failing?
    ensures var s' := NextReadRetryCount(s, ok, now);
            && Inv(cfg, s') && WellShaped(s') && Next(cfg, s, ReadRetryCount(ok, now)) == s'
            && (if ok then s'.worker.FailRead? && s'.worker.todo == s.worker.todo else s'.worker == Carry(s.worker.todo))
  {
    KeepsReadRetryCount(cfg, s, ok, now);
  }

  lemma WriteStep(cfg: Config, s: State, ok: bool)
    requires Inv(cfg, s) && s.worker.FailRead?
    ensures var s' := NextWriteFail(cfg, s, ok);
            Inv(cfg, s') && Next(cfg, s, WriteFail(ok)) == s' && s'.worker == Carry(s.worker.todo)
  {
    KeepsWriteFail(cfg, s, ok);
  }

  lemma DequeueStep(cfg: Config, s: State, picks: seq<nat>, now: nat)
    requires Inv(cfg, s) && s.worker.Idle? && (cfg.batchSize > 0 ==> IsBatch(s.db.requests, now, cfg.batchSize, picks))
    ensures var s' := Next(cfg, s, Dequeue(picks, now));
            && Inv(cfg, s')
            && (if cfg.batchSize > 0 then s'.db == AfterDequeue(s.db, picks, now) && s'.worker == Carry(picks) else s' == s)
  {
    hide IsBatch, AllSound;
    if cfg.batchSize > 0 {
      KeepsDequeue(cfg, s, picks, now);
    }
  }

  lemma AttemptRun(cfg: Config, s: State, a: Attempt)
    requires Inv(cfg, s) && s.worker.Batch? && s.worker.todo != []
    ensures RunFrom(cfg, s, AttemptSteps(a)) == AttemptState(cfg, s, a)
    ensures Inv(cfg, AttemptState(cfg, s, a)) && AttemptState(cfg, s, a).worker == Carry(s.worker.todo[1..])
  {
    hide Inv, Next, NextSend, NextAck, NextReadRetryCount, NextWriteFail, RunFrom;
    SendStep(cfg, s, a.outcome);
    var s1 := NextSend(s, a.outcome);
    if a.outcome.SendOk? {
      AckStep(cfg, s1, a.writeOk, a.now);
      TwoSteps(cfg, s, Send(a.outcome), Ack(a.writeOk, a.now));
    } else {
      ReadStep(cfg, s1, a.readOk, a.now);
      TwoSteps(cfg, s, Send(a.outcome), ReadRetryCount(a.readOk, a.now));
      if a.readOk {
        WriteStep(cfg, NextReadRetryCount(s1, true, a.now), a.writeOk);
        Extend(cfg, s, [Send(a.outcome), ReadRetryCount(true, a.now)], WriteFail(a.writeOk));
        assert [Send(a.outcome), ReadRetryCount(true, a.now)] + [WriteFail(a.writeOk)] == AttemptSteps(a);
      }
    }
  }

  class WorkerLoop {
    const store: Store
    const batchSize: int
    const maxRetries: int

    constructor (store: Store, batchSize: int, maxRetries: int)
      ensures this.store == store && this.batchSize == batchSize && this.maxRetries == maxRetries
    {
      this.store, this.batchSize, this.maxRetries := store, batchSize, maxRetries;
    }

    /** Sends one claim and acknowledges or fails it. */
    method ProcessClaim(id: nat, a: Attempt, ghost cfg: Config, ghost s: State)
      requires Inv(cfg, s) && s.db == store.Tables() && maxRetries == cfg.maxRetries
      requires s.worker.Batch? && s.worker.todo != [] && s.worker.todo[0] == id
      modifies store
      ensures AttemptState(cfg, s, a).db == store.Tables()
      ensures id < |store.requests| == |old(store.requests)|
      ensures a.outcome.SendOk? && a.writeOk && old(store.requests)[id].status == Sending
              && (a.outcome.hash.None? || !HashKnown(old(store.transactions), a.outcome.hash.value)) ==>
                && store.requests[id].status == Sent
                && store.transactions == old(store.transactions)
                     + if a.outcome.hash.None? then [] else [Transaction(id, a.outcome.hash.value, Sent, 0, 0)]
      ensures a.outcome.SendError? && a.readOk && a.writeOk ==>
                var count := old(store.requests)[id].retryCount + 1;
                && store.requests[id].retryCount == count
                && (if count >= maxRetries then store.requests[id].status == Failed
                    else store.requests[id].status == Queued && store.requests[id].nextAttemptAt == Some(a.now + count * 30_000_000_000))
      ensures !a.writeOk ==> store.Tables() == old(store.Tables())
    {
      hide AllSound, WrittenOff;
      match a.outcome
      case SendError(_) =>
        var _ := store.Fail(id, a.now, maxRetries, a.readOk, a.writeOk);
      case SendOk(hash) =>
        if a.writeOk {
          var _ := store.Ack(id, hash, a.now);
        }
    }

    /** processBatch, given the rows its SELECT returned and the world's answers. It leaves
        the tables as its steps of the claim system do, and ends idle. */
    method ProcessBatch(selected: seq<nat>, now: nat, attempts: seq<Attempt>, ghost cfg: Config, ghost s: State)
      requires Inv(cfg, s) && s.db == store.Tables() && s.worker.Idle?
      requires batchSize == cfg.batchSize && maxRetries == cfg.maxRetries
      requires batchSize > 0 ==> IsBatch(store.requests, now, batchSize, selected)
      requires |attempts| == if batchSize > 0 then |selected| else 0
      modifies store
      ensures Explains(cfg, s, BatchSteps(selected, now, attempts), store.Tables())
      ensures RunFrom(cfg, s, BatchSteps(selected, now, attempts)).worker.Idle?
    {
      hide StampedNotAfter, Inv, Next, RunFrom, AttemptState, AttemptSteps;
      var claims := store.DequeueBatch(batchSize, selected, now);
      ghost var state := Next(cfg, s, Dequeue(selected, now));
      DequeueStep(cfg, s, selected, now);
      Extend(cfg, s, [], Dequeue(selected, now));
      EmptyRun(cfg, s);
      ghost var steps := [] + [Dequeue(selected, now)];
      for k := 0 to |claims|
        invariant Inv(cfg, state) && state.db == store.Tables() && state.worker == Carry(claims[k..])
        invariant state == RunFrom(cfg, s, steps) && steps == BatchSteps(selected, now, attempts[..k])
      {
        ProcessClaim(claims[k], attempts[k], cfg, state);
        AttemptRun(cfg, state, attempts[k]);
        Compose(cfg, s, steps, AttemptSteps(attempts[k]));
        state := RunFrom(cfg, state, AttemptSteps(attempts[k]));
        steps := steps + AttemptSteps(attempts[k]);
        assert claims[k..][1..] == claims[k + 1..];
        assert attempts[..k + 1][..k] == attempts[..k];
      }
      assert attempts[..|attempts|] == attempts;
    }
  }

  // ---- The watcher ----

  lemma ReceiptStep(cfg: Config, s: State, step: Step)
    requires Inv(cfg, s) && s.watcher.Receipts? && s.watcher.pending != [] && step.CheckReceipt?
    ensures Next(cfg, s, step) == NextCheckReceipt(cfg, s, step.receipt, step.ok, step.now)
  {
  }

  lemma ReconcileStep(cfg: Config, s: State, step: Step)
    requires Inv(cfg, s) && s.watcher.Reconciling? && s.watcher.stuck != [] && step.Reconcile?
    ensures var s' := Next(cfg, s, step);
            && s.watcher.stuck[0] < |s.db.requests|
            && s'.db == (if step.ok then AfterFailTransaction(s.db, s.watcher.stuck[0], step.now) else s.db)
            && s'.watcher == if |s.watcher.stuck| == 1 then Resting else Reconciling(s.watcher.stuck[1..])
  {
    hide AllSound;
  }

  datatype Answer = Answer(receipt: Receipt, ok: bool, now: nat)

  function ReceiptStepOf(a: Answer): Step { CheckReceipt(a.receipt, a.ok, a.now) }

  function ReceiptSteps(answers: seq<Answer>): seq<Step> {
    seq(|answers|, k requires 0 <= k < |answers| => ReceiptStepOf(answers[k]))
  }

  function ReconcileStepOf(a: Answer): Step { Reconcile(a.ok, a.now) }

  function ReconcileSteps(answers: seq<Answer>): seq<Step> {
    seq(|answers|, k requires 0 <= k < |answers| => ReconcileStepOf(answers[k]))
  }

  class WatcherLoop {
    const store: Store
    const minConfirmations: nat

    constructor (store: Store, minConfirmations: nat)
      ensures this.store == store && this.minConfirmations == minConfirmations
    {
      this.store, this.minConfirmations := store, minConfirmations;
    }

    /** One round of the receipt loop. */
    method CheckOne(t: nat, head: nat, a: Answer, ghost cfg: Config, ghost s: State)
      requires Inv(cfg, s) && s.db == store.Tables() && minConfirmations == cfg.minConfirmations
      requires s.watcher.Receipts? && s.watcher.head == head && s.watcher.pending != [] && s.watcher.pending[0] == t
      modifies store
      ensures var s' := NextCheckReceipt(cfg, s, a.receipt, a.ok, a.now);
              s'.db == store.Tables() && s'.watcher == CarryOn(s.watcher)
      ensures t < |old(store.transactions)| && old(store.transactions)[t].claimId < |store.requests| == |old(store.requests)|
      ensures var id, old' := old(store.transactions)[t].claimId, old(store.requests);
              && (!a.ok || a.receipt.NotMined? ==> store.Tables() == old(store.Tables()))
              && (a.ok && a.receipt.Reverted? ==> store.requests[id].status == Failed)
              && (a.ok && a.receipt.Mined? && old'[id].status == Sent && a.receipt.block + minConfirmations < UINT64 ==>
                    store.requests[id].status == if head >= a.receipt.block + minConfirmations then Confirmed else Sent)
    {
      var id := store.transactions[t].claimId;
      match a.receipt
      case NotMined =>
      case Reverted =>
        if a.ok {
          store.FailTransaction(id, a.now);
        }
      case Mined(block, gasUsed) =>
        if head >= (block + minConfirmations) % UINT64 && a.ok {
          var _ := store.ConfirmTransaction(id, block, gasUsed, a.now);
        }
    }

    /** watchReceipts after ListPendingTransactions and BlockNumber have answered. */
    method WatchReceipts(pending: seq<nat>, head: nat, answers: seq<Answer>, ghost cfg: Config, ghost s: State)
      requires Inv(cfg, s) && s.db == store.Tables() && minConfirmations == cfg.minConfirmations
      requires s.watcher == Receipts(head, pending) && pending != [] && |answers| == |pending|
      modifies store
      ensures Explains(cfg, s, ReceiptSteps(answers), store.Tables())
      ensures RunFrom(cfg, s, ReceiptSteps(answers)).watcher == BeforeStuck
    {
      hide Inv, RunFrom, NextCheckReceipt;
      ghost var steps: seq<Step> := [];
      ghost var state := s;
      EmptyRun(cfg, s);
      for k := 0 to |pending|
        invariant steps == ReceiptSteps(answers)[..k]
        invariant Inv(cfg, state) && state.db == store.Tables() && state == RunFrom(cfg, s, steps)
        invariant state.watcher == if k == |pending| then BeforeStuck else Receipts(head, pending[k..])
      {
        assert pending[k..][1..] == pending[k + 1..];
        ghost var step := ReceiptStepOf(answers[k]);
        CheckOne(pending[k], head, answers[k], cfg, state);
        ReceiptStep(cfg, state, step);
        Grow(cfg, s, steps, step);
        state, steps := Next(cfg, state, step), steps + [step];
      }
      assert steps == ReceiptSteps(answers);
    }

    /** reconcileStuck after ListStuckSending has answered. */
    method ReconcileStuck(stuck: seq<nat>, answers: seq<Answer>, ghost cfg: Config, ghost s: State)
      requires Inv(cfg, s) && s.db == store.Tables()
      requires s.watcher == Reconciling(stuck) && stuck != [] && |answers| == |stuck|
      modifies store
      ensures Explains(cfg, s, ReconcileSteps(answers), store.Tables())
      ensures RunFrom(cfg, s, ReconcileSteps(answers)).watcher == Resting
    {
      hide Inv, RunFrom, NextReconcile;
      ghost var steps: seq<Step> := [];
      EmptyRun(cfg, s);
      ghost var state := s;
      for k := 0 to |stuck|
        invariant steps == ReconcileSteps(answers)[..k]
        invariant Inv(cfg, state) && state.db == store.Tables() && state == RunFrom(cfg, s, steps)
        invariant state.watcher == if k == |stuck| then Resting else Reconciling(stuck[k..])
      {
        assert stuck[k..][1..] == stuck[k + 1..];
        ghost var step := ReconcileStepOf(answers[k]);
        ReconcileStep(cfg, state, step);
        if answers[k].ok {
          store.FailTransaction(stuck[k], answers[k].now);
        }
        Grow(cfg, s, steps, step);
        state, steps := Next(cfg, state, step), steps + [step];
      }
      assert steps == ReconcileSteps(answers);
    }
  }

  // ---- The service ----

  datatype Response = Claimed(id: nat) | Denied

  /** Clock readings of one call, whether the checks outside this model let it through, and
      whether its statements succeed. */
  datatype Weather = Weather(checkNow: nat, checksOk: bool, created: nat, windowNow: nat, later: nat,
                             consumeOk: bool, enqueueOk: bool, rejectOk: bool, readOk: bool)

  /** Up to the insert. A step that an earlier one made impossible does nothing. */
  function OpenSteps(k: nat, w: Weather, seen: CampaignReads): seq<Step> {
    [Lookup(k), CheckCampaign(k, w.checkNow, seen), if w.checksOk then Admit(k, w.created, w.windowNow) else AbandonCall(k)]
  }

  /** What enforceCampaign reads when nothing changes in between. */
  function ReadsNow(db: Db, r: Request): CampaignReads {
    var code := if r.invitationCode in db.invitations then Some(db.invitations[r.invitationCode]) else None;
    var id := if r.campaignId == "" && code.Some? then code.value.campaignId else r.campaignId;
    CampaignReads(code, code, CampaignSum(db.requests, id))
  }

  function CampaignSum(rows: seq<Claim>, campaignId: string): (total: nat)
    ensures total == CampaignTotal(rows, campaignId)
  {
    SumNonNegative(CampaignColumn(rows, campaignId));
    CampaignTotal(rows, campaignId)
  }

  /** After the insert. */
  function CloseSteps(id: nat, w: Weather): seq<Step> {
    [Consume(id, w.consumeOk), Enqueue(id, w.enqueueOk, w.later), Reject(id, w.rejectOk, w.later)]
  }

  lemma ThreeSteps(cfg: Config, s: State, a: Step, b: Step, c: Step)
    requires Inv(cfg, s)
    ensures RunFrom(cfg, s, [a, b, c]) == Next(cfg, Next(cfg, Next(cfg, s, a), b), c)
    ensures Inv(cfg, Next(cfg, s, a)) && Inv(cfg, Next(cfg, Next(cfg, s, a), b))
    ensures Inv(cfg, Next(cfg, Next(cfg, Next(cfg, s, a), b), c))
  {
    hide Inv, Next;
    TwoSteps(cfg, s, a, b);
    Extend(cfg, s, [a, b], c);
    assert [a, b] + [c] == [a, b, c];
    InvStep(cfg, s, a);
    InvStep(cfg, Next(cfg, s, a), b);
    InvStep(cfg, Next(cfg, Next(cfg, s, a), b), c);
  }

  lemma CloseStepsAfter(cfg: Config, s: State, id: nat, w: Weather)
    requires Inv(cfg, s) && id >= |s.intake|
    ensures RunFrom(cfg, s, CloseSteps(id, w)) == s
  {
    hide AllSound;
    ThreeSteps(cfg, s, Consume(id, w.consumeOk), Enqueue(id, w.enqueueOk, w.later), Reject(id, w.rejectOk, w.later));
  }

  /** The answer of the call recorded at k; a new claim is read back once more before it is returned. */
  function Answered(s: State, k: nat, readOk: bool): Response
    requires k < |s.calls|
  {
    match s.calls[k].state
    case Replayed(id) => Claimed(id)
    case Committed(id) => if id < |s.history| && s.history[id].enqueued && readOk then Claimed(id) else Denied
    case _ => Denied
  }

  function Outcome(result: Option<CreateResult>): CallState {
    if result.None? then Refused
    else match result.value
      case Existing(id) => Replayed(id)
      case DailyBudgetExceeded => Refused
      case CampaignBudgetExceeded => Refused
      case Inserted(id) => Committed(id)
  }

  // The service's steps, one at a time.

  lemma LookupStep(cfg: Config, s: State, k: nat)
    requires WellShaped(s) && k < |s.calls| && s.calls[k].state == Fresh
    ensures var r, s' := s.calls[k].request, Next(cfg, s, Lookup(k));
            var existing := if r.key == "" then None else FindKey(s.db.requests, r.key);
            s' == SetCall(s, k, if existing.Some? then Replayed(existing.value) else LookedUp)
  {
  }

  lemma CheckStep(cfg: Config, s: State, k: nat, now: nat, seen: CampaignReads)
    requires WellShaped(s) && k < |s.calls|
    ensures var s' := Next(cfg, s, CheckCampaign(k, now, seen));
            if s.calls[k].state == LookedUp then
              var d := EnforceCampaign(cfg, seen, s.calls[k].request, now);
              s' == SetCall(s, k, if d.None? then Refused else Checked(d.value.0, d.value.1))
            else s' == s
  {
    hide EnforceCampaign;
  }

  lemma AdmitStep(cfg: Config, s: State, k: nat, w: Weather, seen: CampaignReads)
    requires WellShaped(s) && k < |s.calls| && (s.calls[k].state.Checked? || s.calls[k].state.Replayed? || s.calls[k].state.Refused?)
    ensures var s' := Next(cfg, s, OpenSteps(k, w, seen)[2]);
            if !s.calls[k].state.Checked? then s' == s
            else if !w.checksOk then s' == SetCall(s, k, Refused)
            else
              var c := NewClaim(s.calls[k].request, s.calls[k].state.campaignId, s.calls[k].state.code, w.created);
              var result := CreateFor(cfg, s, c, w.windowNow);
              && s'.db == (if result.Inserted? then AfterInsert(s.db, c) else s.db)
              && |s'.calls| == |s.calls| && s'.calls[k].state == Outcome(Some(result))
              && (if result.Inserted? then
                    result.id == |s.db.requests|
                    && s'.intake == s.intake + [if c.invitationCode == "" then AwaitEnqueue else AwaitConsume]
                    && s'.history == s.history + [NEW_HISTORY]
                  else s'.intake == s.intake)
  {
    hide CreateFor;
    if s.calls[k].state.Checked? {
      InsertedId(cfg, s, NewClaim(s.calls[k].request, s.calls[k].state.campaignId, s.calls[k].state.code, w.created), w.windowNow);
    }
  }

  lemma InsertedId(cfg: Config, s: State, c: Claim, windowNow: nat)
    ensures var result := CreateFor(cfg, s, c, windowNow); result.Inserted? ==> result.id == |s.db.requests|
  {
    hide TokenTotal, CampaignTotal;
  }

  lemma ConsumeStep(cfg: Config, s: State, id: nat, ok: bool)
    requires WellShaped(s) && id < |s.db.requests|
    ensures var s' := Next(cfg, s, Consume(id, ok));
            && s'.calls == s.calls && |s'.db.requests| == |s.db.requests| && WellShaped(s')
            && s'.history[id].enqueued == s.history[id].enqueued
            && (if s.intake[id] == AwaitConsume then
                  var code := s.db.requests[id].invitationCode;
                  var used := ok && Consumable(s.db, code);
                  && s'.db == (if used then AfterConsume(s.db, code) else s.db)
                  && s'.intake[id] == if used then AwaitEnqueue else AwaitReject
                else s' == s)
  {
  }

  lemma EnqueueStep(cfg: Config, s: State, id: nat, ok: bool, now: nat)
    requires WellShaped(s) && id < |s.db.requests|
    ensures var s' := Next(cfg, s, Enqueue(id, ok, now));
            && s'.calls == s.calls && |s'.db.requests| == |s.db.requests| && WellShaped(s')
            && (if s.intake[id] == AwaitEnqueue then
                  && s'.db == (if ok then WithStatus(s.db, id, Queued, now) else s.db)
                  && s'.intake[id] == (if ok then Settled else AwaitReject)
                  && s'.history[id].enqueued == (ok || s.history[id].enqueued)
                else s' == s)
  {
  }

  lemma RejectStep(cfg: Config, s: State, id: nat, ok: bool, now: nat)
    requires WellShaped(s) && id < |s.db.requests|
    ensures var s' := Next(cfg, s, Reject(id, ok, now));
            && s'.calls == s.calls && |s'.db.requests| == |s.db.requests| && WellShaped(s')
            && s'.history[id].enqueued == s.history[id].enqueued
            && (if s.intake[id] == AwaitReject then
                  && s'.db == (if ok then WithStatus(s.db, id, Rejected, now) else s.db)
                  && s'.intake[id] == Settled
                else s' == s)
  {
  }

  class Service {
    const store: Store
    const cfg: Config

    constructor (store: Store, cfg: Config)
      ensures this.store == store && this.cfg == cfg
    {
      this.store, this.cfg := store, cfg;
    }

    /** The tail of CreateClaim for a claim it just inserted: consume the invitation use, then
        enqueue; a failure rejects the claim. */
    method Finish(id: nat, w: Weather, ghost s: State) returns (ok: bool)
      requires Inv(cfg, s) && s.db == store.Tables() && id < |s.db.requests| && !s.history[id].enqueued
      requires s.intake[id] == if s.db.requests[id].invitationCode == "" then AwaitEnqueue else AwaitConsume
      modifies store
      ensures Explains(cfg, s, CloseSteps(id, w), store.Tables())
      ensures var s' := RunFrom(cfg, s, CloseSteps(id, w));
              && s'.calls == s.calls && id < |s'.intake| == |s'.history| && s'.intake[id] == Settled
              && ok == s'.history[id].enqueued
      ensures id < |store.requests| == |old(store.requests)|
      ensures ok ==> store.requests[id].status == Queued
      ensures !ok && w.rejectOk ==> store.requests[id].status == Rejected
      ensures var code := old(store.requests)[id].invitationCode;
              var used := code != "" && w.consumeOk && code in old(store.invitations) && old(store.invitations)[code].enabled
                          && (old(store.invitations)[code].maxUses == 0
                              || old(store.invitations)[code].uses < old(store.invitations)[code].maxUses);
              && (ok <==> w.enqueueOk && (code == "" || used))
              && (used ==> code in store.invitations && store.invitations[code].uses == old(store.invitations)[code].uses + 1)
              && (!used ==> store.invitations == old(store.invitations))
    {
      hide Next, RunFrom, AllSound;
      ghost var s1 := Next(cfg, s, Consume(id, w.consumeOk));
      ghost var s2 := Next(cfg, s1, Enqueue(id, w.enqueueOk, w.later));
      ThreeSteps(cfg, s, Consume(id, w.consumeOk), Enqueue(id, w.enqueueOk, w.later), Reject(id, w.rejectOk, w.later));
      ConsumeStep(cfg, s, id, w.consumeOk);
      EnqueueStep(cfg, s1, id, w.enqueueOk, w.later);
      RejectStep(cfg, s2, id, w.rejectOk, w.later);
      ok := true;
      var code := store.requests[id].invitationCode;
      if code != "" {
        ok := false;
        if w.consumeOk {
          ok := store.ConsumeInvitationCode(code);
        }
      }
      if ok {
        ok := w.enqueueOk;
        if w.enqueueOk {
          var _ := store.Enqueue(id, w.later);
        }
      }
      if !ok && w.rejectOk {
        var _ := store.UpdateClaimStatus(id, Rejected, w.later);
      }
    }

    /** CreateClaim from the idempotency lookup to the insert, for the call recorded at k; None
        when a check refused it. */
    method Open(r: Request, w: Weather, ghost k: nat, ghost s: State) returns (result: Option<CreateResult>)
      requires Inv(cfg, s) && s.db == store.Tables() && k < |s.calls| && s.calls[k] == Call(r, Fresh)
      modifies store
      ensures Explains(cfg, s, OpenSteps(k, w, ReadsNow(s.db, r)), store.Tables())
      ensures var s' := RunFrom(cfg, s, OpenSteps(k, w, ReadsNow(s.db, r)));
              && |s'.calls| == |s.calls| && s'.calls[k].state == Outcome(result)
              && (if result.Some? && result.value.Inserted? then
                    && result.value.id == |s.db.requests| < |s'.db.requests|
                    && s'.history[result.value.id] == NEW_HISTORY
                    && s'.intake[result.value.id] == if s'.db.requests[result.value.id].invitationCode == ""
                                                     then AwaitEnqueue else AwaitConsume
                  else |s'.intake| == |s.intake|)
    {
      hide Next, RunFrom, AllSound, EnforceCampaign, Create, ReadsNow;
      ghost var s1 := Next(cfg, s, Lookup(k));
      ghost var s2 := Next(cfg, s1, CheckCampaign(k, w.checkNow, ReadsNow(s.db, r)));
      ThreeSteps(cfg, s, OpenSteps(k, w, ReadsNow(s.db, r))[0], OpenSteps(k, w, ReadsNow(s.db, r))[1], OpenSteps(k, w, ReadsNow(s.db, r))[2]);
      LookupStep(cfg, s, k);
      CheckStep(cfg, s1, k, w.checkNow, ReadsNow(s.db, r));
      AdmitStep(cfg, s2, k, w, ReadsNow(s.db, r));
      if r.key != "" {
        var existing := FindKey(store.requests, r.key);
        if existing.Some? {
          return Some(Existing(existing.value));
        }
      }
      var decision := EnforceCampaign(cfg, ReadsNow(store.Tables(), r), r, w.checkNow);
      if decision.None? || !w.checksOk {
        return None;
      }
      var c := NewClaim(r, decision.value.0, decision.value.1, w.created);
      var created := store.CreateClaimWithIdempotencyAndBudgets(
        c, DayStart(w.windowNow), DayStart(w.windowNow) + DAY,
        DailyBudget(cfg, c.tokenId), CampaignBudget(cfg, c.campaignId));
      result := Some(created);
    }

    /** CreateClaim. Run on its own it is these six steps of the claim system, and what it answers
        is what the claim system records for the call. */
    method CreateClaim(r: Request, w: Weather, ghost k: nat, ghost s: State) returns (response: Response)
      requires Inv(cfg, s) && s.db == store.Tables() && k < |s.calls| && s.calls[k] == Call(r, Fresh)
      modifies store
      ensures var steps := OpenSteps(k, w, ReadsNow(s.db, r)) + CloseSteps(|s.db.requests|, w);
              && Explains(cfg, s, steps, store.Tables())
              && k < |RunFrom(cfg, s, steps).calls|
              && response == Answered(RunFrom(cfg, s, steps), k, w.readOk)
    {
      hide RunFrom, AllSound, OpenSteps, CloseSteps, ReadsNow;
      ghost var id := |s.db.requests|;
      Compose(cfg, s, OpenSteps(k, w, ReadsNow(s.db, r)), CloseSteps(id, w));
      var result := Open(r, w, k, s);
      ghost var middle := RunFrom(cfg, s, OpenSteps(k, w, ReadsNow(s.db, r)));
      if result.Some? && result.value.Inserted? {
        var ok := Finish(result.value.id, w, middle);
        return if ok && w.readOk then Claimed(result.value.id) else Denied;
      }
      CloseStepsAfter(cfg, middle, id, w);
      if result.Some? && result.value.Existing? {
        return Claimed(result.value.id);
      }
      return Denied;
    }
  }
}
