/** Idempotency keys and invitation codes under any interleaving of CreateClaim calls. */
module Intakes {
  import opened Domain
  import opened Text
  import opened StoreSpec
  import opened ClaimSystem
  import opened Lifecycle
  import opened Stability
  import opened Payouts

  // ---- Idempotency ----

  predicate UniqueKeys(rows: seq<Claim>) {
    forall i, j :: 0 <= i < j < |rows| && rows[i].idempotencyKey == rows[j].idempotencyKey ==>
      rows[i].idempotencyKey == ""
  }

  predicate Returned(c: Call) {
    c.state.Replayed? || c.state.Committed?
  }

  /** A call that returned a claim returned one that carries its own key. */
  predicate KeysKept(rows: seq<Claim>, calls: seq<Call>) {
    forall k :: 0 <= k < |calls| && Returned(calls[k]) ==>
      calls[k].state.id < |rows| && rows[calls[k].state.id].idempotencyKey == calls[k].request.key
  }

  predicate KeysInv(s: State) {
    WellShaped(s) && UniqueKeys(s.db.requests) && KeysKept(s.db.requests, s.calls)
  }

  predicate CallStep(step: Step) {
    step.Begin? || step.Lookup? || step.CheckCampaign? || step.Admit? || step.AbandonCall?
  }

  lemma OthersKeepCalls(cfg: Config, s: State, step: Step)
    requires Enabled(cfg, s, step) && !CallStep(step)
    ensures Take(cfg, s, step).calls == s.calls
  {
  }

  lemma KeysCallStep(cfg: Config, s: State, step: Step)
    requires KeysInv(s) && Enabled(cfg, s, step) && CallStep(step) && !step.Admit?
    ensures KeysInv(Take(cfg, s, step))
  {
  }

  lemma KeysAdmit(cfg: Config, s: State, call: nat, created: nat, windowNow: nat)
    requires KeysInv(s) && call < |s.calls| && s.calls[call].state.Checked?
    ensures KeysInv(NextAdmit(cfg, s, call, created, windowNow))
  {
    var c := Candidate(s, call, created);
    var result := CreateFor(cfg, s, c, windowNow);
    if result.Inserted? {
      assert c.idempotencyKey == "" || FindKey(s.db.requests, c.idempotencyKey).None?;
    }
  }

  lemma KeysStep(cfg: Config, s: State, step: Step)
    requires KeysInv(s)
    ensures KeysInv(Next(cfg, s, step))
  {
    hide NextAdmit, UniqueKeys, KeysKept, Inserts, Steady, Stable;
    if Enabled(cfg, s, step) {
      if step.Admit? {
        KeysAdmit(cfg, s, step.call, step.created, step.windowNow);
      } else if CallStep(step) {
        KeysCallStep(cfg, s, step);
      } else {
        OthersKeepCalls(cfg, s, step);
        OthersDoNotInsert(cfg, s, step);
        StableStep(cfg, s, step);
        KeysSteady(s, Take(cfg, s, step));
      }
    }
  }

  lemma OthersDoNotInsert(cfg: Config, s: State, step: Step)
    requires !CallStep(step)
    ensures !Inserts(cfg, s, step)
  {
  }

  lemma KeysSteady(s: State, s': State)
    requires KeysInv(s) && Steady(s, s') && s'.calls == s.calls
    ensures KeysInv(s')
  {
    assert forall i :: 0 <= i < |s.db.requests| ==>
      Follows(s, s', i) && s'.db.requests[i].idempotencyKey == s.db.requests[i].idempotencyKey;
  }

  lemma {:induction false} KeysRun(cfg: Config, steps: seq<Step>)
    ensures KeysInv(Run(cfg, steps))
  {
    if steps != [] {
      KeysRun(cfg, steps[..|steps| - 1]);
      KeysStep(cfg, Run(cfg, steps[..|steps| - 1]), steps[|steps| - 1]);
    }
  }

  /** All calls that returned a claim for one non-empty key returned the same claim, and it is
      the only row with that key. */
  lemma OneClaimPerKey(cfg: Config, steps: seq<Step>, j: nat, k: nat, row: nat)
    requires var s := Run(cfg, steps);
             && j < |s.calls| && k < |s.calls| && Returned(s.calls[j]) && Returned(s.calls[k])
             && s.calls[j].request.key == s.calls[k].request.key != ""
    ensures var s := Run(cfg, steps);
            && s.calls[j].state.id == s.calls[k].state.id < |s.db.requests|
            && (row < |s.db.requests| && s.db.requests[row].idempotencyKey == s.calls[j].request.key ==>
                  row == s.calls[j].state.id)
  {
    KeysRun(cfg, steps);
  }

  // ---- Replays leave no trace ----

  /** A step of the k-th call before its claim exists. */
  predicate OfCall(step: Step, k: nat) {
    (step.Lookup? || step.CheckCampaign? || step.Admit? || step.AbandonCall?) && step.call == k
  }

  /** The same steps without those of the k-th call. */
  function Without(steps: seq<Step>, k: nat): seq<Step> {
    if steps == [] then []
    else
      var n := |steps| - 1;
      Without(steps[..n], k) + if OfCall(steps[n], k) then [] else [steps[n]]
  }

  /** The states differ at most in where the k-th call stands. */
  predicate DifferInCall(s: State, t: State, k: nat) {
    && t == s.(calls := t.calls) && |t.calls| == |s.calls|
    && (forall j :: 0 <= j < |s.calls| && j != k ==> t.calls[j] == s.calls[j])
    && (k < |s.calls| ==> t.calls[k].request == s.calls[k].request)
  }

  predicate HasCommitted(s: State, k: nat) {
    k < |s.calls| && s.calls[k].state.Committed?
  }

  lemma DequeueIgnoresCalls(cfg: Config, s: State, calls: seq<Call>, picks: seq<nat>, now: nat)
    requires WellShaped(s)
    ensures NextDequeue(cfg, s.(calls := calls), picks, now) == NextDequeue(cfg, s, picks, now).(calls := calls)
  {
    hide Ready, AfterDequeue;
    var t := s.(calls := calls);
    assert forall i :: 0 <= i < |s.history| ==> DequeueNote(t, picks, now, i) == DequeueNote(s, picks, now, i);
    assert NextDequeue(cfg, t, picks, now).history == NextDequeue(cfg, s, picks, now).history;
  }

  lemma AttemptIgnoresCalls(cfg: Config, s: State, calls: seq<Call>, outcome: SendOutcome, ok: bool, now: nat)
    requires WellShaped(s)
    ensures var t := s.(calls := calls);
            && (s.worker.Batch? && s.worker.todo != [] && s.worker.todo[0] < |s.db.requests| ==>
                  NextSend(t, outcome) == NextSend(s, outcome).(calls := calls))
            && (s.worker.Acking? ==> NextAck(t, ok, now) == NextAck(s, ok, now).(calls := calls))
            && (s.worker.Failing? ==> NextReadRetryCount(t, ok, now) == NextReadRetryCount(s, ok, now).(calls := calls))
            && (s.worker.FailRead? ==> NextWriteFail(cfg, t, ok) == NextWriteFail(cfg, s, ok).(calls := calls))
  {
    hide AckAllowed, AfterAck, AfterFail;
  }

  lemma WorkerIgnoresCalls(cfg: Config, s: State, calls: seq<Call>, step: Step)
    requires WorkerStep(step)
    ensures Next(cfg, s.(calls := calls), step) == Next(cfg, s, step).(calls := calls)
  {
    hide IsBatch, NextDequeue, NextSend, NextAck, NextReadRetryCount, NextWriteFail;
    if WellShaped(s) {
      if step.Dequeue? {
        DequeueIgnoresCalls(cfg, s, calls, step.picks, step.now);
      } else if step.Send? {
        AttemptIgnoresCalls(cfg, s, calls, step.outcome, true, 0);
      } else if step.WriteFail? {
        AttemptIgnoresCalls(cfg, s, calls, SendOk(None), step.ok, 0);
      } else if step.Ack? || step.ReadRetryCount? {
        AttemptIgnoresCalls(cfg, s, calls, SendOk(None), step.ok, step.now);
      }
    }
  }

  lemma ReceiptIgnoresCalls(cfg: Config, s: State, calls: seq<Call>, receipt: Receipt, ok: bool, now: nat)
    requires WellShaped(s) && s.watcher.Receipts? && s.watcher.pending != []
    requires s.watcher.pending[0] < |s.db.transactions|
    ensures NextCheckReceipt(cfg, s.(calls := calls), receipt, ok, now)
         == NextCheckReceipt(cfg, s, receipt, ok, now).(calls := calls)
  {
    hide EnoughConfirmations, AfterConfirm, AfterFailTransaction;
  }

  lemma ReconcileIgnoresCalls(s: State, calls: seq<Call>, ok: bool, now: nat)
    requires WellShaped(s) && s.watcher.Reconciling? && s.watcher.stuck != []
    ensures NextReconcile(s.(calls := calls), ok, now) == NextReconcile(s, ok, now).(calls := calls)
  {
    hide AfterFailTransaction;
  }

  lemma WatcherIgnoresCalls(cfg: Config, s: State, calls: seq<Call>, step: Step)
    requires WatcherStep(step)
    ensures Next(cfg, s.(calls := calls), step) == Next(cfg, s, step).(calls := calls)
  {
    hide IsPendingList, IsStuckList, NextCheckReceipt, NextReconcile;
    if Enabled(cfg, s, step) {
      if step.CheckReceipt? {
        ReceiptIgnoresCalls(cfg, s, calls, step.receipt, step.ok, step.now);
      } else if step.Reconcile? {
        ReconcileIgnoresCalls(s, calls, step.ok, step.now);
      }
    }
  }

  lemma IntakeIgnoresCalls(s: State, calls: seq<Call>, id: nat, ok: bool, now: nat)
    requires WellShaped(s) && id < |s.db.requests|
    ensures NextConsume(s.(calls := calls), id, ok) == NextConsume(s, id, ok).(calls := calls)
    ensures NextEnqueue(s.(calls := calls), id, ok, now) == NextEnqueue(s, id, ok, now).(calls := calls)
    ensures NextReject(s.(calls := calls), id, ok, now) == NextReject(s, id, ok, now).(calls := calls)
  {
    hide Consumable, AfterConsume, WrittenOff;
  }

  lemma OperatorIgnoresCalls(s: State, calls: seq<Call>, id: nat, now: nat)
    requires WellShaped(s) && id < |s.db.requests|
    ensures NextRetry(s.(calls := calls), id, now) == NextRetry(s, id, now).(calls := calls)
    ensures NextCancel(s.(calls := calls), id, now) == NextCancel(s, id, now).(calls := calls)
  {
    hide WrittenOff;
  }

  lemma OthersIgnoreCalls(cfg: Config, s: State, calls: seq<Call>, step: Step)
    requires !CallStep(step) && !WorkerStep(step) && !WatcherStep(step)
    ensures Next(cfg, s.(calls := calls), step) == Next(cfg, s, step).(calls := calls)
  {
    hide NextConsume, NextEnqueue, NextReject, NextRetry, NextCancel;
    if Enabled(cfg, s, step) {
      if step.Consume? {
        IntakeIgnoresCalls(s, calls, step.id, step.ok, 0);
      } else if step.Enqueue? || step.Reject? {
        IntakeIgnoresCalls(s, calls, step.id, step.ok, step.now);
      } else if step.OperatorRetry? || step.OperatorCancel? {
        OperatorIgnoresCalls(s, calls, step.id, step.now);
      }
    }
  }

  lemma CallStepsAgree(cfg: Config, s: State, t: State, step: Step, k: nat)
    requires DifferInCall(s, t, k) && CallStep(step) && !OfCall(step, k)
    ensures DifferInCall(Next(cfg, s, step), Next(cfg, t, step), k)
  {
    hide EnforceCampaign, Create, FindKey;
  }

  lemma OtherStepsAgree(cfg: Config, s: State, t: State, step: Step, k: nat)
    requires DifferInCall(s, t, k) && !OfCall(step, k)
    ensures DifferInCall(Next(cfg, s, step), Next(cfg, t, step), k)
  {
    hide Next;
    if CallStep(step) {
      CallStepsAgree(cfg, s, t, step, k);
    } else {
      OthersKeepCallsNext(cfg, s, step);
      if WorkerStep(step) {
        WorkerIgnoresCalls(cfg, s, t.calls, step);
      } else if WatcherStep(step) {
        WatcherIgnoresCalls(cfg, s, t.calls, step);
      } else {
        OthersIgnoreCalls(cfg, s, t.calls, step);
      }
    }
  }

  lemma OthersKeepCallsNext(cfg: Config, s: State, step: Step)
    requires !CallStep(step)
    ensures Next(cfg, s, step).calls == s.calls
  {
    hide Take, Enabled;
    if Enabled(cfg, s, step) {
      OthersKeepCalls(cfg, s, step);
    }
  }

  lemma OwnStepsStayInCall(cfg: Config, s: State, t: State, step: Step, k: nat)
    requires DifferInCall(s, t, k) && OfCall(step, k) && !HasCommitted(Next(cfg, s, step), k)
    ensures DifferInCall(Next(cfg, s, step), t, k)
  {
    hide EnforceCampaign, CreateFor, FindKey;
  }

  lemma CommittedStays(cfg: Config, s: State, step: Step, k: nat)
    requires HasCommitted(s, k)
    ensures HasCommitted(Next(cfg, s, step), k)
  {
    if CallStep(step) {
      CommittedInCallStep(cfg, s, step, k);
    } else {
      OthersKeepCallsNext(cfg, s, step);
    }
  }

  lemma CommittedInCallStep(cfg: Config, s: State, step: Step, k: nat)
    requires HasCommitted(s, k) && CallStep(step)
    ensures HasCommitted(Next(cfg, s, step), k)
  {
    hide EnforceCampaign, CreateFor, FindKey;
  }

  /** A call that was answered with an existing claim, or refused, or is still on its way has left
      no trace: the tables, the histories and the loops are as if none of its steps had been taken.
      So a replay moves no budget total and uses no invitation. */
  lemma {:induction false} ReplayChangesNothing(cfg: Config, steps: seq<Step>, k: nat)
    requires !HasCommitted(Run(cfg, steps), k)
    ensures DifferInCall(Run(cfg, steps), Run(cfg, Without(steps, k)), k)
  {
    hide Next, HasCommitted, DifferInCall;
    if steps == [] {
      NoDifference(Run(cfg, steps), k);
    } else {
      var n := |steps| - 1;
      var init, last := steps[..n], steps[n];
      if HasCommitted(Run(cfg, init), k) {
        CommittedStays(cfg, Run(cfg, init), last, k);
      }
      ReplayChangesNothing(cfg, init, k);
      var s, t := Run(cfg, init), Run(cfg, Without(init, k));
      if OfCall(last, k) {
        OwnStepsStayInCall(cfg, s, t, last, k);
        assert Without(steps, k) == Without(init, k);
      } else {
        OtherStepsAgree(cfg, s, t, last, k);
        assert (Without(init, k) + [last])[..|Without(init, k)|] == Without(init, k);
      }
    }
  }

  lemma NoDifference(s: State, k: nat)
    ensures DifferInCall(s, s, k)
  {
  }

  predicate KeyTaken(s: State, row: nat, k: nat) {
    && WellShaped(s) && row < |s.db.requests| && k < |s.calls|
    && s.db.requests[row].idempotencyKey == s.calls[k].request.key != "" && !s.calls[k].state.Committed?
  }

  lemma KeyTakenAdmit(cfg: Config, s: State, call: nat, created: nat, windowNow: nat, row: nat, k: nat)
    requires KeyTaken(s, row, k) && call < |s.calls| && s.calls[call].state.Checked?
    ensures KeyTaken(NextAdmit(cfg, s, call, created, windowNow), row, k)
  {
    hide TokenTotal, CampaignTotal;
  }

  lemma KeyTakenCallStep(cfg: Config, s: State, step: Step, row: nat, k: nat)
    requires KeyTaken(s, row, k) && CallStep(step)
    ensures KeyTaken(Next(cfg, s, step), row, k)
  {
    hide EnforceCampaign, NextAdmit, FindKey;
    if step.Admit? && Enabled(cfg, s, step) {
      KeyTakenAdmit(cfg, s, step.call, step.created, step.windowNow, row, k);
    }
  }

  lemma KeyTakenStep(cfg: Config, s: State, step: Step, row: nat, k: nat)
    requires KeyTaken(s, row, k)
    ensures KeyTaken(Next(cfg, s, step), row, k)
  {
    hide Next;
    if CallStep(step) {
      KeyTakenCallStep(cfg, s, step, row, k);
    } else {
      OthersKeepCallsNext(cfg, s, step);
      StableStep(cfg, s, step);
      assert Follows(s, Next(cfg, s, step), row);
    }
  }

  /** Once a row carries a call's key, whatever happens next, that call never inserts a row. */
  lemma {:induction false} KeyTakenIsNeverInserted(cfg: Config, s: State, more: seq<Step>, row: nat, k: nat)
    requires KeyTaken(s, row, k)
    ensures KeyTaken(RunFrom(cfg, s, more), row, k)
  {
    hide KeyTaken, Next;
    if more != [] {
      KeyTakenIsNeverInserted(cfg, s, more[..|more| - 1], row, k);
      KeyTakenStep(cfg, RunFrom(cfg, s, more[..|more| - 1]), more[|more| - 1], row, k);
    }
  }

  // ---- Invitations ----

  function Uses(db: Db, code: string): nat {
    if code in db.invitations then db.invitations[code].uses else 0
  }

  predicate Spent(c: Claim, h: History, code: string) {
    c.invitationCode == code && h.consumed
  }

  predicate ReachedQueue(c: Claim, h: History, code: string) {
    c.invitationCode == code && h.enqueued
  }

  function SpentColumn(s: State, code: string): seq<int>
    requires WellShaped(s)
  {
    seq(|s.history|, i requires 0 <= i < |s.history| => One(Spent(s.db.requests[i], s.history[i], code)))
  }

  function ReachedColumn(s: State, code: string): seq<int>
    requires WellShaped(s)
  {
    seq(|s.history|, i requires 0 <= i < |s.history| => One(ReachedQueue(s.db.requests[i], s.history[i], code)))
  }

  /** A claim with a code gets past the consume step only by consuming a use, and only once. */
  predicate InviteSound(c: Claim, h: History, intake: Intake) {
    && (intake == AwaitConsume ==> c.invitationCode != "" && !h.consumed)
    && (c.invitationCode != "" && (h.enqueued || intake == AwaitEnqueue) ==> h.consumed)
  }

  predicate InvitesSound(s: State)
    requires WellShaped(s)
  {
    forall i :: 0 <= i < |s.history| ==> InviteSound(s.db.requests[i], s.history[i], s.intake[i])
  }

  predicate WithinLimit(invite: InvitationCode) {
    invite.maxUses > 0 ==> invite.uses <= invite.maxUses
  }

  predicate LimitsHold(db: Db) {
    forall code :: code in db.invitations ==> WithinLimit(db.invitations[code])
  }

  /** Uses on record, including those of codes deleted since, are exactly the claims that
      consumed one. */
  predicate UsesMatch(s: State, code: string)
    requires WellShaped(s)
  {
    Sum(SpentColumn(s, code)) == Uses(s.db, code) + Dropped(s, code)
  }

  predicate InviteInv(s: State, code: string) {
    WellShaped(s) && InvitesSound(s) && LimitsHold(s.db) && UsesMatch(s, code)
  }

  predicate InviteStep(step: Step) {
    || step.Admit? || step.Consume? || step.Enqueue? || step.Reject? || step.AbandonIntake?
    || step.OperatorInvite? || step.OperatorDropInvite? || step.SettleInvite?
  }

  /** What steps of the loops and of the operator on claims leave alone. */
  predicate SameInvites(s: State, s': State) {
    && WellShaped(s) && WellShaped(s') && |s'.db.requests| == |s.db.requests|
    && s'.db.invitations == s.db.invitations && s'.droppedUses == s.droppedUses && s'.intake == s.intake
    && forall i :: 0 <= i < |s.history| ==>
         && s'.history[i].consumed == s.history[i].consumed
         && s'.history[i].enqueued == s.history[i].enqueued
  }

  lemma WorkerKeepsInvites(cfg: Config, s: State, step: Step)
    requires Enabled(cfg, s, step) && WorkerStep(step)
    ensures SameInvites(s, Take(cfg, s, step))
  {
    hide IsBatch, NextDequeue, NextSend, NextAck, NextWriteFail, SameInvites;
    if step.Dequeue? {
      DequeueKeepsInvites(cfg, s, step.picks, step.now);
    } else if step.Send? {
      SendKeepsInvites(s, step.outcome);
    } else if step.Ack? {
      AckKeepsInvites(s, step.ok, step.now);
    } else if step.WriteFail? {
      FailKeepsInvites(cfg, s, step.ok);
    } else {
      WorkerOnlyKeepsInvites(s, Take(cfg, s, step).worker);
    }
  }

  lemma WorkerOnlyKeepsInvites(s: State, worker: Worker)
    requires WellShaped(s)
    ensures SameInvites(s, s.(worker := worker))
  {
  }

  lemma SendKeepsInvites(s: State, outcome: SendOutcome)
    requires WellShaped(s) && s.worker.Batch? && s.worker.todo != [] && s.worker.todo[0] < |s.db.requests|
    ensures SameInvites(s, NextSend(s, outcome))
  {
  }

  lemma AckKeepsInvites(s: State, ok: bool, now: nat)
    requires WellShaped(s) && s.worker.Acking?
    ensures SameInvites(s, NextAck(s, ok, now))
  {
  }

  lemma FailKeepsInvites(cfg: Config, s: State, ok: bool)
    requires WellShaped(s) && s.worker.FailRead?
    ensures SameInvites(s, NextWriteFail(cfg, s, ok))
  {
  }

  lemma DequeueKeepsInvites(cfg: Config, s: State, picks: seq<nat>, now: nat)
    requires WellShaped(s)
    ensures SameInvites(s, NextDequeue(cfg, s, picks, now))
  {
    hide Ready;
    var s' := NextDequeue(cfg, s, picks, now);
    assert cfg.batchSize > 0 ==> forall i :: 0 <= i < |s.history| ==> s'.history[i] == DequeueNote(s, picks, now, i);
  }

  lemma WatcherKeepsInvites(cfg: Config, s: State, step: Step)
    requires Enabled(cfg, s, step) && WatcherStep(step)
    ensures SameInvites(s, Take(cfg, s, step))
  {
    hide IsPendingList, IsStuckList, NextCheckReceipt, NextReconcile, SameInvites;
    if step.CheckReceipt? {
      ReceiptKeepsInvites(cfg, s, step.receipt, step.ok, step.now);
    } else if step.Reconcile? {
      ReconcileKeepsInvites(s, step.ok, step.now);
    } else {
      MoveKeepsInvites(s, Take(cfg, s, step).watcher);
    }
  }

  lemma ReceiptKeepsInvites(cfg: Config, s: State, receipt: Receipt, ok: bool, now: nat)
    requires WellShaped(s) && s.watcher.Receipts? && s.watcher.pending != []
    requires s.watcher.pending[0] < |s.db.transactions|
    ensures SameInvites(s, NextCheckReceipt(cfg, s, receipt, ok, now))
  {
    hide EnoughConfirmations;
  }

  lemma ReconcileKeepsInvites(s: State, ok: bool, now: nat)
    requires WellShaped(s) && s.watcher.Reconciling? && s.watcher.stuck != []
    ensures SameInvites(s, NextReconcile(s, ok, now))
  {
  }

  lemma MoveKeepsInvites(s: State, watcher: Watcher)
    requires WellShaped(s)
    ensures SameInvites(s, s.(watcher := watcher))
  {
  }

  lemma OthersKeepInvites(cfg: Config, s: State, step: Step)
    requires Enabled(cfg, s, step) && !InviteStep(step) && !WorkerStep(step) && !WatcherStep(step)
    ensures SameInvites(s, Take(cfg, s, step))
  {
  }

  lemma SameInvitesKeep(s: State, s': State, code: string)
    requires InviteInv(s, code) && SameInvites(s, s') && Stable(s, s')
    ensures InviteInv(s', code)
  {
    assert forall i :: 0 <= i < |s.db.requests| ==>
      Follows(s, s', i) && s'.db.requests[i].invitationCode == s.db.requests[i].invitationCode;
    assert SpentColumn(s', code) == SpentColumn(s, code);
  }

  lemma InviteInsert(s: State, s': State, c: Claim, code: string)
    requires InviteInv(s, code) && WellShaped(s') && s'.db == AfterInsert(s.db, c) && s'.droppedUses == s.droppedUses
    requires s'.intake == s.intake + [if c.invitationCode == "" then AwaitEnqueue else AwaitConsume]
    requires s'.history == s.history + [NEW_HISTORY]
    ensures InviteInv(s', code)
  {
    assert SpentColumn(s', code) == SpentColumn(s, code) + [0];
    SumAppend(SpentColumn(s, code), 0);
  }

  lemma InviteAdmit(cfg: Config, s: State, step: Step, code: string)
    requires InviteInv(s, code) && step.Admit? && Enabled(cfg, s, step)
    ensures InviteInv(Take(cfg, s, step), code)
  {
    hide CreateFor, InvitesSound, LimitsHold, UsesMatch;
    var s' := Take(cfg, s, step);
    StableAdmit(cfg, s, step);
    if Inserts(cfg, s, step) {
      InviteInsert(s, s', Candidate(s, step.call, step.created), code);
    } else {
      SameInvitesKeep(s, s', code);
    }
  }

  lemma InviteConsume(s: State, id: nat, ok: bool, code: string)
    requires InviteInv(s, code) && id < |s.db.requests| && s.intake[id] == AwaitConsume
    ensures InviteInv(NextConsume(s, id, ok), code)
  {
    var s' := NextConsume(s, id, ok);
    assert InviteSound(s.db.requests[id], s.history[id], s.intake[id]);
    if ok && Consumable(s.db, s.db.requests[id].invitationCode) {
      var x := One(s.db.requests[id].invitationCode == code);
      assert SpentColumn(s', code) == SpentColumn(s, code)[id := x];
      SumUpdate(SpentColumn(s, code), id, x);
    } else {
      assert SpentColumn(s', code) == SpentColumn(s, code);
    }
  }

  lemma InviteSettle(s: State, s': State, id: nat, code: string)
    requires InviteInv(s, code) && WellShaped(s') && id < |s.db.requests| && Steady(s, s')
    requires s'.db.invitations == s.db.invitations && s'.droppedUses == s.droppedUses
    requires s'.intake == s.intake[id := Settled] || s'.intake == s.intake[id := AwaitReject]
    requires s'.history == s.history[id := s'.history[id]] && s'.history[id].consumed == s.history[id].consumed
    requires s'.history[id].enqueued ==> s.history[id].enqueued || s.intake[id] == AwaitEnqueue
    ensures InviteInv(s', code)
  {
    forall i | 0 <= i < |s.history| ensures InviteSound(s'.db.requests[i], s'.history[i], s'.intake[i]) {
      assert InviteSound(s.db.requests[i], s.history[i], s.intake[i]);
      assert Follows(s, s', i);
    }
    forall i | 0 <= i < |s.history| ensures SpentColumn(s', code)[i] == SpentColumn(s, code)[i] {
      assert Follows(s, s', i);
    }
    assert SpentColumn(s', code) == SpentColumn(s, code);
  }

  lemma InviteIntakeStep(cfg: Config, s: State, step: Step, code: string)
    requires InviteInv(s, code) && Enabled(cfg, s, step) && (step.Enqueue? || step.Reject? || step.AbandonIntake?)
    ensures InviteInv(Take(cfg, s, step), code)
  {
    hide StampedNotAfter, InvitesSound, LimitsHold, UsesMatch;
    StableStep(cfg, s, step);
    InviteSettle(s, Take(cfg, s, step), step.id, code);
  }

  lemma InviteOperatorStep(cfg: Config, s: State, step: Step, code: string)
    requires InviteInv(s, code) && Enabled(cfg, s, step) && (step.OperatorInvite? || step.OperatorDropInvite? || step.SettleInvite?)
    ensures InviteInv(Take(cfg, s, step), code)
  {
    assert SpentColumn(Take(cfg, s, step), code) == SpentColumn(s, code);
  }

  lemma InviteConsumeStep(cfg: Config, s: State, step: Step, code: string)
    requires InviteInv(s, code) && Enabled(cfg, s, step) && step.Consume?
    ensures InviteInv(Take(cfg, s, step), code)
  {
    hide InvitesSound, LimitsHold, UsesMatch, NextConsume;
    InviteConsume(s, step.id, step.ok, code);
  }

  lemma InviteStepKeeps(cfg: Config, s: State, step: Step, code: string)
    requires InviteInv(s, code)
    ensures InviteInv(Next(cfg, s, step), code)
  {
    hide Enabled, Take, InvitesSound, LimitsHold, UsesMatch, SameInvites, Stable;
    if Enabled(cfg, s, step) {
      if step.Admit? {
        InviteAdmit(cfg, s, step, code);
      } else if step.Consume? {
        InviteConsumeStep(cfg, s, step, code);
      } else if step.Enqueue? || step.Reject? || step.AbandonIntake? {
        InviteIntakeStep(cfg, s, step, code);
      } else if step.OperatorInvite? || step.OperatorDropInvite? || step.SettleInvite? {
        InviteOperatorStep(cfg, s, step, code);
      } else {
        if WorkerStep(step) {
          WorkerKeepsInvites(cfg, s, step);
        } else if WatcherStep(step) {
          WatcherKeepsInvites(cfg, s, step);
        } else {
          OthersKeepInvites(cfg, s, step);
        }
        StableStep(cfg, s, step);
        SameInvitesKeep(s, Take(cfg, s, step), code);
      }
    }
  }

  lemma {:induction false} InviteRun(cfg: Config, steps: seq<Step>, code: string)
    ensures InviteInv(Run(cfg, steps), code)
  {
    if steps == [] {
      assert SpentColumn(INIT, code) == [];
    } else {
      InviteRun(cfg, steps[..|steps| - 1], code);
      InviteStepKeeps(cfg, Run(cfg, steps[..|steps| - 1]), steps[|steps| - 1], code);
    }
  }

  /** However many calls passed the early check together, the claims with a code that reach the
      queue never outnumber the uses consumed, and a live code is never used beyond its limit. */
  lemma InvitationLimit(cfg: Config, steps: seq<Step>, code: string)
    requires code != ""
    ensures var s := Run(cfg, steps);
            && WellShaped(s)
            && Sum(ReachedColumn(s, code)) <= Uses(s.db, code) + Dropped(s, code)
            && (code in s.db.invitations && s.db.invitations[code].maxUses > 0 ==>
                  Uses(s.db, code) <= s.db.invitations[code].maxUses)
  {
    InviteRun(cfg, steps, code);
    var s := Run(cfg, steps);
    SumMonotone(ReachedColumn(s, code), SpentColumn(s, code));
  }

  // ---- How often a code can be used ----

  /** n attempts to consume a use. */
  function Consumed(db: Db, code: string, n: nat): Db {
    if n == 0 then db
    else
      var before := Consumed(db, code, n - 1);
      if Consumable(before, code) then AfterConsume(before, code) else before
  }

  /** An enabled code serves exactly as many attempts as its limit leaves, or all of them without a
      limit; a disabled one serves none. */
  lemma {:induction false} CodeServesItsLimit(db: Db, code: string, n: nat)
    requires code in db.invitations
    requires var c := db.invitations[code]; c.maxUses > 0 ==> c.uses <= c.maxUses
    ensures var c, db' := db.invitations[code], Consumed(db, code, n);
            && code in db'.invitations
            && db'.invitations[code] == c.(uses :=
                 if !c.enabled then c.uses
                 else if c.maxUses == 0 || c.uses + n <= c.maxUses then c.uses + n
                 else c.maxUses)
            && db'.requests == db.requests && db'.transactions == db.transactions
  {
    if n > 0 {
      CodeServesItsLimit(db, code, n - 1);
    }
  }
}
