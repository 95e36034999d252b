/** When an operator's cancel is final. The cancel writes 'rejected', but a call that has not
    finished, or the worker, may still act on the claim afterwards. */
module Cancels {
  import opened Domain
  import opened Text
  import opened TimeText
  import opened StoreSpec
  import opened ClaimSystem
  import opened Lifecycle
  import opened Payouts
  import opened Witnesses

  predicate Dead(status: ClaimStatus) {
    status == Rejected || status == Failed
  }

  /** The worker is failing the claim and will put it back in the queue. */
  predicate WillRequeue(maxRetries: int, c: Claim, w: Worker, id: nat) {
    || (w.Failing? && w.id == id && c.retryCount + 1 < maxRetries)
    || (w.FailRead? && w.id == id && w.count < maxRetries)
  }

  /** A code that can never be used again: it is used up or disabled, and its creating request is
      over, so nobody deletes it and makes it anew. */
  predicate CodeDead(s: State, code: string) {
    code in s.db.invitations && code !in s.openInvites && !Consumable(s.db, code)
  }

  /** The claim's call cannot enqueue it any more. */
  predicate CallOver(s: State, id: nat)
    requires WellShaped(s) && id < |s.db.requests|
  {
    match s.intake[id]
    case Settled => true
    case AwaitReject => true
    case AwaitConsume => CodeDead(s, s.db.requests[id].invitationCode)
    case AwaitEnqueue => false
  }

  /** Nobody is about to queue or send the claim. */
  predicate OutOfHands(cfg: Config, s: State, id: nat)
    requires WellShaped(s) && id < |s.db.requests|
  {
    && CallOver(s, id)
    && !Unsent(s.worker, id)
    && !WillRequeue(cfg.maxRetries, s.db.requests[id], s.worker, id)
  }

  /** The step's clock readings, if it has any, are at or after `clock`. */
  predicate NotBefore(step: Step, clock: nat) {
    match step
    case CheckCampaign(_, now, _) => clock <= now
    case Admit(_, created, windowNow) => clock <= created && clock <= windowNow
    case Enqueue(_, _, now) => clock <= now
    case Reject(_, _, now) => clock <= now
    case Dequeue(_, now) => clock <= now
    case Ack(_, now) => clock <= now
    case ReadRetryCount(_, now) => clock <= now
    case CheckReceipt(_, _, now) => clock <= now
    case ListStuck(_, now) => clock <= now
    case Reconcile(_, now) => clock <= now
    case OperatorRetry(_, now) => clock <= now
    case OperatorCancel(_, now) => clock <= now
    case _ => true
  }

  /** Later steps, none of them an operator retry of the claim. */
  predicate NeverRetried(steps: seq<Step>, id: nat, clock: nat) {
    forall k :: 0 <= k < |steps| ==> NotBefore(steps[k], clock) && !(steps[k].OperatorRetry? && steps[k].id == id)
  }

  function Payments(s: State, id: nat): nat {
    if id < |s.history| then Paid(s.history[id]) else 0
  }

  /** The claim is cancelled, out of hands, and was paid `paid` times. */
  predicate Cancelled(cfg: Config, s: State, id: nat, paid: nat) {
    && WellShaped(s) && id < |s.db.requests| && Dead(s.db.requests[id].status)
    && OutOfHands(cfg, s, id) && Paid(s.history[id]) == paid
  }

  // ---- Out of hands stays out of hands ----

  lemma DequeueKeepsCancelled(cfg: Config, s: State, picks: seq<nat>, now: nat, id: nat, paid: nat)
    requires Cancelled(cfg, s, id, paid) && s.worker.Idle? && AllReady(s.db.requests, now, picks)
    ensures Cancelled(cfg, NextDequeue(cfg, s, picks, now), id, paid)
  {
    hide StampedNotAfter;
    assert forall k :: 0 <= k < |picks| ==> Ready(s.db.requests[picks[k]], now);
    assert id !in picks;
  }

  lemma SendKeepsCancelled(cfg: Config, s: State, outcome: SendOutcome, id: nat, paid: nat)
    requires Cancelled(cfg, s, id, paid) && s.worker.Batch? && s.worker.todo != [] && s.worker.todo[0] < |s.db.requests|
    ensures Cancelled(cfg, NextSend(s, outcome), id, paid)
  {
    var todo := s.worker.todo;
    assert todo == [todo[0]] + todo[1..];
  }

  lemma AckKeepsCancelled(cfg: Config, s: State, ok: bool, now: nat, id: nat, paid: nat)
    requires Cancelled(cfg, s, id, paid) && s.worker.Acking?
    ensures Cancelled(cfg, NextAck(s, ok, now), id, paid)
  {
  }

  lemma FailKeepsCancelled(cfg: Config, s: State, ok: bool, id: nat, paid: nat)
    requires Cancelled(cfg, s, id, paid) && s.worker.FailRead?
    ensures Cancelled(cfg, NextWriteFail(cfg, s, ok), id, paid)
  {
  }

  lemma ReadKeepsCancelled(cfg: Config, s: State, ok: bool, now: nat, id: nat, paid: nat)
    requires Cancelled(cfg, s, id, paid)
    ensures s.worker.Failing? ==> Cancelled(cfg, NextReadRetryCount(s, ok, now), id, paid)
    ensures Cancelled(cfg, s.(worker := Idle), id, paid)
  {
  }

  lemma WorkerKeepsCancelled(cfg: Config, s: State, step: Step, id: nat, paid: nat)
    requires Cancelled(cfg, s, id, paid) && Enabled(cfg, s, step) && WorkerStep(step)
    ensures Cancelled(cfg, Take(cfg, s, step), id, paid)
  {
    hide Cancelled, NextDequeue, NextSend, NextAck, NextReadRetryCount, NextWriteFail, CreatedNotAfter, Ready;
    if step.Dequeue? {
      DequeueKeepsCancelled(cfg, s, step.picks, step.now, id, paid);
    } else if step.Send? {
      SendKeepsCancelled(cfg, s, step.outcome, id, paid);
    } else if step.Ack? {
      AckKeepsCancelled(cfg, s, step.ok, step.now, id, paid);
    } else if step.WriteFail? {
      FailKeepsCancelled(cfg, s, step.ok, id, paid);
    } else if step.ReadRetryCount? {
      ReadKeepsCancelled(cfg, s, step.ok, step.now, id, paid);
    } else {
      ReadKeepsCancelled(cfg, s, true, 0, id, paid);
    }
  }

  /** A step that leaves the claim cancelled, its call out of the way and the worker alone. */
  lemma SameHands(cfg: Config, s: State, s': State, id: nat, paid: nat)
    requires Cancelled(cfg, s, id, paid) && WellShaped(s') && id < |s'.db.requests| && s'.worker == s.worker
    requires Dead(s'.db.requests[id].status) && s'.db.requests[id].retryCount == s.db.requests[id].retryCount
    requires CallOver(s', id) && Paid(s'.history[id]) == Paid(s.history[id])
    ensures Cancelled(cfg, s', id, paid)
  {
  }

  lemma ReceiptKeepsCancelled(cfg: Config, s: State, receipt: Receipt, ok: bool, now: nat, id: nat, paid: nat)
    requires Cancelled(cfg, s, id, paid) && s.watcher.Receipts? && s.watcher.pending != []
    requires s.watcher.pending[0] < |s.db.transactions|
    ensures Cancelled(cfg, NextCheckReceipt(cfg, s, receipt, ok, now), id, paid)
  {
    hide EnoughConfirmations, WillRequeue, Unsent;
    SameHands(cfg, s, NextCheckReceipt(cfg, s, receipt, ok, now), id, paid);
  }

  lemma ReconcileKeepsCancelled(cfg: Config, s: State, ok: bool, now: nat, id: nat, paid: nat)
    requires Cancelled(cfg, s, id, paid) && s.watcher.Reconciling? && s.watcher.stuck != []
    ensures Cancelled(cfg, NextReconcile(s, ok, now), id, paid)
  {
    hide WillRequeue, Unsent;
    SameHands(cfg, s, NextReconcile(s, ok, now), id, paid);
  }

  lemma MoveKeepsCancelled(cfg: Config, s: State, w: Watcher, id: nat, paid: nat)
    requires Cancelled(cfg, s, id, paid)
    ensures Cancelled(cfg, s.(watcher := w), id, paid)
  {
  }

  lemma WatcherKeepsCancelled(cfg: Config, s: State, step: Step, id: nat, paid: nat)
    requires Cancelled(cfg, s, id, paid) && Enabled(cfg, s, step) && WatcherStep(step)
    ensures Cancelled(cfg, Take(cfg, s, step), id, paid)
  {
    hide Cancelled, NextCheckReceipt, NextReconcile, IsPendingList, IsStuckList;
    if step.CheckReceipt? {
      ReceiptKeepsCancelled(cfg, s, step.receipt, step.ok, step.now, id, paid);
    } else if step.Reconcile? {
      ReconcileKeepsCancelled(cfg, s, step.ok, step.now, id, paid);
    } else {
      MoveKeepsCancelled(cfg, s, Take(cfg, s, step).watcher, id, paid);
    }
  }

  lemma ConsumeKeepsCancelled(cfg: Config, s: State, i: nat, ok: bool, id: nat, paid: nat)
    requires Cancelled(cfg, s, id, paid) && i < |s.db.requests| && s.intake[i] == AwaitConsume
    ensures Cancelled(cfg, NextConsume(s, i, ok), id, paid)
  {
    hide WillRequeue, Unsent;
    SameHands(cfg, s, NextConsume(s, i, ok), id, paid);
  }

  lemma EnqueueKeepsCancelled(cfg: Config, s: State, i: nat, ok: bool, now: nat, id: nat, paid: nat)
    requires Cancelled(cfg, s, id, paid) && i < |s.db.requests| && s.intake[i] == AwaitEnqueue
    ensures Cancelled(cfg, NextEnqueue(s, i, ok, now), id, paid)
  {
    hide WillRequeue, Unsent, WrittenOff;
    SameHands(cfg, s, NextEnqueue(s, i, ok, now), id, paid);
  }

  lemma RejectKeepsCancelled(cfg: Config, s: State, i: nat, ok: bool, now: nat, id: nat, paid: nat)
    requires Cancelled(cfg, s, id, paid) && i < |s.db.requests|
    ensures s.intake[i] == AwaitReject ==> Cancelled(cfg, NextReject(s, i, ok, now), id, paid)
    ensures Cancelled(cfg, SetIntake(s, i, Settled), id, paid)
  {
    hide WillRequeue, Unsent, WrittenOff;
    SameHands(cfg, s, SetIntake(s, i, Settled), id, paid);
    if s.intake[i] == AwaitReject {
      SameHands(cfg, s, NextReject(s, i, ok, now), id, paid);
    }
  }

  lemma IntakeKeepsCancelled(cfg: Config, s: State, step: Step, id: nat, paid: nat)
    requires Cancelled(cfg, s, id, paid) && Enabled(cfg, s, step)
    requires step.Consume? || step.Enqueue? || step.Reject? || step.AbandonIntake?
    ensures Cancelled(cfg, Take(cfg, s, step), id, paid)
  {
    hide Cancelled, NextConsume, NextEnqueue, NextReject, SetIntake;
    if step.Consume? {
      ConsumeKeepsCancelled(cfg, s, step.id, step.ok, id, paid);
    } else if step.Enqueue? {
      EnqueueKeepsCancelled(cfg, s, step.id, step.ok, step.now, id, paid);
    } else if step.Reject? {
      RejectKeepsCancelled(cfg, s, step.id, step.ok, step.now, id, paid);
    } else {
      RejectKeepsCancelled(cfg, s, step.id, true, 0, id, paid);
    }
  }

  lemma OperatorKeepsCancelled(cfg: Config, s: State, step: Step, id: nat, paid: nat)
    requires Cancelled(cfg, s, id, paid) && Enabled(cfg, s, step)
    requires step.OperatorCancel? || (step.OperatorRetry? && step.id != id)
    ensures Cancelled(cfg, Take(cfg, s, step), id, paid)
  {
    hide WillRequeue, Unsent;
    SameHands(cfg, s, Take(cfg, s, step), id, paid);
  }

  lemma CallKeepsCancelled(cfg: Config, s: State, step: Step, id: nat, paid: nat)
    requires Cancelled(cfg, s, id, paid) && Enabled(cfg, s, step)
    requires step.Begin? || step.Lookup? || step.CheckCampaign? || step.Admit? || step.AbandonCall?
             || step.OperatorInvite? || step.OperatorDropInvite? || step.SettleInvite?
    ensures Cancelled(cfg, Take(cfg, s, step), id, paid)
  {
    hide CreateFor, EnforceCampaign, WillRequeue, Unsent;
    SameHands(cfg, s, Take(cfg, s, step), id, paid);
  }

  lemma ServiceKeepsCancelled(cfg: Config, s: State, step: Step, id: nat, paid: nat)
    requires Cancelled(cfg, s, id, paid) && Enabled(cfg, s, step) && !WorkerStep(step) && !WatcherStep(step)
    requires !(step.OperatorRetry? && step.id == id)
    ensures Cancelled(cfg, Take(cfg, s, step), id, paid)
  {
    hide Cancelled, Take, Enabled;
    if step.Consume? || step.Enqueue? || step.Reject? || step.AbandonIntake? {
      IntakeKeepsCancelled(cfg, s, step, id, paid);
    } else if step.OperatorCancel? || step.OperatorRetry? {
      OperatorKeepsCancelled(cfg, s, step, id, paid);
    } else {
      CallKeepsCancelled(cfg, s, step, id, paid);
    }
  }

  lemma StepKeepsCancelled(cfg: Config, s: State, step: Step, id: nat, paid: nat)
    requires Cancelled(cfg, s, id, paid) && !(step.OperatorRetry? && step.id == id)
    ensures Cancelled(cfg, Next(cfg, s, step), id, paid)
  {
    hide Cancelled, Take, Enabled;
    if Enabled(cfg, s, step) {
      if WorkerStep(step) {
        WorkerKeepsCancelled(cfg, s, step, id, paid);
      } else if WatcherStep(step) {
        WatcherKeepsCancelled(cfg, s, step, id, paid);
      } else {
        ServiceKeepsCancelled(cfg, s, step, id, paid);
      }
    }
  }

  lemma {:induction false} RunKeepsCancelled(cfg: Config, s: State, more: seq<Step>, id: nat, paid: nat)
    requires Cancelled(cfg, s, id, paid) && forall k :: 0 <= k < |more| ==> !(more[k].OperatorRetry? && more[k].id == id)
    ensures Cancelled(cfg, RunFrom(cfg, s, more), id, paid)
  {
    hide Cancelled;
    if more != [] {
      RunKeepsCancelled(cfg, s, more[..|more| - 1], id, paid);
      StepKeepsCancelled(cfg, RunFrom(cfg, s, more[..|more| - 1]), more[|more| - 1], id, paid);
    }
  }

  // ---- In hands, a cancel can be lost ----

  /** The cancel was lost: the claim is waiting to be sent again, or it was paid again. */
  predicate Lost(cfg: Config, s: State, more: seq<Step>, id: nat) {
    var s' := RunFrom(cfg, s, more);
    id < |s'.db.requests| && (s'.db.requests[id].status == Queued || Payments(s', id) > Payments(s, id))
  }

  /** The call goes on: it consumes a use, of a code made anew if need be, and enqueues. */
  lemma CallGoesOn(cfg: Config, s: State, id: nat, clock: nat) returns (more: seq<Step>)
    requires WellShaped(s) && id < |s.db.requests| && !CallOver(s, id)
    ensures NeverRetried(more, id, clock) && Lost(cfg, s, more, id)
  {
    hide Next, RunFrom, CallOver;
    var code := s.db.requests[id].invitationCode;
    var drop, invite, consume := OperatorDropInvite(code), OperatorInvite(code, "", 0, true), Consume(id, true);
    GetsPastConsume(cfg, s, id);
    var s1 := Next(cfg, s, drop);
    TwoSteps(cfg, s, drop, invite);
    OneStep(cfg, Next(cfg, s1, invite), consume);
    Compose(cfg, s, [drop, invite], [consume]);
    var open := [drop, invite] + [consume];
    EnqueueQueues(cfg, RunFrom(cfg, s, open), id, clock);
    Extend(cfg, s, open, Enqueue(id, true, clock));
    more := open + [Enqueue(id, true, clock)];
  }

  lemma GetsPastConsume(cfg: Config, s: State, id: nat)
    requires WellShaped(s) && id < |s.db.requests| && !CallOver(s, id)
    ensures var code := s.db.requests[id].invitationCode;
            var s1 := Next(cfg, s, OperatorDropInvite(code));
            var s3 := Next(cfg, Next(cfg, s1, OperatorInvite(code, "", 0, true)), Consume(id, true));
            WellShaped(s3) && id < |s3.db.requests| && s3.intake[id] == AwaitEnqueue
  {
    var code := s.db.requests[id].invitationCode;
    var s1 := Next(cfg, s, OperatorDropInvite(code));
    assert s1.db.requests == s.db.requests && s1.intake == s.intake && s1.history == s.history;
    assert code in s1.db.invitations ==> Consumable(s1.db, code) || s.intake[id].AwaitEnqueue?;
    var s2 := Next(cfg, s1, OperatorInvite(code, "", 0, true));
    MakesAnew(cfg, s1, code);
    ConsumesIt(cfg, s2, id);
  }

  lemma MakesAnew(cfg: Config, s: State, code: string)
    requires WellShaped(s)
    ensures var s' := Next(cfg, s, OperatorInvite(code, "", 0, true));
            && s'.db.requests == s.db.requests && s'.intake == s.intake && s'.history == s.history
            && (code !in s.db.invitations || Consumable(s.db, code) ==> Consumable(s'.db, code))
  {
  }

  lemma ConsumesIt(cfg: Config, s: State, id: nat)
    requires WellShaped(s) && id < |s.db.requests|
    requires s.intake[id].AwaitEnqueue? || (s.intake[id].AwaitConsume? && Consumable(s.db, s.db.requests[id].invitationCode))
    ensures var s' := Next(cfg, s, Consume(id, true));
            WellShaped(s') && id < |s'.db.requests| && s'.intake[id] == AwaitEnqueue
  {
  }

  lemma EnqueueQueues(cfg: Config, s: State, id: nat, now: nat)
    requires WellShaped(s) && id < |s.db.requests| && s.intake[id] == AwaitEnqueue
    ensures var s' := Next(cfg, s, Enqueue(id, true, now));
            id < |s'.db.requests| && s'.db.requests[id].status == Queued
  {
  }

  /** The worker's own next steps when it fails a claim. */
  lemma FailureRequeues(cfg: Config, s: State, id: nat, clock: nat) returns (more: seq<Step>)
    requires WellShaped(s) && id < |s.db.requests| && WillRequeue(cfg.maxRetries, s.db.requests[id], s.worker, id)
    ensures NeverRetried(more, id, clock) && Lost(cfg, s, more, id)
  {
    hide Next, RunFrom;
    if s.worker.Failing? {
      ReadsCount(cfg, s, clock);
      WritesQueued(cfg, Next(cfg, s, ReadRetryCount(true, clock)));
      TwoSteps(cfg, s, ReadRetryCount(true, clock), WriteFail(true));
      more := [ReadRetryCount(true, clock), WriteFail(true)];
    } else {
      WritesQueued(cfg, s);
      OneStep(cfg, s, WriteFail(true));
      more := [WriteFail(true)];
    }
  }

  lemma ReadsCount(cfg: Config, s: State, now: nat)
    requires WellShaped(s) && s.worker.Failing? && s.worker.id < |s.db.requests|
    ensures var w := s.worker;
            Next(cfg, s, ReadRetryCount(true, now))
            == s.(worker := FailRead(w.id, s.db.requests[w.id].retryCount + 1, now, w.todo))
  {
  }

  lemma WritesQueued(cfg: Config, s: State)
    requires WellShaped(s) && s.worker.FailRead? && s.worker.id < |s.db.requests| && s.worker.count < cfg.maxRetries
    ensures var s' := Next(cfg, s, WriteFail(true));
            |s'.db.requests| == |s.db.requests| && s'.db.requests[s.worker.id].status == Queued
  {
  }

  /** Whatever the worker is doing, it can get on with the rest of its batch without touching the
      tables. */
  lemma WorkerGetsOn(cfg: Config, s: State, clock: nat) returns (more: seq<Step>)
    requires WellShaped(s) && !s.worker.Idle? && s.worker.todo != []
    ensures RunFrom(cfg, s, more) == s.(worker := Batch(s.worker.todo))
    ensures Calm(more, clock)
  {
    hide RunFrom, Next;
    if s.worker.Batch? {
      EmptyRun(cfg, s);
      more := [];
    } else {
      var step := SkipStep(s.worker, clock);
      OneStep(cfg, s, step);
      SkipsRest(cfg, s, clock);
      more := [step];
    }
  }

  function SkipStep(w: Worker, clock: nat): Step {
    if w.Acking? then Ack(false, clock) else if w.Failing? then ReadRetryCount(false, clock) else WriteFail(false)
  }

  lemma SkipsRest(cfg: Config, s: State, clock: nat)
    requires WellShaped(s) && !s.worker.Idle? && !s.worker.Batch?
    ensures Next(cfg, s, SkipStep(s.worker, clock)) == s.(worker := Carry(s.worker.todo))
  {
  }

  /** Later steps without any operator retry. */
  predicate Calm(steps: seq<Step>, clock: nat) {
    forall k :: 0 <= k < |steps| ==> NotBefore(steps[k], clock) && !steps[k].OperatorRetry?
  }

  lemma SendOne(cfg: Config, s: State, now: nat)
    requires Inv(cfg, s) && s.worker.Batch? && s.worker.todo != []
    ensures var id, todo := s.worker.todo[0], s.worker.todo[1..];
            var s1 := Next(cfg, s, Send(SendOk(None)));
            var s2 := Next(cfg, s1, Ack(false, now));
            && id < |s.history|
            && s1.db == s2.db == s.db
            && s2 == s.(history := s.history[id := s.history[id].(sends := s.history[id].sends + 1)], worker := Carry(todo))
            && Payments(s1, id) == Payments(s, id) + 1
            && Inv(cfg, s2)
  {
    hide AllSound, Sound;
    InvStep(cfg, s, Send(SendOk(None)));
    InvStep(cfg, Next(cfg, s, Send(SendOk(None))), Ack(false, now));
    assert WorkerInRange(s);
  }

  /** A claim further down the worker's batch is sent when its turn comes. */
  lemma {:induction false} BatchReaches(cfg: Config, s: State, id: nat, clock: nat) returns (more: seq<Step>)
    requires Inv(cfg, s) && s.worker.Batch? && id in s.worker.todo
    ensures Calm(more, clock) && Payments(RunFrom(cfg, s, more), id) == Payments(s, id) + 1
    ensures |RunFrom(cfg, s, more).db.requests| == |s.db.requests|
    decreases |s.worker.todo|
  {
    hide Inv, Next, RunFrom;
    var todo := s.worker.todo;
    SendOne(cfg, s, clock);
    if todo[0] == id {
      OneStep(cfg, s, Send(SendOk(None)));
      more := [Send(SendOk(None))];
    } else {
      var two := [Send(SendOk(None)), Ack(false, clock)];
      var s2 := Next(cfg, Next(cfg, s, two[0]), two[1]);
      assert todo == [todo[0]] + todo[1..];
      var rest := BatchReaches(cfg, s2, id, clock);
      TwoSteps(cfg, s, two[0], two[1]);
      more := two + rest;
      Compose(cfg, s, two, rest);
      assert Payments(s2, id) == Payments(s, id);
    }
  }

  lemma UnsentIsSent(cfg: Config, s: State, id: nat, clock: nat) returns (more: seq<Step>)
    requires Inv(cfg, s) && id < |s.db.requests| && Unsent(s.worker, id)
    ensures NeverRetried(more, id, clock) && Lost(cfg, s, more, id)
  {
    hide Inv, RunFrom;
    assert WellShaped(s) by { InvShape(cfg, s); }
    var first := WorkerGetsOn(cfg, s, clock);
    InvRun(cfg, s, first);
    var s1 := RunFrom(cfg, s, first);
    var rest := BatchReaches(cfg, s1, id, clock);
    Compose(cfg, s, first, rest);
    more := first + rest;
  }

  /** A claim in somebody's hands can be queued or paid again after its cancel. */
  lemma InHandsIsLost(cfg: Config, s: State, id: nat, clock: nat) returns (more: seq<Step>)
    requires Inv(cfg, s) && WellShaped(s) && id < |s.db.requests| && !OutOfHands(cfg, s, id)
    ensures NeverRetried(more, id, clock) && Lost(cfg, s, more, id)
  {
    hide Inv, RunFrom, Lost, CallOver;
    if !CallOver(s, id) {
      more := CallGoesOn(cfg, s, id, clock);
    } else if Unsent(s.worker, id) {
      more := UnsentIsSent(cfg, s, id, clock);
    } else {
      more := FailureRequeues(cfg, s, id, clock);
    }
  }

  // ---- A queued claim can be paid ----

  /** Cancels every other claim that can be cancelled among the first n. */
  function CancelOthers(id: nat, n: nat, now: nat): seq<Step> {
    if n == 0 then []
    else CancelOthers(id, n - 1, now) + [if n - 1 == id then WorkerCrash else OperatorCancel(n - 1, now)]
  }

  lemma CancelOne(cfg: Config, s: State, i: nat, now: nat)
    requires WellShaped(s) && i < |s.db.requests|
    ensures var s' := Next(cfg, s, OperatorCancel(i, now));
            && WellShaped(s') && s'.worker == s.worker
            && s'.db.requests == s.db.requests[i := s'.db.requests[i]] && s'.db.requests[i].status != Queued
            && s'.history == s.history[i := s'.history[i]]
  {
  }

  lemma {:induction false} OthersCancelled(cfg: Config, s: State, id: nat, n: nat, now: nat)
    requires WellShaped(s) && id < |s.db.requests| && n <= |s.db.requests| && s.worker.Idle?
    ensures var s' := RunFrom(cfg, s, CancelOthers(id, n, now));
            && WellShaped(s') && |s'.db.requests| == |s.db.requests| && s'.worker.Idle?
            && s'.db.requests[id] == s.db.requests[id] && s'.history[id] == s.history[id]
            && (forall i :: 0 <= i < n && i != id ==> s'.db.requests[i].status != Queued)
    ensures Calm(CancelOthers(id, n, now), now)
  {
    hide Next, RunFrom;
    if n == 0 {
      EmptyRun(cfg, s);
    } else {
      OthersCancelled(cfg, s, id, n - 1, now);
      var step := if n - 1 == id then WorkerCrash else OperatorCancel(n - 1, now);
      var s1 := RunFrom(cfg, s, CancelOthers(id, n - 1, now));
      Extend(cfg, s, CancelOthers(id, n - 1, now), step);
      if n - 1 == id {
        Crashes(cfg, s1);
      } else {
        CancelOne(cfg, s1, n - 1, now);
      }
    }
  }

  lemma Crashes(cfg: Config, s: State)
    requires WellShaped(s)
    ensures Next(cfg, s, WorkerCrash) == s.(worker := Idle)
  {
  }

  /** A moment at or after `clock` at which a queued claim is due. */
  function DueAt(c: Claim, clock: nat): (now: nat)
    ensures clock <= now
  {
    if c.nextAttemptAt.None? then clock
    else if clock <= c.nextAttemptAt.value then c.nextAttemptAt.value
    else clock + SECOND
  }

  lemma DueThen(c: Claim, clock: nat)
    requires c.status == Queued && InRange(clock + SECOND)
    ensures Ready(c, DueAt(c, clock))
  {
    hide FormatTime;
    if c.nextAttemptAt.Some? {
      if clock <= c.nextAttemptAt.value {
        TextLessIrreflexive(FormatTime(c.nextAttemptAt.value));
      } else {
        TextOrderOfSpaced(c.nextAttemptAt.value, clock + SECOND);
        NotBoth(FormatTime(c.nextAttemptAt.value), FormatTime(clock + SECOND));
      }
    }
  }

  lemma DequeuedAndSent(cfg: Config, s: State, id: nat, now: nat)
    requires WellShaped(s) && id < |s.db.requests| && Ready(s.db.requests[id], now) && s.worker.Idle? && cfg.batchSize > 0
    requires forall i :: 0 <= i < |s.db.requests| && i != id ==> s.db.requests[i].status != Queued
    ensures var s1 := Next(cfg, s, Dequeue([id], now));
            var s2 := Next(cfg, s1, Send(SendOk(None)));
            |s2.db.requests| == |s.db.requests| && Payments(s2, id) == Payments(s, id) + 1
  {
    hide IsBatch, Ready;
    OnlyOneReady(s.db.requests, cfg.batchSize, id, now);
    var s1 := NextDequeue(cfg, s, [id], now);
    assert id in [id];
    assert s1.history[id] == s.history[id].(dequeues := s.history[id].dequeues + 1);
  }

  /** While the worker is on, a queued claim can be paid in some continuation. */
  lemma QueuedGetsPaid(cfg: Config, s: State, id: nat, clock: nat) returns (more: seq<Step>)
    requires WellShaped(s) && id < |s.db.requests| && s.db.requests[id].status == Queued && cfg.batchSize > 0
    requires InRange(clock + SECOND)
    ensures NeverRetried(more, id, clock) && Payments(RunFrom(cfg, s, more), id) == Payments(s, id) + 1
    ensures id < |RunFrom(cfg, s, more).db.requests|
  {
    hide Next, RunFrom, Ready;
    var idle := s.(worker := Idle);
    Crashes(cfg, s);
    OneStep(cfg, s, WorkerCrash);
    var others := CancelOthers(id, |s.db.requests|, clock);
    OthersCancelled(cfg, idle, id, |s.db.requests|, clock);
    Compose(cfg, s, [WorkerCrash], others);
    var s1 := RunFrom(cfg, idle, others);
    var now := DueAt(s1.db.requests[id], clock);
    var last := [Dequeue([id], now), Send(SendOk(None))];
    DueThen(s1.db.requests[id], clock);
    DequeuedAndSent(cfg, s1, id, now);
    TwoSteps(cfg, s1, last[0], last[1]);
    Compose(cfg, s, [WorkerCrash] + others, last);
    more := [WorkerCrash] + others + last;
  }

  /** What the operator's two writes do: a retry re-queues exactly from 'failed' and 'rejected', a
      cancel rejects unless the claim is 'sending', 'sent' or 'confirmed', and otherwise nothing happens. */
  lemma OperatorExactly(cfg: Config, s: State, id: nat, now: nat)
    requires WellShaped(s) && id < |s.db.requests|
    ensures var s', c := Next(cfg, s, OperatorRetry(id, now)), s.db.requests[id];
            if c.status in {Failed, Rejected} then
              && id < |s'.db.requests| && id < |s'.history| && s'.history[id].retries == s.history[id].retries + 1
              && s'.db.requests[id] == c.(status := Queued, nextAttemptAt := None, updatedAt := now)
            else s' == s
    ensures var s', c := Next(cfg, s, OperatorCancel(id, now)), s.db.requests[id];
            if c.status in {Sending, Sent, Confirmed} then s' == s
            else id < |s'.db.requests| && s'.db.requests[id] == c.(status := Rejected, nextAttemptAt := None, updatedAt := now)
  {
    hide WrittenOff;
  }

  // ---- When a cancel is final ----

  /** After these steps the claim is still cancelled and has not been paid again. */
  predicate Stays(cfg: Config, s: State, more: seq<Step>, id: nat) {
    var s' := RunFrom(cfg, s, more);
    id < |s'.db.requests| && Dead(s'.db.requests[id].status) && Payments(s', id) == Payments(s, id)
  }

  predicate NotPaidAgain(cfg: Config, s: State, more: seq<Step>, id: nat) {
    Payments(RunFrom(cfg, s, more), id) <= Payments(s, id)
  }

  /** Whatever everybody does from `clock` on, short of an operator retry, the claim stays cancelled. */
  ghost predicate Final(cfg: Config, s: State, id: nat, clock: nat) {
    forall more: seq<Step> :: NeverRetried(more, id, clock) ==> Stays(cfg, s, more, id)
  }

  ghost predicate NeverPaidAgain(cfg: Config, s: State, id: nat, clock: nat) {
    forall more: seq<Step> :: NeverRetried(more, id, clock) ==> NotPaidAgain(cfg, s, more, id)
  }

  /** Once cancelled (or failed), a claim stays so and is not paid again, whatever everybody does
      short of an operator retry, exactly when it is in nobody's hands; and while the worker is on,
      that is also exactly when it can never be paid again. */
  lemma CancelledIsFinalExactly(cfg: Config, s: State, id: nat, clock: nat)
    requires Inv(cfg, s) && WellShaped(s) && id < |s.db.requests| && Dead(s.db.requests[id].status)
    ensures Final(cfg, s, id, clock) <==> OutOfHands(cfg, s, id)
    ensures cfg.batchSize > 0 && InRange(clock + SECOND) ==> (NeverPaidAgain(cfg, s, id, clock) <==> OutOfHands(cfg, s, id))
  {
    hide Inv, RunFrom, OutOfHands;
    if OutOfHands(cfg, s, id) {
      forall more: seq<Step> | NeverRetried(more, id, clock)
        ensures Stays(cfg, s, more, id) && NotPaidAgain(cfg, s, more, id)
      {
        RunKeepsCancelled(cfg, s, more, id, Paid(s.history[id]));
      }
    } else {
      var more := InHandsIsLost(cfg, s, id, clock);
      assert !Stays(cfg, s, more, id);
      if cfg.batchSize > 0 && InRange(clock + SECOND) && NotPaidAgain(cfg, s, more, id) {
        var s' := RunFrom(cfg, s, more);
        InvRun(cfg, s, more);
        InvShape(cfg, s');
        var rest := QueuedGetsPaid(cfg, s', id, clock);
        Compose(cfg, s, more, rest);
        PaymentsGrow(cfg, s, more, id);
        assert !NotPaidAgain(cfg, s, more + rest, id);
      }
    }
  }

  lemma PaymentsGrowStep(cfg: Config, s: State, step: Step, id: nat)
    requires Inv(cfg, s)
    ensures Payments(s, id) <= Payments(Next(cfg, s, step), id)
  {
    hide AllSound, IsBatch, Ready, NotPaying, Take, Enabled;
    if Enabled(cfg, s, step) {
      if WorkerStep(step) {
        WorkerPays(cfg, s, step, id);
      } else {
        if WatcherStep(step) {
          WatcherDoesNotPay(cfg, s, step);
        } else {
          ServiceDoesNotPay(cfg, s, step);
        }
        NotPayingKeeps(s, Take(cfg, s, step), id);
      }
    }
  }

  lemma NotPayingKeeps(s: State, s': State, id: nat)
    requires NotPaying(s, s')
    ensures Payments(s, id) <= Payments(s', id)
  {
    assert id < |s.history| ==> SamePayments(s.history[id], s'.history[id]);
  }

  lemma DequeuePays(cfg: Config, s: State, picks: seq<nat>, now: nat, id: nat)
    requires WellShaped(s)
    ensures Payments(s, id) == Payments(NextDequeue(cfg, s, picks, now), id)
  {
    hide Ready;
    if cfg.batchSize > 0 && id < |s.history| {
      assert NextDequeue(cfg, s, picks, now).history[id] == DequeueNote(s, picks, now, id);
    }
  }

  lemma WorkerPays(cfg: Config, s: State, step: Step, id: nat)
    requires Enabled(cfg, s, step) && WorkerStep(step)
    ensures Payments(s, id) <= Payments(Take(cfg, s, step), id)
  {
    hide IsBatch, NextDequeue, WrittenOff;
    if step.Dequeue? {
      DequeuePays(cfg, s, step.picks, step.now, id);
    }
  }

  lemma {:induction false} PaymentsGrow(cfg: Config, s: State, more: seq<Step>, id: nat)
    requires Inv(cfg, s)
    ensures Payments(s, id) <= Payments(RunFrom(cfg, s, more), id)
  {
    hide Inv, Next;
    if more != [] {
      var init := more[..|more| - 1];
      PaymentsGrow(cfg, s, init, id);
      InvRun(cfg, s, init);
      PaymentsGrowStep(cfg, RunFrom(cfg, s, init), more[|more| - 1], id);
    }
  }

  /** A cancel is final exactly when the claim is in nobody's hands at that moment. */
  lemma CancelIsFinalExactly(cfg: Config, s: State, id: nat, now: nat, clock: nat)
    requires Inv(cfg, s) && WellShaped(s) && id < |s.db.requests| && Cancellable(s.db.requests[id].status)
    ensures Enabled(cfg, s, OperatorCancel(id, now))
    ensures Final(cfg, Next(cfg, s, OperatorCancel(id, now)), id, clock) <==> OutOfHands(cfg, s, id)
  {
    hide Final, AllSound, RunFrom;
    var s' := Next(cfg, s, OperatorCancel(id, now));
    InvStep(cfg, s, OperatorCancel(id, now));
    assert s' == NextCancel(s, id, now);
    CancelledIsFinalExactly(cfg, s', id, clock);
  }

  /** In every run, cancelling a queued claim that was never retried is final. */
  lemma QueuedCancelIsFinal(cfg: Config, steps: seq<Step>, id: nat, now: nat, clock: nat)
    requires Exists(cfg, steps, id) && WellShaped(Run(cfg, steps))
    requires Run(cfg, steps).db.requests[id].status == Queued && Run(cfg, steps).history[id].retries == 0
    ensures Final(cfg, Next(cfg, Run(cfg, steps), OperatorCancel(id, now)), id, clock)
  {
    hide Final, Next, Run;
    var s := Run(cfg, steps);
    Reachable(cfg, steps);
    NotHeld(cfg, s, id);
    CancelIsFinalExactly(cfg, s, id, now, clock);
  }

  lemma NotHeld(cfg: Config, s: State, id: nat)
    requires Inv(cfg, s) && WellShaped(s) && id < |s.db.requests|
    requires s.db.requests[id].status == Queued && s.history[id].retries == 0
    ensures OutOfHands(cfg, s, id)
  {
    assert Sound(cfg.maxRetries, ViewOf(s, id));
  }

  // ---- What an operator can tell from the status ----

  /** The run leads to a never retried claim of that status. */
  predicate LeadsTo(cfg: Config, steps: seq<Step>, id: nat, status: ClaimStatus) {
    var s := Run(cfg, steps);
    id < |s.db.requests| && id < |s.history| && s.db.requests[id].status == status && s.history[id].retries == 0
  }

  /** Then cancelling it is final. */
  ghost predicate FinalAfter(cfg: Config, steps: seq<Step>, id: nat, now: nat, clock: nat, status: ClaimStatus) {
    LeadsTo(cfg, steps, id, status) ==> Final(cfg, Next(cfg, Run(cfg, steps), OperatorCancel(id, now)), id, clock)
  }

  ghost predicate AlwaysFinal(cfg: Config, status: ClaimStatus, clock: nat) {
    forall steps: seq<Step>, id: nat, now: nat :: FinalAfter(cfg, steps, id, now, clock, status)
  }

  lemma NotFinalAfter(cfg: Config, steps: seq<Step>, now: nat, clock: nat, c: Claim, intake: Intake, h: History, w: Worker)
    requires Run(cfg, steps) == Solo(c, intake, h, w, Resting) && h.retries == 0 && Cancellable(c.status)
    requires intake == AwaitEnqueue || w == Batch([0])
    ensures !AlwaysFinal(cfg, c.status, clock)
  {
    hide Final, Next, Run;
    var s := Run(cfg, steps);
    Reachable(cfg, steps);
    CancelIsFinalExactly(cfg, s, 0, now, clock);
    assert !FinalAfter(cfg, steps, 0, now, clock, c.status);
  }

  /** With both loops on: of the statuses a never retried claim can be cancelled in, the status
      alone guarantees that the cancel is final exactly for 'queued'. */
  lemma OnlyQueuedCancelsAreFinal(cfg: Config, status: ClaimStatus, clock: nat)
    requires cfg.batchSize > 0 && cfg.watcherBatch > 0 && status in {Received, Queued, Failed, Rejected}
    ensures AlwaysFinal(cfg, status, clock) <==> status == Queued
  {
    hide Final, Next, Run;
    if status == Queued {
      forall steps: seq<Step>, id: nat, now: nat
        ensures FinalAfter(cfg, steps, id, now, clock, status)
      {
        Reachable(cfg, steps);
        InvShape(cfg, Run(cfg, steps));
        if LeadsTo(cfg, steps, id, status) {
          QueuedCancelIsFinal(cfg, steps, id, now, clock);
        }
      }
    } else if status == Failed {
      var steps, h := FailedWhileHeld(cfg, clock);
      var later := clock + cfg.stuckAfter;
      NotFinalAfter(cfg, steps, later, clock, Row(Failed, 0, None, clock, later), Settled, h, Batch([0]));
    } else {
      AfterCreate(cfg, clock);
      if status == Received {
        NotFinalAfter(cfg, Created(clock), clock, clock, Row(Received, 0, None, clock, clock), AwaitEnqueue, NEW_HISTORY, Idle);
      } else {
        CancelledWhileOpen(cfg, clock);
        NotFinalAfter(cfg, Created(clock) + [OperatorCancel(0, clock)], clock, clock,
                      Row(Rejected, 0, None, clock, clock), AwaitEnqueue, NEW_HISTORY, Idle);
      }
    }
  }
}
