/** Runs that show the payout results are as strong as the code allows, at every time and for every
    configuration that lets the loops in question work at all. */
module Witnesses {
  import opened Domain
  import opened Text
  import opened TimeText
  import opened StoreSpec
  import opened ClaimSystem
  import opened Payouts

  lemma Extend(cfg: Config, s: State, steps: seq<Step>, last: Step)
    ensures RunFrom(cfg, s, steps + [last]) == Next(cfg, RunFrom(cfg, s, steps), last)
  {
    hide Next;
    assert (steps + [last])[..|steps|] == steps;
  }

  lemma EmptyRun(cfg: Config, s: State)
    ensures RunFrom(cfg, s, []) == s
  {
  }

  lemma TwoSteps(cfg: Config, s: State, a: Step, b: Step)
    ensures RunFrom(cfg, s, [a, b]) == Next(cfg, Next(cfg, s, a), b)
  {
    hide Next, RunFrom;
    EmptyRun(cfg, s);
    Extend(cfg, s, [], a);
    Extend(cfg, s, [a], b);
    assert [] + [a] == [a] && [a] + [b] == [a, b];
  }

  lemma {:induction false} Compose(cfg: Config, s: State, a: seq<Step>, b: seq<Step>)
    ensures RunFrom(cfg, s, a + b) == RunFrom(cfg, RunFrom(cfg, s, a), b)
  {
    hide Next;
    if b == [] {
      assert a + b == a;
    } else {
      var n := |b| - 1;
      Compose(cfg, s, a, b[..n]);
      assert (a + b)[..|a| + n] == a + b[..n];
    }
  }

  lemma OneStep(cfg: Config, s: State, a: Step)
    ensures RunFrom(cfg, s, [a]) == Next(cfg, s, a)
  {
    hide Next, RunFrom;
    EmptyRun(cfg, s);
    Extend(cfg, s, [], a);
    assert [] + [a] == [a];
  }

  /** An amount of zero passes every daily budget. */
  const ASK := Request("0xa", "t", 0, "", "", "")

  const NO_READS := CampaignReads(None, None, 0)

  function Row(status: ClaimStatus, retryCount: nat, next: Option<nat>, created: nat, updated: nat): Claim {
    Claim("0xa", "t", 0, status, retryCount, next, "", "", "", created, updated)
  }

  /** One claim, no transaction row yet. */
  function Solo(c: Claim, intake: Intake, h: History, worker: Worker, watcher: Watcher): State {
    State(Db([c], [], map[]), [Call(ASK, Committed(0))], [intake], [h], worker, watcher, map[], {})
  }

  // ---- Single steps on such a state ----

  function Calls(state: CallState): State {
    State(Db([], [], map[]), [Call(ASK, state)], [], [], Idle, Resting, map[], {})
  }

  // Calls without key or campaign.

  predicate PlainRequest(r: Request) {
    r.key == "" && r.campaignId == "" && r.invitationCode == ""
  }

  lemma EnterChecks(cfg: Config, s: State, r: Request, created: nat)
    requires WellShaped(s) && PlainRequest(r)
    ensures var k := |s.calls|;
            Next(cfg, Next(cfg, Next(cfg, s, Begin(r)), Lookup(k)), CheckCampaign(k, created, NO_READS))
            == s.(calls := s.calls + [Call(r, Checked("", ""))])
  {
    var k := |s.calls|;
    var s1 := Next(cfg, s, Begin(r));
    assert s1 == s.(calls := s.calls + [Call(r, Fresh)]);
    var s2 := Next(cfg, s1, Lookup(k));
    assert s2 == s.(calls := s.calls + [Call(r, LookedUp)]);
  }

  lemma StepIn(cfg: Config, now: nat)
    ensures Next(cfg, INIT, Begin(ASK)) == Calls(Fresh)
    ensures Next(cfg, Calls(Fresh), Lookup(0)) == Calls(LookedUp)
    ensures Next(cfg, Calls(LookedUp), CheckCampaign(0, now, NO_READS)) == Calls(Checked("", ""))
  {
  }

  lemma StepAdmit(cfg: Config, at: nat)
    ensures Next(cfg, Calls(Checked("", "")), Admit(0, at, at))
         == Solo(Row(Received, 0, None, at, at), AwaitEnqueue, NEW_HISTORY, Idle, Resting)
  {
    assert NewClaim(ASK, "", "", at) == Row(Received, 0, None, at, at);
    assert TokenColumn([], "t", DayStart(at), DayStart(at) + DAY) == [];
    assert CreateFor(cfg, Calls(Checked("", "")), Row(Received, 0, None, at, at), at) == Inserted(0);
  }

  lemma StepEnqueue(cfg: Config, c: Claim, h: History, now: nat)
    requires !WrittenOff(c.status)
    ensures Next(cfg, Solo(c, AwaitEnqueue, h, Idle, Resting), Enqueue(0, true, now))
         == Solo(c.(status := Queued, updatedAt := now), Settled, h.(enqueued := true), Idle, Resting)
  {
  }

  lemma OnlyBatch(c: Claim, n: int, now: nat)
    requires c.status == Queued && n > 0 && (c.nextAttemptAt == None || c.nextAttemptAt == Some(now))
    ensures IsBatch([c], now, n, [0])
  {
    TextLessIrreflexive(FormatTime(now));
    assert Ready(c, now);
  }

  /** A batch of the one ready claim. */
  lemma OnlyOneReady(rows: seq<Claim>, n: int, id: nat, now: nat)
    requires id < |rows| && Ready(rows[id], now) && n > 0
    requires forall i :: 0 <= i < |rows| && i != id ==> rows[i].status != Queued
    ensures IsBatch(rows, now, n, [id])
  {
    hide StampedNotAfter;
  }

  lemma StepDequeue(cfg: Config, c: Claim, h: History, w: Watcher, now: nat)
    requires cfg.batchSize > 0 && c.status == Queued && (c.nextAttemptAt == None || c.nextAttemptAt == Some(now))
    ensures Next(cfg, Solo(c, Settled, h, Idle, w), Dequeue([0], now))
         == Solo(c.(status := Sending, updatedAt := now), Settled, h.(dequeues := h.dequeues + 1), Batch([0]), w)
  {
    hide StampedNotAfter;
    var s := Solo(c, Settled, h, Idle, w);
    OnlyBatch(c, cfg.batchSize, now);
    assert 0 in [0];
    var s' := NextDequeue(cfg, s, [0], now);
    assert s'.db.requests == [c.(status := Sending, updatedAt := now)];
    assert s'.history == [h.(dequeues := h.dequeues + 1)];
  }

  lemma StepSend(cfg: Config, c: Claim, h: History, w: Watcher, hash: nat)
    ensures Next(cfg, Solo(c, Settled, h, Batch([0]), w), Send(SendOk(Some(hash))))
         == Solo(c, Settled, h.(sends := h.sends + 1), Acking(0, Some(hash), []), w)
    ensures Next(cfg, Solo(c, Settled, h, Batch([0]), w), Send(SendError(true)))
         == Solo(c, Settled, h.(ambiguous := h.ambiguous + 1), Failing(0, []), w)
  {
    var todo: seq<nat> := [0];
    assert todo[1..] == [];
    assert NextSend(Solo(c, Settled, h, Batch(todo), w), SendOk(Some(hash))).history == [h.(sends := h.sends + 1)];
  }

  lemma StepFail(cfg: Config, c: Claim, h: History, w: Watcher, now: nat)
    requires !WrittenOff(c.status) && c.retryCount + 1 < cfg.maxRetries
    ensures var count := c.retryCount + 1;
            && Next(cfg, Solo(c, Settled, h, Failing(0, []), w), ReadRetryCount(true, now))
               == Solo(c, Settled, h, FailRead(0, count, now, []), w)
            && Next(cfg, Solo(c, Settled, h, FailRead(0, count, now, []), w), WriteFail(true))
               == Solo(c.(retryCount := count, updatedAt := now, status := Queued,
                          nextAttemptAt := Some(now + count * BACKOFF)),
                       Settled, h.(requeues := h.requeues + 1, lastFailure := Some(Failure(now, count))), Idle, w)
  {
  }

  lemma OnlyStuck(c: Claim, cutoff: nat, n: int)
    requires c.status == Sending && c.updatedAt == cutoff && n > 0
    ensures IsStuckList([c], cutoff, n, [0])
  {
    TextLessIrreflexive(FormatTime(cutoff));
  }

  lemma StepStuck(cfg: Config, c: Claim, h: History, w: Worker, now: nat)
    requires cfg.watcherBatch > 0 && c.status == Sending && now == c.updatedAt + cfg.stuckAfter
    ensures Next(cfg, Solo(c, Settled, h, w, BeforeStuck), ListStuck([0], now))
         == Solo(c, Settled, h, w, Reconciling([0]))
  {
    hide StampedNotAfter;
    var s := Solo(c, Settled, h, w, BeforeStuck);
    assert Enabled(cfg, s, ListStuck([0], now)) by {
      OnlyStuck(c, now - cfg.stuckAfter, cfg.watcherBatch);
    }
  }

  lemma StepReconcile(cfg: Config, c: Claim, h: History, w: Worker, now: nat)
    ensures Next(cfg, Solo(c, Settled, h, w, Reconciling([0])), Reconcile(true, now))
         == Solo(c.(status := Failed, updatedAt := now), Settled, h, w, Resting)
  {
  }

  lemma StepRevive(cfg: Config, c: Claim, h: History, now: nat)
    requires c.status == Failed
    ensures Next(cfg, Solo(c, Settled, h, Idle, Resting), OperatorRetry(0, now))
         == Solo(c.(status := Queued, nextAttemptAt := None, updatedAt := now), Settled,
                 h.(revived := h.revived + 1, retries := h.retries + 1), Idle, Resting)
  {
  }

  lemma StepCrash(cfg: Config, c: Claim, h: History, worker: Worker)
    ensures Next(cfg, Solo(c, Settled, h, worker, Resting), WorkerCrash) == Solo(c, Settled, h, Idle, Resting)
  {
  }

  lemma StepIdleWatcher(cfg: Config, c: Claim, h: History, w: Worker)
    ensures Next(cfg, Solo(c, Settled, h, w, Resting), ListPending([])) == Solo(c, Settled, h, w, BeforeStuck)
  {
  }

  lemma StepCancelHeld(cfg: Config, c: Claim, h: History, now: nat)
    requires c.status == Failed
    ensures Enabled(cfg, Solo(c, Settled, h, Batch([0]), Resting), OperatorCancel(0, now))
    ensures Next(cfg, Solo(c, Settled, h, Batch([0]), Resting), OperatorCancel(0, now))
         == Solo(c.(status := Rejected, nextAttemptAt := None, updatedAt := now), Settled, h, Batch([0]), Resting)
  {
  }

  lemma StepCancel(cfg: Config, c: Claim, h: History, now: nat)
    requires c.status == Received
    ensures Next(cfg, Solo(c, AwaitEnqueue, h, Idle, Resting), OperatorCancel(0, now))
         == Solo(c.(status := Rejected, nextAttemptAt := None, updatedAt := now), AwaitEnqueue, h, Idle, Resting)
  {
  }

  // ---- The runs ----

  function Created(at: nat): seq<Step> {
    [Begin(ASK)] + [Lookup(0)] + [CheckCampaign(0, at, NO_READS)] + [Admit(0, at, at)]
  }

  lemma AfterCreate(cfg: Config, at: nat)
    ensures Run(cfg, Created(at)) == Solo(Row(Received, 0, None, at, at), AwaitEnqueue, NEW_HISTORY, Idle, Resting)
  {
    StepIn(cfg, at);
    StepAdmit(cfg, at);
    Extend(cfg, INIT, [], Begin(ASK));
    assert [] + [Begin(ASK)] == [Begin(ASK)];
    Extend(cfg, INIT, [Begin(ASK)], Lookup(0));
    Extend(cfg, INIT, [Begin(ASK)] + [Lookup(0)], CheckCampaign(0, at, NO_READS));
    Extend(cfg, INIT, [Begin(ASK)] + [Lookup(0)] + [CheckCampaign(0, at, NO_READS)], Admit(0, at, at));
  }

  lemma CancelledWhileOpen(cfg: Config, at: nat)
    ensures Run(cfg, Created(at) + [OperatorCancel(0, at)])
         == Solo(Row(Rejected, 0, None, at, at), AwaitEnqueue, NEW_HISTORY, Idle, Resting)
  {
    AfterCreate(cfg, at);
    StepCancel(cfg, Row(Received, 0, None, at, at), NEW_HISTORY, at);
    Extend(cfg, INIT, Created(at), OperatorCancel(0, at));
  }

  /** The operator's cancel of a claim whose call has not reached Enqueue yet is lost: Enqueue
      does not look at the status. */
  lemma CancelCanBeLost(cfg: Config, at: nat) returns (steps: seq<Step>)
    ensures steps == Created(at) + [OperatorCancel(0, at)] + [Enqueue(0, true, at)]
    ensures var s := Run(cfg, steps); |s.db.requests| == 1 && s.db.requests[0].status == Queued
  {
    CancelledWhileOpen(cfg, at);
    steps := Created(at) + [OperatorCancel(0, at)];
    Extend(cfg, INIT, steps, Enqueue(0, true, at));
    steps := steps + [Enqueue(0, true, at)];
  }

  lemma AfterQueue(cfg: Config, at: nat) returns (steps: seq<Step>, h: History)
    ensures h == NEW_HISTORY.(enqueued := true)
    ensures Run(cfg, steps) == Solo(Row(Queued, 0, None, at, at), Settled, h, Idle, Resting)
  {
    hide Next, RunFrom, Enabled;
    AfterCreate(cfg, at);
    h := NEW_HISTORY.(enqueued := true);
    StepEnqueue(cfg, Row(Received, 0, None, at, at), NEW_HISTORY, at);
    Extend(cfg, INIT, Created(at), Enqueue(0, true, at));
    steps := Created(at) + [Enqueue(0, true, at)];
  }

  /** A broadcast the node accepted while reporting an error is sent again: two payouts without
      any operator. */
  lemma AmbiguousBroadcastPaysTwice(cfg: Config, at: nat, hash: nat) returns (steps: seq<Step>)
    requires cfg.batchSize > 0 && cfg.maxRetries > 1
    ensures var s := Run(cfg, steps);
            |s.history| == 1 && Paid(s.history[0]) == 2 && s.history[0].retries == 0
  {
    hide Next, RunFrom, Enabled;
    var h;
    steps, h := AfterQueue(cfg, at);
    StepDequeue(cfg, Row(Queued, 0, None, at, at), h, Resting, at);
    Extend(cfg, INIT, steps, Dequeue([0], at));
    steps, h := steps + [Dequeue([0], at)], h.(dequeues := 1);
    StepSend(cfg, Row(Sending, 0, None, at, at), h, Resting, hash);
    Extend(cfg, INIT, steps, Send(SendError(true)));
    steps, h := steps + [Send(SendError(true))], h.(ambiguous := 1);
    StepFail(cfg, Row(Sending, 0, None, at, at), h, Resting, at);
    Extend(cfg, INIT, steps, ReadRetryCount(true, at));
    steps := steps + [ReadRetryCount(true, at)];
    Extend(cfg, INIT, steps, WriteFail(true));
    steps, h := steps + [WriteFail(true)], h.(requeues := 1, lastFailure := Some(Failure(at, 1)));
    var later := at + BACKOFF;
    assert Run(cfg, steps) == Solo(Row(Queued, 1, Some(later), at, at), Settled, h, Idle, Resting);
    StepDequeue(cfg, Row(Queued, 1, Some(later), at, at), h, Resting, later);
    Extend(cfg, INIT, steps, Dequeue([0], later));
    steps, h := steps + [Dequeue([0], later)], h.(dequeues := 2);
    StepSend(cfg, Row(Sending, 1, Some(later), at, later), h, Resting, hash);
    Extend(cfg, INIT, steps, Send(SendOk(Some(hash))));
    steps := steps + [Send(SendOk(Some(hash)))];
  }

  /** The bound of AtMostOncePayout is reached: a worker that dies between broadcast and Ack
      leaves a paid claim in 'sending', the watcher fails it, and one operator retry pays again. */
  lemma RetryPaysTwice(cfg: Config, at: nat, hash: nat) returns (steps: seq<Step>)
    requires cfg.batchSize > 0 && cfg.watcherBatch > 0
    ensures var s := Run(cfg, steps);
            |s.history| == 1 && s.history[0].sends == 2 && s.history[0].retries == 1
  {
    hide Next, RunFrom, Enabled;
    var h;
    steps, h := AfterQueue(cfg, at);
    var c := Row(Sending, 0, None, at, at);
    StepDequeue(cfg, Row(Queued, 0, None, at, at), h, Resting, at);
    Extend(cfg, INIT, steps, Dequeue([0], at));
    steps, h := steps + [Dequeue([0], at)], h.(dequeues := 1);
    StepSend(cfg, c, h, Resting, hash);
    Extend(cfg, INIT, steps, Send(SendOk(Some(hash))));
    steps, h := steps + [Send(SendOk(Some(hash)))], h.(sends := 1);
    StepCrash(cfg, c, h, Acking(0, Some(hash), []));
    Extend(cfg, INIT, steps, WorkerCrash);
    steps := StuckIsFailed(cfg, steps + [WorkerCrash], c, h, Idle);
    var later := at + cfg.stuckAfter;
    steps := RetriedPaysAgain(cfg, steps, Row(Failed, 0, None, at, later), h, later, hash);
  }

  /** The watcher fails a claim that has been 'sending' for long enough, whatever the worker does. */
  lemma StuckIsFailed(cfg: Config, steps: seq<Step>, c: Claim, h: History, w: Worker) returns (more: seq<Step>)
    requires cfg.watcherBatch > 0 && c.status == Sending
    requires Run(cfg, steps) == Solo(c, Settled, h, w, Resting)
    ensures Run(cfg, more) == Solo(c.(status := Failed, updatedAt := c.updatedAt + cfg.stuckAfter), Settled, h, w, Resting)
  {
    hide Next, RunFrom, Enabled;
    var later := c.updatedAt + cfg.stuckAfter;
    StepIdleWatcher(cfg, c, h, w);
    Extend(cfg, INIT, steps, ListPending([]));
    more := steps + [ListPending([])];
    StepStuck(cfg, c, h, w, later);
    Extend(cfg, INIT, more, ListStuck([0], later));
    more := more + [ListStuck([0], later)];
    StepReconcile(cfg, c, h, w, later);
    Extend(cfg, INIT, more, Reconcile(true, later));
    more := more + [Reconcile(true, later)];
  }

  /** A claim that the watcher fails as stuck while the worker still holds it. */
  lemma FailedWhileHeld(cfg: Config, at: nat) returns (steps: seq<Step>, h: History)
    requires cfg.batchSize > 0 && cfg.watcherBatch > 0
    ensures h == NEW_HISTORY.(enqueued := true, dequeues := 1)
    ensures Run(cfg, steps) == Solo(Row(Failed, 0, None, at, at + cfg.stuckAfter), Settled, h, Batch([0]), Resting)
  {
    hide Next, RunFrom, Enabled;
    steps, h := AfterQueue(cfg, at);
    StepDequeue(cfg, Row(Queued, 0, None, at, at), h, Resting, at);
    Extend(cfg, INIT, steps, Dequeue([0], at));
    h := h.(dequeues := 1);
    steps := StuckIsFailed(cfg, steps + [Dequeue([0], at)], Row(Sending, 0, None, at, at), h, Batch([0]));
  }

  /** A cancel is also lost on a claim the worker still holds: the watcher fails it as stuck, the
      operator cancels it, and the worker sends it. */
  lemma CancelledClaimIsPaid(cfg: Config, at: nat, hash: nat) returns (steps: seq<Step>)
    requires cfg.batchSize > 0 && cfg.watcherBatch > 0
    ensures |steps| >= 2 && steps[|steps| - 2].OperatorCancel? && Enabled(cfg, Run(cfg, steps[..|steps| - 2]), steps[|steps| - 2])
    ensures var s := Run(cfg, steps);
            && |s.history| == |s.db.requests| == 1 && s.db.requests[0].status == Rejected
            && s.history[0].sends == 1 && s.history[0].retries == 0
  {
    hide Next, RunFrom, Enabled;
    var h;
    steps, h := FailedWhileHeld(cfg, at);
    var later := at + cfg.stuckAfter;
    StepCancelHeld(cfg, Row(Failed, 0, None, at, later), h, later);
    Extend(cfg, INIT, steps, OperatorCancel(0, later));
    StepSend(cfg, Row(Rejected, 0, None, at, later), h, Resting, hash);
    Extend(cfg, INIT, steps + [OperatorCancel(0, later)], Send(SendOk(Some(hash))));
    var more := steps + [OperatorCancel(0, later)] + [Send(SendOk(Some(hash)))];
    assert more[..|more| - 2] == steps && more[|more| - 2] == OperatorCancel(0, later);
    steps := more;
  }

  lemma RetriedPaysAgain(cfg: Config, steps: seq<Step>, c: Claim, h: History, now: nat, hash: nat) returns (more: seq<Step>)
    requires cfg.batchSize > 0 && c.status == Failed
    requires Run(cfg, steps) == Solo(c, Settled, h, Idle, Resting)
    ensures var s := Run(cfg, more);
            |s.history| == 1 && s.history[0].sends == h.sends + 1 && s.history[0].retries == h.retries + 1
  {
    hide Next, RunFrom, Enabled;
    StepRevive(cfg, c, h, now);
    Extend(cfg, INIT, steps, OperatorRetry(0, now));
    more := steps + [OperatorRetry(0, now)];
    var c', h' := c.(status := Queued, nextAttemptAt := None, updatedAt := now),
      h.(revived := h.revived + 1, retries := h.retries + 1);
    StepDequeue(cfg, c', h', Resting, now);
    Extend(cfg, INIT, more, Dequeue([0], now));
    more := more + [Dequeue([0], now)];
    StepSend(cfg, c'.(status := Sending), h'.(dequeues := h'.dequeues + 1), Resting, hash);
    Extend(cfg, INIT, more, Send(SendOk(Some(hash))));
    more := more + [Send(SendOk(Some(hash)))];
  }

  // ---- When payments are at most one per permission ----

  predicate PaysOnce(cfg: Config, steps: seq<Step>, id: nat) {
    var s := Run(cfg, steps);
    id < |s.history| ==> Paid(s.history[id]) <= 1 + s.history[id].retries
  }

  /** Counting every broadcast the node accepted, claims are paid at most once per permission in
      every run exactly when the worker is off or configured not to retry. */
  lemma AtMostOnceExactly(cfg: Config)
    ensures (forall steps: seq<Step>, id: nat :: PaysOnce(cfg, steps, id)) <==> cfg.batchSize <= 0 || cfg.maxRetries <= 1
  {
    hide Run;
    if cfg.batchSize <= 0 || cfg.maxRetries <= 1 {
      forall steps: seq<Step>, id: nat
        ensures PaysOnce(cfg, steps, id)
      {
        Reachable(cfg, steps);
        if id < |Run(cfg, steps).history| {
          AtMostOncePayout(cfg, steps, id);
        }
      }
    } else {
      var steps := AmbiguousBroadcastPaysTwice(cfg, 0, 0);
      assert !PaysOnce(cfg, steps, 0);
    }
  }
}
