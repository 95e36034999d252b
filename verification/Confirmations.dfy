/** Which mined transactions the watcher gets to see. Its list of pending transactions is limited
    and has no order. */
module Confirmations {
  import opened Domain
  import opened Text
  import opened TimeText
  import opened StoreSpec
  import opened ClaimSystem
  import opened Lifecycle
  import opened Payouts
  import opened Witnesses

  // ---- Who is listed ----

  /** The pending rows among the first n transactions. */
  function PendingAmong(db: Db, n: nat): seq<nat>
    requires n <= |db.transactions|
  {
    if n == 0 then [] else PendingAmong(db, n - 1) + if Pending(db, n - 1) then [n - 1] else []
  }

  function AllPending(db: Db): seq<nat> {
    PendingAmong(db, |db.transactions|)
  }

  lemma {:induction false} PendingAmongExact(db: Db, n: nat)
    requires n <= |db.transactions|
    ensures Distinct(PendingAmong(db, n))
    ensures forall t: nat :: t in PendingAmong(db, n) <==> t < n && Pending(db, t)
  {
    if n > 0 {
      PendingAmongExact(db, n - 1);
      DistinctAppend(PendingAmong(db, n - 1), n - 1);
    }
  }

  lemma DistinctAppend(xs: seq<nat>, x: nat)
    requires Distinct(xs) && x !in xs
    ensures Distinct(xs + [x])
  {
    forall i | 0 <= i < |xs|
      ensures (xs + [x])[i] != x
    {
      assert xs[i] in xs;
    }
  }

  function Elements(xs: seq<nat>): set<nat> {
    set x | x in xs
  }

  lemma {:induction false} DistinctSize(xs: seq<nat>)
    requires Distinct(xs)
    ensures |Elements(xs)| == |xs|
  {
    if xs != [] {
      var init, last := xs[..|xs| - 1], xs[|xs| - 1];
      DistinctSize(init);
      assert xs == init + [last];
      assert last !in Elements(init);
      assert Elements(xs) == Elements(init) + {last};
    }
  }

  lemma FewerWithout(xs: seq<nat>, ys: seq<nat>, t: nat)
    requires Distinct(xs) && Distinct(ys) && t in ys && t !in xs
    requires forall x :: x in xs ==> x in ys
    ensures |xs| < |ys|
  {
    DistinctSize(xs);
    DistinctSize(ys);
    var a, b := Elements(xs), Elements(ys);
    assert b == a + (b - a) && t in b - a;
  }

  function Remove(xs: seq<nat>, t: nat): seq<nat> {
    if xs == [] then []
    else Remove(xs[..|xs| - 1], t) + if xs[|xs| - 1] == t then [] else [xs[|xs| - 1]]
  }

  lemma {:induction false} RemoveExact(xs: seq<nat>, t: nat)
    requires Distinct(xs)
    ensures Distinct(Remove(xs, t)) && forall x :: x in Remove(xs, t) <==> x in xs && x != t
    ensures |Remove(xs, t)| >= |xs| - 1 && (t !in xs ==> |Remove(xs, t)| == |xs|)
  {
    if xs != [] {
      var init, last := xs[..|xs| - 1], xs[|xs| - 1];
      RemoveExact(init, t);
      assert xs == init + [last] && last !in init;
      DistinctAppend(Remove(init, t), last);
    }
  }

  /** A list that leaves a given transaction out. */
  function OthersListed(db: Db, limit: int, t: nat): seq<nat> {
    var others := Remove(AllPending(db), t);
    if limit <= 0 then [] else if limit <= |others| then others[..limit] else others
  }

  lemma OthersMakeAList(db: Db, limit: int, t: nat)
    requires |AllPending(db)| > limit
    ensures IsPendingList(db, limit, OthersListed(db, limit, t)) && t !in OthersListed(db, limit, t)
  {
    hide Pending;
    PendingAmongExact(db, |db.transactions|);
    RemoveExact(AllPending(db), t);
    var picks := OthersListed(db, limit, t);
    assert forall k :: 0 <= k < |picks| ==> picks[k] in Remove(AllPending(db), t);
  }

  /** A pending transaction is on every list the query may return exactly when all pending
      transactions fit the limit. */
  lemma ListedExactly(db: Db, limit: int, t: nat)
    requires t < |db.transactions| && Pending(db, t)
    ensures (forall picks :: IsPendingList(db, limit, picks) ==> t in picks) <==> |AllPending(db)| <= limit
  {
    hide Pending;
    if |AllPending(db)| <= limit {
      forall picks | IsPendingList(db, limit, picks)
        ensures t in picks
      {
        PendingAmongExact(db, |db.transactions|);
        if t !in picks {
          assert forall x :: x in picks ==> x in AllPending(db);
          FewerWithout(picks, AllPending(db), t);
        }
      }
    } else {
      OthersMakeAList(db, limit, t);
    }
  }

  // ---- A listed transaction gets its verdict ----

  /** The claim was sent and never retried, and the watcher has its transaction t on its list. */
  predicate Waiting(s: State, t: nat, id: nat) {
    && WellShaped(s) && t < |s.db.transactions| && s.db.transactions[t].claimId == id < |s.db.requests|
    && s.db.requests[id].status == Sent && s.history[id].retries == 0
    && (s.watcher.Listed? || s.watcher.Receipts?) && t in s.watcher.pending
  }

  /** The watcher is not interrupted, and when it asks for t the node reports it mined deep enough
      and the confirmation is written. */
  predicate GoodAnswer(cfg: Config, s: State, step: Step, t: nat) {
    && !step.WatcherCrash? && step != ReadHead(None)
    && (step.CheckReceipt? && s.watcher.Receipts? && s.watcher.pending != [] && s.watcher.pending[0] == t ==>
          step.ok && step.receipt.Mined? && EnoughConfirmations(cfg, s.watcher.head, step.receipt.block))
  }

  lemma SentFacts(cfg: Config, s: State, id: nat)
    requires Inv(cfg, s) && id < |s.db.requests| && s.db.requests[id].status == Sent && s.history[id].retries == 0
    ensures !Holds(s.worker, id) && s.intake[id] == Settled && CountTx(s.db.transactions, id) <= 1
  {
    assert Sound(cfg.maxRetries, ViewOf(s, id));
  }

  lemma UntouchedWaits(s: State, s': State, t: nat, id: nat)
    requires Waiting(s, t, id) && Untouched(s, s', id)
    ensures Waiting(s', t, id)
  {
  }

  lemma WaitingReceipt(cfg: Config, s: State, receipt: Receipt, ok: bool, now: nat, t: nat, id: nat)
    requires Inv(cfg, s) && Waiting(s, t, id) && s.watcher.Receipts? && s.watcher.pending[0] < |s.db.transactions|
    requires CountTx(s.db.transactions, id) <= 1
    requires s.watcher.pending[0] == t ==> ok && receipt.Mined? && EnoughConfirmations(cfg, s.watcher.head, receipt.block)
    ensures var s' := NextCheckReceipt(cfg, s, receipt, ok, now);
            WellShaped(s') && (Waiting(s', t, id) || IsConfirmed(s', id))
  {
    hide AllSound, EnoughConfirmations;
    var u, pending := s.watcher.pending[0], s.watcher.pending;
    assert pending == [u] + pending[1..];
    if u != t && s.db.transactions[u].claimId == id {
      CountTxTwo(s.db.transactions, if u < t then u else t, if u < t then t else u);
    }
  }

  lemma WaitingWatcherStep(cfg: Config, s: State, step: Step, t: nat, id: nat)
    requires Inv(cfg, s) && Waiting(s, t, id) && WatcherStep(step) && Enabled(cfg, s, step) && GoodAnswer(cfg, s, step, t)
    requires CountTx(s.db.transactions, id) <= 1
    ensures WellShaped(Take(cfg, s, step)) && (Waiting(Take(cfg, s, step), t, id) || IsConfirmed(Take(cfg, s, step), id))
  {
    hide AllSound, IsPendingList, IsStuckList, NextCheckReceipt, NextReconcile, EnoughConfirmations;
    if step.CheckReceipt? {
      WaitingReceipt(cfg, s, step.receipt, step.ok, step.now, t, id);
    }
  }

  lemma WaitingStep(cfg: Config, s: State, step: Step, t: nat, id: nat)
    requires Inv(cfg, s) && Waiting(s, t, id) && GoodAnswer(cfg, s, step, t)
    ensures var s' := Next(cfg, s, step); WellShaped(s') && (Waiting(s', t, id) || IsConfirmed(s', id))
  {
    hide Take, Enabled, AllSound, GoodAnswer, Untouched;
    SentFacts(cfg, s, id);
    if Enabled(cfg, s, step) {
      if WorkerStep(step) {
        WorkerFrame(cfg, s, step, id);
        UntouchedWaits(s, Take(cfg, s, step), t, id);
      } else if WatcherStep(step) {
        WaitingWatcherStep(cfg, s, step, t, id);
      } else {
        ServiceFrame(cfg, s, step, id);
        UntouchedWaits(s, Take(cfg, s, step), t, id);
      }
    }
  }

  predicate GoodAnswers(cfg: Config, s: State, more: seq<Step>, t: nat) {
    forall k :: 0 <= k < |more| ==> GoodAnswer(cfg, RunFrom(cfg, s, more[..k]), more[k], t)
  }

  lemma {:induction false} WaitingRun(cfg: Config, s: State, more: seq<Step>, t: nat, id: nat)
    requires Inv(cfg, s) && Waiting(s, t, id) && GoodAnswers(cfg, s, more, t)
    ensures var s' := RunFrom(cfg, s, more);
            Inv(cfg, s') && WellShaped(s') && (Waiting(s', t, id) || IsConfirmed(s', id))
  {
    hide Inv, Next, Waiting, IsConfirmed, GoodAnswer;
    if more == [] {
      WaitingShape(s, t, id);
    } else {
      var n := |more| - 1;
      var init, last := more[..n], more[n];
      assert GoodAnswers(cfg, s, init, t) by {
        assert forall k :: 0 <= k < n ==> init[..k] == more[..k];
      }
      WaitingRun(cfg, s, init, t, id);
      var s1 := RunFrom(cfg, s, init);
      InvStep(cfg, s1, last);
      if Waiting(s1, t, id) {
        WaitingStep(cfg, s1, last, t, id);
      } else {
        ConfirmedStep(cfg, s1, last, id);
        InvShape(cfg, Next(cfg, s1, last));
      }
    }
  }

  lemma WaitingShape(s: State, t: nat, id: nat)
    requires Waiting(s, t, id)
    ensures WellShaped(s)
  {
  }

  predicate OnList(w: Watcher, t: nat) {
    (w.Listed? || w.Receipts?) && t in w.pending
  }

  /** While all pending transactions fit the limit, a round of the watcher confirms every sent,
      never retried claim whose transaction is mined deep enough, whatever the service, the worker
      and the operator do meanwhile. */
  lemma ConfirmedInOneRound(cfg: Config, s: State, picks: seq<nat>, more: seq<Step>, t: nat)
    requires Inv(cfg, s) && WellShaped(s) && t < |s.db.transactions| && Pending(s.db, t)
    requires s.history[s.db.transactions[t].claimId].retries == 0
    requires s.watcher.Resting? && IsPendingList(s.db, cfg.watcherBatch, picks) && |AllPending(s.db)| <= cfg.watcherBatch
    requires var s1 := Next(cfg, s, ListPending(picks));
             GoodAnswers(cfg, s1, more, t) && !OnList(RunFrom(cfg, s1, more).watcher, t)
    ensures var s' := RunFrom(cfg, Next(cfg, s, ListPending(picks)), more);
            WellShaped(s') && IsConfirmed(s', s.db.transactions[t].claimId)
  {
    hide Inv, RunFrom, IsPendingList, GoodAnswers;
    var id := s.db.transactions[t].claimId;
    ListedExactly(s.db, cfg.watcherBatch, t);
    var s1 := Next(cfg, s, ListPending(picks));
    InvStep(cfg, s, ListPending(picks));
    assert Waiting(s1, t, id);
    WaitingRun(cfg, s1, more, t, id);
  }

  // ---- A transaction that is never listed ----

  /** n receipts that are not there yet. */
  function NotMinedYet(n: nat, now: nat): seq<Step> {
    if n == 0 then [] else [CheckReceipt(NotMined, true, now)] + NotMinedYet(n - 1, now)
  }

  lemma {:induction false} NothingMined(cfg: Config, s: State, n: nat, now: nat)
    requires WellShaped(s) && s.watcher.Receipts? && |s.watcher.pending| == n > 0
    requires forall k :: 0 <= k < n ==> s.watcher.pending[k] < |s.db.transactions|
    ensures RunFrom(cfg, s, NotMinedYet(n, now)) == s.(watcher := BeforeStuck)
    decreases n
  {
    var step := CheckReceipt(NotMined, true, now);
    var s1 := Next(cfg, s, step);
    assert s1 == s.(watcher := CarryOn(s.watcher));
    OneStep(cfg, s, step);
    Compose(cfg, s, [step], NotMinedYet(n - 1, now));
    if n > 1 {
      NothingMined(cfg, s1, n - 1, now);
    }
  }

  /** One whole round of the watcher that looks at `picks` and finds nothing. */
  function IdleRound(picks: seq<nat>, head: nat, now: nat): seq<Step> {
    [ListPending(picks)] + (if picks == [] then [] else [ReadHead(Some(head))] + NotMinedYet(|picks|, now))
    + [ListStuck([], now)]
  }

  predicate NoneSending(s: State) {
    forall i :: 0 <= i < |s.db.requests| ==> s.db.requests[i].status != Sending
  }

  lemma NothingStuck(cfg: Config, s: State, now: nat)
    requires cfg.stuckAfter <= now && WellShaped(s) && NoneSending(s) && s.watcher.BeforeStuck?
    ensures Next(cfg, s, ListStuck([], now)) == s.(watcher := Resting)
  {
    hide StampedNotAfter;
  }

  lemma ListsThem(cfg: Config, s: State, picks: seq<nat>)
    requires WellShaped(s) && s.watcher.Resting? && IsPendingList(s.db, cfg.watcherBatch, picks)
    ensures Next(cfg, s, ListPending(picks)) == s.(watcher := if picks == [] then BeforeStuck else Listed(picks))
  {
    hide IsPendingList;
  }

  lemma ReadsHead(cfg: Config, s: State, head: nat)
    requires WellShaped(s) && s.watcher.Listed?
    ensures Next(cfg, s, ReadHead(Some(head))) == s.(watcher := Receipts(head, s.watcher.pending))
  {
  }

  lemma IdleRoundReturns(cfg: Config, s: State, picks: seq<nat>, head: nat, now: nat)
    requires cfg.stuckAfter <= now && WellShaped(s) && NoneSending(s) && s.watcher.Resting? && IsPendingList(s.db, cfg.watcherBatch, picks)
    ensures RunFrom(cfg, s, IdleRound(picks, head, now)) == s
  {
    hide Next, RunFrom;
    var s1 := s.(watcher := if picks == [] then BeforeStuck else Listed(picks));
    ListsThem(cfg, s, picks);
    OneStep(cfg, s, ListPending(picks));
    var middle := if picks == [] then [] else [ReadHead(Some(head))] + NotMinedYet(|picks|, now);
    if picks == [] {
      EmptyRun(cfg, s1);
    } else {
      ReadsHead(cfg, s1, head);
      OneStep(cfg, s1, ReadHead(Some(head)));
      NothingMined(cfg, s.(watcher := Receipts(head, picks)), |picks|, now);
      Compose(cfg, s1, [ReadHead(Some(head))], NotMinedYet(|picks|, now));
    }
    Compose(cfg, s, [ListPending(picks)], middle);
    var s2 := s.(watcher := BeforeStuck);
    NothingStuck(cfg, s2, now);
    OneStep(cfg, s2, ListStuck([], now));
    Compose(cfg, s, [ListPending(picks)] + middle, [ListStuck([], now)]);
    assert s2.(watcher := Resting) == s;
  }

  function Repeat(round: seq<Step>, n: nat): seq<Step> {
    if n == 0 then [] else Repeat(round, n - 1) + round
  }

  /** When more transactions are pending than the limit, the watcher can go on forever without
      looking at a given one: rounds that list others, none of them mined, return to the same state. */
  lemma Overlooked(cfg: Config, s: State, t: nat, head: nat, now: nat, rounds: nat) returns (picks: seq<nat>)
    requires WellShaped(s) && NoneSending(s) && s.watcher.Resting? && cfg.stuckAfter <= now
    requires t < |s.db.transactions| && Pending(s.db, t) && |AllPending(s.db)| > cfg.watcherBatch
    ensures IsPendingList(s.db, cfg.watcherBatch, picks) && t !in picks
    ensures RunFrom(cfg, s, Repeat(IdleRound(picks, head, now), rounds)) == s
  {
    hide RunFrom, IsPendingList, IdleRound;
    OthersMakeAList(s.db, cfg.watcherBatch, t);
    picks := OthersListed(s.db, cfg.watcherBatch, t);
    IdleRoundReturns(cfg, s, picks, head, now);
    RepeatReturns(cfg, s, IdleRound(picks, head, now), rounds);
  }

  lemma {:induction false} RepeatReturns(cfg: Config, s: State, round: seq<Step>, n: nat)
    requires RunFrom(cfg, s, round) == s
    ensures RunFrom(cfg, s, Repeat(round, n)) == s
  {
    hide RunFrom;
    if n == 0 {
      EmptyRun(cfg, s);
    } else {
      RepeatReturns(cfg, s, round, n - 1);
      Compose(cfg, s, Repeat(round, n - 1), round);
    }
  }

  // ---- Any number of transactions can be pending ----

  predicate SentRow(c: Claim) {
    c.status == Sent && c.amountWei == 0
  }

  /** n claims of amount zero sent and waiting for their receipts, and possibly one more on its way. */
  predicate Stage(s: State, n: nat, last: Option<ClaimStatus>, w: Worker) {
    && WellShaped(s) && |s.db.requests| == n + (if last.Some? then 1 else 0) && |s.db.transactions| == n
    && (forall i :: 0 <= i < n ==> SentRow(s.db.requests[i]))
    && (forall i :: 0 <= i < n ==> s.db.transactions[i].claimId == i && s.db.transactions[i].hash == i)
    && (last.Some? ==> s.db.requests[n].status == last.value && s.db.requests[n].amountWei == 0
                       && s.db.requests[n].nextAttemptAt == None)
    && s.worker == w && s.watcher == Resting
  }

  lemma NothingUsed(rows: seq<Claim>, tokenId: string, start: nat, end: nat)
    requires forall i :: 0 <= i < |rows| ==> rows[i].amountWei == 0
    ensures TokenTotal(rows, tokenId, start, end) == 0
  {
    hide InTextWindow;
    SumZeros(TokenColumn(rows, tokenId, start, end));
  }

  lemma Arrives(cfg: Config, s: State, n: nat, at: nat)
    requires Stage(s, n, None, Idle)
    ensures var k := |s.calls|;
            var s' := Next(cfg, Next(cfg, Next(cfg, s, Begin(ASK)), Lookup(k)), CheckCampaign(k, at, NO_READS));
            Stage(s', n, None, Idle) && |s'.calls| == k + 1 && s'.calls[k] == Call(ASK, Checked("", ""))
  {
    EnterChecks(cfg, s, ASK, at);
  }

  lemma Admitted(cfg: Config, s: State, n: nat, k: nat, at: nat)
    requires Stage(s, n, None, Idle) && k < |s.calls| && s.calls[k] == Call(ASK, Checked("", ""))
    ensures var s' := Next(cfg, s, Admit(k, at, at));
            Stage(s', n, Some(Received), Idle) && s'.intake[n] == AwaitEnqueue
  {
    hide TokenTotal, CampaignTotal;
    NothingUsed(s.db.requests, "t", DayStart(at), DayStart(at) + DAY);
    var c := NewClaim(ASK, "", "", at);
    assert CreateFor(cfg, s, c, at) == Inserted(n);
  }

  lemma Enqueued(cfg: Config, s: State, n: nat, at: nat)
    requires Stage(s, n, Some(Received), Idle) && s.intake[n] == AwaitEnqueue
    ensures Stage(Next(cfg, s, Enqueue(n, true, at)), n, Some(Queued), Idle)
  {
  }

  lemma Dequeued(cfg: Config, s: State, n: nat, at: nat)
    requires Stage(s, n, Some(Queued), Idle) && cfg.batchSize > 0
    ensures Stage(Next(cfg, s, Dequeue([n], at)), n, Some(Sending), Batch([n]))
  {
    hide StampedNotAfter, IsBatch;
    OnlyOneReady(s.db.requests, cfg.batchSize, n, at);
    assert n in [n];
  }

  lemma SentAndAcked(cfg: Config, s: State, n: nat, at: nat)
    requires Stage(s, n, Some(Sending), Batch([n]))
    ensures var s' := Next(cfg, s, Send(SendOk(Some(n))));
            Stage(s', n, Some(Sending), Acking(n, Some(n), [])) && Stage(Next(cfg, s', Ack(true, at)), n + 1, None, Idle)
  {
    var todo: seq<nat> := [n];
    assert todo[1..] == [];
    AckedStage(cfg, Next(cfg, s, Send(SendOk(Some(n)))), n, at);
  }

  lemma AckedStage(cfg: Config, s: State, n: nat, at: nat)
    requires Stage(s, n, Some(Sending), Acking(n, Some(n), []))
    ensures Stage(Next(cfg, s, Ack(true, at)), n + 1, None, Idle)
  {
    assert AckAllowed(s.db, n, Some(n));
  }

  function ServeOne(k: nat, id: nat, at: nat): seq<Step> {
    [Begin(ASK), Lookup(k)] + [CheckCampaign(k, at, NO_READS), Admit(k, at, at)]
    + [Enqueue(id, true, at), Dequeue([id], at)] + [Send(SendOk(Some(id))), Ack(true, at)]
  }

  lemma OneMore(cfg: Config, s: State, n: nat, at: nat)
    requires Stage(s, n, None, Idle) && cfg.batchSize > 0
    ensures Stage(RunFrom(cfg, s, ServeOne(|s.calls|, n, at)), n + 1, None, Idle)
  {
    hide Next, RunFrom, Stage;
    var k := |s.calls|;
    var a, b := [Begin(ASK), Lookup(k)], [CheckCampaign(k, at, NO_READS), Admit(k, at, at)];
    var c, d := [Enqueue(n, true, at), Dequeue([n], at)], [Send(SendOk(Some(n))), Ack(true, at)];
    Arrives(cfg, s, n, at);
    var s2 := Next(cfg, Next(cfg, s, a[0]), a[1]);
    Admitted(cfg, Next(cfg, s2, b[0]), n, k, at);
    var s4 := Next(cfg, Next(cfg, s2, b[0]), b[1]);
    Enqueued(cfg, s4, n, at);
    Dequeued(cfg, Next(cfg, s4, c[0]), n, at);
    var s6 := Next(cfg, Next(cfg, s4, c[0]), c[1]);
    SentAndAcked(cfg, s6, n, at);
    TwoSteps(cfg, s, a[0], a[1]);
    TwoSteps(cfg, s2, b[0], b[1]);
    TwoSteps(cfg, s4, c[0], c[1]);
    TwoSteps(cfg, s6, d[0], d[1]);
    Compose(cfg, s, a, b);
    Compose(cfg, s, a + b, c);
    Compose(cfg, s, a + b + c, d);
  }

  /** For every n there is a run that ends with n pending transactions, none sending and the watcher
      resting. */
  lemma {:induction false} Crowd(cfg: Config, n: nat, at: nat) returns (steps: seq<Step>)
    requires cfg.batchSize > 0
    ensures Stage(Run(cfg, steps), n, None, Idle)
  {
    if n == 0 {
      steps := [];
    } else {
      steps := Crowd(cfg, n - 1, at);
      var s := Run(cfg, steps);
      OneMore(cfg, s, n - 1, at);
      var more := ServeOne(|s.calls|, n - 1, at);
      Compose(cfg, INIT, steps, more);
      steps := steps + more;
    }
  }

  lemma {:induction false} CrowdIsPending(s: State, n: nat, m: nat)
    requires Stage(s, n, None, Idle) && m <= n
    ensures |PendingAmong(s.db, m)| == m && forall t :: 0 <= t < m ==> Pending(s.db, t)
  {
    if m > 0 {
      CrowdIsPending(s, n, m - 1);
      assert SentRow(s.db.requests[m - 1]);
    }
  }

  /** A mined transaction can be overlooked forever: while the worker is on, for every n above the
      limit there is a run after which n transactions are pending, and from there, for every number
      of rounds, a continuation of that many whole rounds that never looks at a given one of them. */
  lemma OverlookedForever(cfg: Config, n: nat, t: nat, at: nat, head: nat, now: nat, rounds: nat)
    returns (steps: seq<Step>, picks: seq<nat>)
    requires cfg.batchSize > 0 && n > cfg.watcherBatch && t < n && at <= now && cfg.stuckAfter <= now
    ensures var s := Run(cfg, steps);
            && |AllPending(s.db)| == n && t < |s.db.transactions| && Pending(s.db, t)
            && IsPendingList(s.db, cfg.watcherBatch, picks) && t !in picks
            && RunFrom(cfg, s, Repeat(IdleRound(picks, head, now), rounds)) == s
  {
    hide RunFrom, IsPendingList, IdleRound;
    steps := Crowd(cfg, n, at);
    var s := Run(cfg, steps);
    CrowdIsPending(s, n, n);
    assert NoneSending(s) by {
      assert forall i :: 0 <= i < n ==> SentRow(s.db.requests[i]);
    }
    picks := Overlooked(cfg, s, t, head, now, rounds);
  }
}
