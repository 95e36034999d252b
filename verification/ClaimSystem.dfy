/** The claim pipeline as a labelled transition system. The HTTP service (any number of
    concurrent CreateClaim calls), one worker loop, one watcher loop and an operator share one
    database; every SQL statement or SQL transaction is one atomic step, and any actor may
    stop between steps. */
module ClaimSystem {
  import opened Domain
  import opened Text
  import opened TimeText
  import opened StoreSpec

  const UINT64: nat := 0x1_0000_0000_0000_0000

  datatype Config = Config(
    dailyBudgets: map<string, nat>,       // by token id; absent or 0 means no budget
    campaigns: map<string, Campaign>,
    allowlist: set<(string, string)>,     // (campaign id, address)
    maxRetries: int,
    batchSize: int,
    minConfirmations: nat,
    watcherBatch: int,
    stuckAfter: nat)

  function DailyBudget(cfg: Config, tokenId: string): nat {
    if tokenId in cfg.dailyBudgets then cfg.dailyBudgets[tokenId] else 0
  }

  function CampaignBudget(cfg: Config, campaignId: string): nat {
    if campaignId in cfg.campaigns then cfg.campaigns[campaignId].budgetWei else 0
  }

  // ---- Actors ----

  datatype Request = Request(
    address: string, tokenId: string, amountWei: nat, key: string, campaignId: string, invitationCode: string)

  /** Where a CreateClaim call stands before its claim exists, and what it returned. */
  datatype CallState =
    | Fresh
    | LookedUp
    | Checked(campaignId: string, code: string)
    | Replayed(id: nat)
    | Committed(id: nat)
    | Refused

  datatype Call = Call(request: Request, state: CallState)

  /** Where the call that inserted a claim stands after the insert. */
  datatype Intake = AwaitConsume | AwaitEnqueue | AwaitReject | Settled

  /** processBatch: between sends, after a good send, after a bad send, inside Fail. */
  datatype Worker =
    | Idle
    | Batch(todo: seq<nat>)
    | Acking(id: nat, hash: Option<nat>, todo: seq<nat>)
    | Failing(id: nat, todo: seq<nat>)
    | FailRead(id: nat, count: nat, at: nat, todo: seq<nat>)

  /** watchReceipts, then reconcileStuck. Pending entries are rows of the transactions table. */
  datatype Watcher =
    | Resting
    | Listed(pending: seq<nat>)
    | Receipts(head: nat, pending: seq<nat>)
    | BeforeStuck
    | Reconciling(stuck: seq<nat>)

  datatype Failure = Failure(at: nat, count: nat)

  /** What has happened to one claim so far. */
  datatype History = History(
    sends: nat,              // broadcasts that returned success to the worker
    ambiguous: nat,          // broadcasts the node accepted although Send returned an error
    retries: nat,            // successful operator retries
    dequeues: nat,
    requeues: nat,           // automatic re-queues by Fail
    passedOver: nat,         // batches that left it behind although it was ready
    revived: nat,            // moves back from 'failed', 'rejected' or 'paused'
    consumed: bool,          // its invitation use was consumed
    enqueued: bool,          // its call reached Enqueue successfully
    lastFailure: Option<Failure>)

  const NEW_HISTORY := History(0, 0, 0, 0, 0, 0, 0, false, false, None)

  datatype State = State(
    db: Db,
    calls: seq<Call>,
    intake: seq<Intake>,
    history: seq<History>,
    worker: Worker,
    watcher: Watcher,
    droppedUses: map<string, nat>,        // uses recorded on codes that were deleted since
    openInvites: set<string>)             // codes whose creating request is not over

  const INIT := State(Db([], [], map[]), [], [], [], Idle, Resting, map[], {})

  // ---- Steps ----

  datatype SendOutcome = SendOk(hash: Option<nat>) | SendError(accepted: bool)

  datatype Receipt = NotMined | Reverted | Mined(block: nat, gasUsed: nat)

  /** `ok` is false when the SQL statement errs; `now` and `created` are clock readings. */
  datatype Step =
    | Begin(request: Request)
    | Lookup(call: nat)
    | CheckCampaign(call: nat, now: nat, seen: CampaignReads)
    | Admit(call: nat, created: nat, windowNow: nat)
    | AbandonCall(call: nat)
    | Consume(id: nat, ok: bool)
    | Enqueue(id: nat, ok: bool, now: nat)
    | Reject(id: nat, ok: bool, now: nat)
    | AbandonIntake(id: nat)
    | Dequeue(picks: seq<nat>, now: nat)
    | Send(outcome: SendOutcome)
    | Ack(ok: bool, now: nat)
    | ReadRetryCount(ok: bool, now: nat)
    | WriteFail(ok: bool)
    | WorkerCrash
    | ListPending(picks: seq<nat>)
    | ReadHead(head: Option<nat>)
    | CheckReceipt(receipt: Receipt, ok: bool, now: nat)
    | ListStuck(picks: seq<nat>, now: nat)
    | Reconcile(ok: bool, now: nat)
    | WatcherCrash
    | OperatorRetry(id: nat, now: nat)
    | OperatorCancel(id: nat, now: nat)
    | OperatorInvite(code: string, campaignId: string, maxUses: nat, enabled: bool)
    | OperatorDropInvite(code: string)
    | SettleInvite(code: string)

  // ---- Bookkeeping around a store write ----

  predicate WellShaped(s: State) {
    |s.intake| == |s.db.requests| && |s.history| == |s.db.requests|
  }

  /** Makes `db` the new tables after a write to claim `id`, noting a move back into the budget. */
  function Write(s: State, id: nat, db: Db): State
    requires WellShaped(s) && id < |s.db.requests| == |db.requests|
  {
    var h := s.history[id];
    var revived := WrittenOff(s.db.requests[id].status) && !WrittenOff(db.requests[id].status);
    s.(db := db, history := s.history[id := h.(revived := h.revived + if revived then 1 else 0)])
  }

  function Note(s: State, id: nat, h: History): State
    requires WellShaped(s) && id < |s.db.requests|
  {
    s.(history := s.history[id := h])
  }

  function SetIntake(s: State, id: nat, intake: Intake): State
    requires WellShaped(s) && id < |s.db.requests|
  {
    s.(intake := s.intake[id := intake])
  }

  function SetCall(s: State, call: nat, state: CallState): State
    requires call < |s.calls|
  {
    s.(calls := s.calls[call := s.calls[call].(state := state)])
  }

  function Carry(todo: seq<nat>): Worker {
    if todo == [] then Idle else Batch(todo)
  }

  function CarryOn(w: Watcher): Watcher
    requires w.Receipts? && w.pending != []
  {
    if |w.pending| == 1 then BeforeStuck else w.(pending := w.pending[1..])
  }

  // ---- The service ----

  /** What the SQL reads of one enforceCampaign returned: the invitation code, the same code read
      again, and the campaign's counted amounts. They are read at different moments, so a step may
      carry any answers; the results about budgets and invitations rely on none of them. */
  datatype CampaignReads = CampaignReads(code: Option<InvitationCode>, again: Option<InvitationCode>, usedWei: nat)

  predicate Usable(code: Option<InvitationCode>) {
    code.Some? && code.value.enabled && (code.value.maxUses == 0 || code.value.uses < code.value.maxUses)
  }

  /** enforceCampaign: the campaign and invitation code a call will carry, or None to refuse. */
  function EnforceCampaign(cfg: Config, seen: CampaignReads, r: Request, now: nat): Option<(string, string)> {
    if r.campaignId == "" && r.invitationCode == "" then Some(("", ""))
    else if r.campaignId == "" && !Usable(seen.code) then None
    else
      var id := if r.campaignId == "" then seen.code.value.campaignId else r.campaignId;
      if id !in cfg.campaigns || !CampaignOpen(cfg.campaigns[id], r.tokenId, now) then None
      else
        var campaign := cfg.campaigns[id];
        var admitted :=
          match campaign.scope
          case PublicScope => true
          case AllowlistScope => (id, r.address) in cfg.allowlist
          case InviteScope => r.invitationCode != "" && Usable(seen.again) && seen.again.value.campaignId == id;
        if !admitted || (campaign.budgetWei > 0 && seen.usedWei + r.amountWei > campaign.budgetWei) then None
        else Some((id, if campaign.scope.InviteScope? then r.invitationCode else ""))
  }

  predicate CampaignOpen(c: Campaign, tokenId: string, now: nat) {
    && c.enabled
    && (c.startsAt.Some? ==> c.startsAt.value <= now)
    && (c.endsAt.Some? ==> now < c.endsAt.value)
    && (c.tokenId == "" || c.tokenId == tokenId)
  }

  function NewClaim(r: Request, campaignId: string, code: string, created: nat): Claim {
    Claim(r.address, r.tokenId, r.amountWei, Received, 0, None, campaignId, code, r.key, created, created)
  }

  function NextLookup(s: State, call: nat): State
    requires call < |s.calls|
  {
    var r := s.calls[call].request;
    var existing := if r.key == "" then None else FindKey(s.db.requests, r.key);
    SetCall(s, call, if existing.Some? then Replayed(existing.value) else LookedUp)
  }

  function NextCheck(cfg: Config, s: State, call: nat, now: nat, seen: CampaignReads): State
    requires call < |s.calls|
  {
    var d := EnforceCampaign(cfg, seen, s.calls[call].request, now);
    SetCall(s, call, if d.None? then Refused else Checked(d.value.0, d.value.1))
  }

  function CreateFor(cfg: Config, s: State, c: Claim, windowNow: nat): CreateResult {
    Create(s.db, c, DayStart(windowNow), DayStart(windowNow) + DAY,
           DailyBudget(cfg, c.tokenId), CampaignBudget(cfg, c.campaignId))
  }

  function NextAdmit(cfg: Config, s: State, call: nat, created: nat, windowNow: nat): State
    requires WellShaped(s) && call < |s.calls| && s.calls[call].state.Checked?
  {
    var state := s.calls[call].state;
    var c := NewClaim(s.calls[call].request, state.campaignId, state.code, created);
    match CreateFor(cfg, s, c, windowNow)
    case Existing(id) => SetCall(s, call, Replayed(id))
    case DailyBudgetExceeded => SetCall(s, call, Refused)
    case CampaignBudgetExceeded => SetCall(s, call, Refused)
    case Inserted(id) =>
      SetCall(s, call, Committed(id)).(
      db := AfterInsert(s.db, c),
      intake := s.intake + [if c.invitationCode == "" then AwaitEnqueue else AwaitConsume],
      history := s.history + [NEW_HISTORY])
  }

  function NextConsume(s: State, id: nat, ok: bool): State
    requires WellShaped(s) && id < |s.db.requests|
  {
    var code := s.db.requests[id].invitationCode;
    if ok && Consumable(s.db, code) then
      SetIntake(Note(s, id, s.history[id].(consumed := true)), id, AwaitEnqueue).(db := AfterConsume(s.db, code))
    else SetIntake(s, id, AwaitReject)
  }

  function NextEnqueue(s: State, id: nat, ok: bool, now: nat): State
    requires WellShaped(s) && id < |s.db.requests|
  {
    if ok then
      var s' := Write(s, id, WithStatus(s.db, id, Queued, now));
      SetIntake(Note(s', id, s'.history[id].(enqueued := true)), id, Settled)
    else SetIntake(s, id, AwaitReject)
  }

  function NextReject(s: State, id: nat, ok: bool, now: nat): State
    requires WellShaped(s) && id < |s.db.requests|
  {
    SetIntake(if ok then Write(s, id, WithStatus(s.db, id, Rejected, now)) else s, id, Settled)
  }

  // ---- The worker ----

  function DequeueNote(s: State, picks: seq<nat>, now: nat, i: nat): History
    requires WellShaped(s) && i < |s.history|
  {
    var h := s.history[i];
    if i in picks then h.(dequeues := h.dequeues + 1)
    else if Ready(s.db.requests[i], now) then h.(passedOver := h.passedOver + 1)
    else h
  }

  function NextDequeue(cfg: Config, s: State, picks: seq<nat>, now: nat): State
    requires WellShaped(s)
  {
    if cfg.batchSize <= 0 then s
    else s.(db := AfterDequeue(s.db, picks, now),
            history := seq(|s.history|, i requires 0 <= i < |s.history| => DequeueNote(s, picks, now, i)),
            worker := Carry(picks))
  }

  function NextSend(s: State, outcome: SendOutcome): State
    requires WellShaped(s) && s.worker.Batch? && s.worker.todo != [] && s.worker.todo[0] < |s.db.requests|
  {
    var id := s.worker.todo[0];
    var h := s.history[id];
    match outcome
    case SendOk(hash) => Note(s, id, h.(sends := h.sends + 1)).(worker := Acking(id, hash, s.worker.todo[1..]))
    case SendError(accepted) =>
      Note(s, id, h.(ambiguous := h.ambiguous + if accepted then 1 else 0)).(worker := Failing(id, s.worker.todo[1..]))
  }

  function NextAck(s: State, ok: bool, now: nat): State
    requires WellShaped(s) && s.worker.Acking?
  {
    var w := s.worker;
    (if ok && AckAllowed(s.db, w.id, w.hash) then Write(s, w.id, AfterAck(s.db, w.id, w.hash, now)) else s)
    .(worker := Carry(w.todo))
  }

  function NextReadRetryCount(s: State, ok: bool, now: nat): State
    requires s.worker.Failing?
  {
    var w := s.worker;
    if ok && w.id < |s.db.requests| then
      s.(worker := FailRead(w.id, s.db.requests[w.id].retryCount + 1, now, w.todo))
    else s.(worker := Carry(w.todo))
  }

  function NextWriteFail(cfg: Config, s: State, ok: bool): State
    requires WellShaped(s) && s.worker.FailRead?
  {
    var w := s.worker;
    if ok && w.id < |s.db.requests| then
      var s' := Write(s, w.id, AfterFail(s.db, w.id, w.count, w.at, cfg.maxRetries));
      var h := s'.history[w.id];
      (if w.count >= cfg.maxRetries then s'
       else Note(s', w.id, h.(requeues := h.requeues + 1, lastFailure := Some(Failure(w.at, w.count)))))
      .(worker := Carry(w.todo))
    else s.(worker := Carry(w.todo))
  }

  // ---- The watcher ----

  /** currentBlock < txBlock + MinConfirmations on 64-bit unsigned integers. */
  predicate EnoughConfirmations(cfg: Config, head: nat, block: nat) {
    head >= (block + cfg.minConfirmations) % UINT64
  }

  function NextCheckReceipt(cfg: Config, s: State, receipt: Receipt, ok: bool, now: nat): State
    requires WellShaped(s) && s.watcher.Receipts? && s.watcher.pending != []
    requires s.watcher.pending[0] < |s.db.transactions|
  {
    var id := s.db.transactions[s.watcher.pending[0]].claimId;
    var done := s.(watcher := CarryOn(s.watcher));
    if !ok || id >= |s.db.requests| then done
    else
      match receipt
      case NotMined => done
      case Reverted => Write(done, id, AfterFailTransaction(s.db, id, now))
      case Mined(block, gasUsed) =>
        if EnoughConfirmations(cfg, s.watcher.head, block) && s.db.requests[id].status == Sent
        then Write(done, id, AfterConfirm(s.db, id, block, gasUsed, now))
        else done
  }

  function NextReconcile(s: State, ok: bool, now: nat): State
    requires WellShaped(s) && s.watcher.Reconciling? && s.watcher.stuck != []
  {
    var id := s.watcher.stuck[0];
    (if ok && id < |s.db.requests| then Write(s, id, AfterFailTransaction(s.db, id, now)) else s)
    .(watcher := if |s.watcher.stuck| == 1 then Resting else Reconciling(s.watcher.stuck[1..]))
  }

  // ---- The operator ----

  function NextRetry(s: State, id: nat, now: nat): State
    requires WellShaped(s) && id < |s.db.requests|
  {
    var s' := Write(s, id, AfterOperatorWrite(s.db, id, Queued, now));
    Note(s', id, s'.history[id].(retries := s'.history[id].retries + 1))
  }

  function NextCancel(s: State, id: nat, now: nat): State
    requires WellShaped(s) && id < |s.db.requests|
  {
    Write(s, id, AfterOperatorWrite(s.db, id, Rejected, now))
  }

  function Dropped(s: State, code: string): nat {
    if code in s.droppedUses then s.droppedUses[code] else 0
  }

  function NextInvite(s: State, code: string, invite: InvitationCode): State {
    s.(db := s.db.(invitations := s.db.invitations[code := invite]), openInvites := s.openInvites + {code})
  }

  /** The rollback of a creation that could not be audited. Only the request that created the code
      deletes it, so a code outlives its creating request forever. */
  function NextDropInvite(s: State, code: string): State
    requires code in s.db.invitations
  {
    s.(db := s.db.(invitations := s.db.invitations - {code}), openInvites := s.openInvites - {code},
       droppedUses := s.droppedUses[code := Dropped(s, code) + s.db.invitations[code].uses])
  }

  // ---- The whole system ----

  /** Whether a step can be taken at all; a step that cannot leaves the state alone. */
  predicate Enabled(cfg: Config, s: State, step: Step) {
    WellShaped(s) &&
    match step
    case Begin(_) => true
    case Lookup(k) => k < |s.calls| && s.calls[k].state == Fresh
    case CheckCampaign(k, _, _) => k < |s.calls| && s.calls[k].state == LookedUp
    case Admit(k, _, _) => k < |s.calls| && s.calls[k].state.Checked?
    case AbandonCall(k) => k < |s.calls| && (s.calls[k].state in {Fresh, LookedUp} || s.calls[k].state.Checked?)
    case Consume(id, _) => id < |s.intake| && s.intake[id] == AwaitConsume
    case Enqueue(id, _, _) => id < |s.intake| && s.intake[id] == AwaitEnqueue
    case Reject(id, _, _) => id < |s.intake| && s.intake[id] == AwaitReject
    case AbandonIntake(id) => id < |s.intake|
    case Dequeue(picks, now) => s.worker.Idle? && IsBatch(s.db.requests, now, cfg.batchSize, picks)
    case Send(_) => s.worker.Batch? && s.worker.todo != [] && s.worker.todo[0] < |s.db.requests|
    case Ack(_, _) => s.worker.Acking?
    case ReadRetryCount(_, _) => s.worker.Failing?
    case WriteFail(_) => s.worker.FailRead?
    case WorkerCrash => true
    case ListPending(picks) => s.watcher.Resting? && IsPendingList(s.db, cfg.watcherBatch, picks)
    case ReadHead(_) => s.watcher.Listed?
    case CheckReceipt(_, _, _) =>
      s.watcher.Receipts? && s.watcher.pending != [] && s.watcher.pending[0] < |s.db.transactions|
    case ListStuck(picks, now) =>
      s.watcher.BeforeStuck? && cfg.stuckAfter <= now
      && IsStuckList(s.db.requests, now - cfg.stuckAfter, cfg.watcherBatch, picks)
    case Reconcile(_, _) => s.watcher.Reconciling? && s.watcher.stuck != []
    case WatcherCrash => true
    case OperatorRetry(id, _) => id < |s.db.requests| && Retryable(s.db.requests[id].status)
    case OperatorCancel(id, _) => id < |s.db.requests| && Cancellable(s.db.requests[id].status)
    case OperatorInvite(code, _, _, _) => code !in s.db.invitations
    case OperatorDropInvite(code) => code in s.db.invitations && code in s.openInvites
    case SettleInvite(code) => code in s.openInvites
  }

  function Take(cfg: Config, s: State, step: Step): State
    requires Enabled(cfg, s, step)
  {
    match step
    case Begin(request) => s.(calls := s.calls + [Call(request, Fresh)])
    case Lookup(k) => NextLookup(s, k)
    case CheckCampaign(k, now, seen) => NextCheck(cfg, s, k, now, seen)
    case Admit(k, created, windowNow) => NextAdmit(cfg, s, k, created, windowNow)
    case AbandonCall(k) => SetCall(s, k, Refused)
    case Consume(id, ok) => NextConsume(s, id, ok)
    case Enqueue(id, ok, now) => NextEnqueue(s, id, ok, now)
    case Reject(id, ok, now) => NextReject(s, id, ok, now)
    case AbandonIntake(id) => SetIntake(s, id, Settled)
    case Dequeue(picks, now) => NextDequeue(cfg, s, picks, now)
    case Send(outcome) => NextSend(s, outcome)
    case Ack(ok, now) => NextAck(s, ok, now)
    case ReadRetryCount(ok, now) => NextReadRetryCount(s, ok, now)
    case WriteFail(ok) => NextWriteFail(cfg, s, ok)
    case WorkerCrash => s.(worker := Idle)
    case ListPending(picks) => s.(watcher := if picks == [] then BeforeStuck else Listed(picks))
    case ReadHead(head) => s.(watcher := if head.None? then BeforeStuck else Receipts(head.value, s.watcher.pending))
    case CheckReceipt(receipt, ok, now) => NextCheckReceipt(cfg, s, receipt, ok, now)
    case ListStuck(picks, _) => s.(watcher := if picks == [] then Resting else Reconciling(picks))
    case Reconcile(ok, now) => NextReconcile(s, ok, now)
    case WatcherCrash => s.(watcher := Resting)
    case OperatorRetry(id, now) => NextRetry(s, id, now)
    case OperatorCancel(id, now) => NextCancel(s, id, now)
    case OperatorInvite(code, campaignId, maxUses, enabled) =>
      NextInvite(s, code, InvitationCode(campaignId, maxUses, 0, enabled))
    case OperatorDropInvite(code) => NextDropInvite(s, code)
    case SettleInvite(code) => s.(openInvites := s.openInvites - {code})
  }

  function Next(cfg: Config, s: State, step: Step): State {
    if Enabled(cfg, s, step) then Take(cfg, s, step) else s
  }

  /** The state after a run of steps, from any state. */
  function RunFrom(cfg: Config, s: State, steps: seq<Step>): State {
    if steps == [] then s else Next(cfg, RunFrom(cfg, s, steps[..|steps| - 1]), steps[|steps| - 1])
  }

  function Run(cfg: Config, steps: seq<Step>): State {
    RunFrom(cfg, INIT, steps)
  }
}
