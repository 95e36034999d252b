/** What each store operation does to the tables, one function per SQL statement or SQL
    transaction. The Store class is proved against these, and the claim system steps by them. */
module StoreSpec {
  import opened Domain
  import opened Text
  import opened TimeText

  function PutClaim(db: Db, id: nat, c: Claim): Db
    requires id < |db.requests|
  {
    db.(requests := db.requests[id := c])
  }

  /** An unguarded status write: Enqueue and UpdateClaimStatus. */
  function WithStatus(db: Db, id: nat, status: ClaimStatus, now: nat): Db
    requires id < |db.requests|
  {
    PutClaim(db, id, db.requests[id].(status := status, updatedAt := now))
  }

  // ---- Queue ----

  /** How SQL compares two stored timestamps: as text. */
  predicate StampedNotAfter(a: nat, b: nat) {
    TextLeq(FormatTime(a), FormatTime(b))
  }

  predicate Ready(c: Claim, now: nat) {
    c.status == Queued && (c.nextAttemptAt == None || StampedNotAfter(c.nextAttemptAt.value, now))
  }

  /** The stored created_at of `a` sorts not after that of `b`. */
  predicate CreatedNotAfter(a: Claim, b: Claim) {
    StampedNotAfter(a.createdAt, b.createdAt)
  }

  predicate AllReady(rows: seq<Claim>, now: nat, picks: seq<nat>) {
    forall k :: 0 <= k < |picks| ==> picks[k] < |rows| && Ready(rows[picks[k]], now)
  }

  /** SELECT ... WHERE ready ORDER BY created_at ASC LIMIT n: any result SQL may return. */
  predicate IsBatch(rows: seq<Claim>, now: nat, n: int, picks: seq<nat>) {
    && Distinct(picks)
    && AllReady(rows, now, picks)
    && (|picks| == 0 || |picks| <= n)
    && (forall a, b :: 0 <= a < b < |picks| ==> CreatedNotAfter(rows[picks[a]], rows[picks[b]]))
    && (forall i :: 0 <= i < |rows| && i !in picks && Ready(rows[i], now) ==>
          |picks| >= n && forall k :: 0 <= k < |picks| ==> CreatedNotAfter(rows[picks[k]], rows[i]))
  }

  function AfterDequeue(db: Db, picks: seq<nat>, now: nat): Db {
    db.(requests := seq(|db.requests|, i requires 0 <= i < |db.requests| =>
      if i in picks then db.requests[i].(status := Sending, updatedAt := now) else db.requests[i]))
  }

  predicate HashKnown(txs: seq<Transaction>, hash: nat) {
    exists t :: 0 <= t < |txs| && txs[t].hash == hash
  }

  /** Ack succeeds only from 'sending' and only with a transaction hash not stored yet. */
  predicate AckAllowed(db: Db, id: nat, hash: Option<nat>) {
    id < |db.requests| && db.requests[id].status == Sending && (hash.Some? ==> !HashKnown(db.transactions, hash.value))
  }

  /** `hash` is None for the zero hash of a dry run, which stores no transaction row. */
  function AfterAck(db: Db, id: nat, hash: Option<nat>, now: nat): Db
    requires AckAllowed(db, id, hash)
  {
    var db' := WithStatus(db, id, Sent, now);
    if hash.None? then db' else db'.(transactions := db.transactions + [Transaction(id, hash.value, Sent, 0, 0)])
  }

  const BACKOFF: nat := 30 * SECOND

  /** The write half of Fail: dead-letter at `maxRetries`, otherwise re-queue with linear backoff. */
  function AfterFail(db: Db, id: nat, count: nat, at: nat, maxRetries: int): Db
    requires id < |db.requests|
  {
    var c := db.requests[id].(retryCount := count, updatedAt := at);
    if count >= maxRetries then PutClaim(db, id, c.(status := Failed))
    else PutClaim(db, id, c.(status := Queued, nextAttemptAt := Some(at + count * BACKOFF)))
  }

  // ---- Watcher ----

  /** SELECT ... WHERE status = 'sent' LIMIT n, without an order: any result SQL may return. */
  predicate IsPendingList(db: Db, limit: int, picks: seq<nat>) {
    && Distinct(picks)
    && (|picks| == 0 || |picks| <= limit)
    && (forall k :: 0 <= k < |picks| ==> picks[k] < |db.transactions| && Pending(db, picks[k]))
    && (forall t :: 0 <= t < |db.transactions| && t !in picks && Pending(db, t) ==> |picks| >= limit)
  }

  predicate Pending(db: Db, t: nat)
    requires t < |db.transactions|
  {
    var id := db.transactions[t].claimId;
    id < |db.requests| && db.requests[id].status == Sent
  }

  predicate Stuck(c: Claim, cutoff: nat) {
    c.status == Sending && StampedNotAfter(c.updatedAt, cutoff)
  }

  /** SELECT ... WHERE stuck ORDER BY updated_at ASC LIMIT n: any result SQL may return. */
  predicate IsStuckList(rows: seq<Claim>, cutoff: nat, limit: int, picks: seq<nat>) {
    && Distinct(picks)
    && (|picks| == 0 || |picks| <= limit)
    && (forall k :: 0 <= k < |picks| ==> picks[k] < |rows| && Stuck(rows[picks[k]], cutoff))
    && (forall a, b :: 0 <= a < b < |picks| ==> StampedNotAfter(rows[picks[a]].updatedAt, rows[picks[b]].updatedAt))
    && (forall i :: 0 <= i < |rows| && i !in picks && Stuck(rows[i], cutoff) ==>
          |picks| >= limit && forall k :: 0 <= k < |picks| ==> StampedNotAfter(rows[picks[k]].updatedAt, rows[i].updatedAt))
  }

  /** UPDATE transactions ... WHERE request_id = id. */
  function MarkTransactions(txs: seq<Transaction>, id: nat, f: Transaction -> Transaction): seq<Transaction> {
    seq(|txs|, t requires 0 <= t < |txs| => if txs[t].claimId == id then f(txs[t]) else txs[t])
  }

  function AfterConfirm(db: Db, id: nat, blockNumber: nat, gasUsed: nat, now: nat): Db
    requires id < |db.requests| && db.requests[id].status == Sent
  {
    WithStatus(db, id, Confirmed, now).(transactions := MarkTransactions(db.transactions, id,
      (t: Transaction) => t.(status := Confirmed, blockNumber := blockNumber, gasUsed := gasUsed)))
  }

  /** No status guard: whatever the claim is, it becomes failed. */
  function AfterFailTransaction(db: Db, id: nat, now: nat): Db
    requires id < |db.requests|
  {
    WithStatus(db, id, Failed, now).(transactions := MarkTransactions(db.transactions, id,
      (t: Transaction) => t.(status := Failed)))
  }

  // ---- Operator ----

  predicate Retryable(status: ClaimStatus) {
    status == Failed || status == Rejected
  }

  predicate Cancellable(status: ClaimStatus) {
    status !in {Sent, Confirmed, Sending}
  }

  function AfterOperatorWrite(db: Db, id: nat, status: ClaimStatus, now: nat): Db
    requires id < |db.requests|
  {
    PutClaim(db, id, db.requests[id].(status := status, nextAttemptAt := None, updatedAt := now))
  }

  // ---- Invitations ----

  predicate Consumable(db: Db, code: string) {
    && code in db.invitations
    && db.invitations[code].enabled
    && (db.invitations[code].maxUses == 0 || db.invitations[code].uses < db.invitations[code].maxUses)
  }

  function AfterConsume(db: Db, code: string): Db
    requires code in db.invitations
  {
    var invite := db.invitations[code];
    db.(invitations := db.invitations[code := invite.(uses := invite.uses + 1)])
  }

  // ---- Budgets ----

  predicate DatesInRange(rows: seq<Claim>) {
    forall i :: 0 <= i < |rows| ==> InRange(rows[i].createdAt)
  }

  /** What one row adds to SELECT amount_wei ... WHERE created_at in [start, end) AND token AND status. */
  function TokenAmount(c: Claim, tokenId: string, start: nat, end: nat): nat {
    if && InTextWindow(c.createdAt, start, end)
       && (tokenId == "" || c.tokenId == tokenId)
       && CountsForBudget(c.status)
    then c.amountWei else 0
  }

  function TokenColumn(rows: seq<Claim>, tokenId: string, start: nat, end: nat): seq<int> {
    seq(|rows|, i requires 0 <= i < |rows| => TokenAmount(rows[i], tokenId, start, end))
  }

  function TokenTotal(rows: seq<Claim>, tokenId: string, start: nat, end: nat): int {
    Sum(TokenColumn(rows, tokenId, start, end))
  }

  function CampaignAmount(c: Claim, campaignId: string): nat {
    if c.campaignId == campaignId && CountsForBudget(c.status) then c.amountWei else 0
  }

  function CampaignColumn(rows: seq<Claim>, campaignId: string): seq<int> {
    seq(|rows|, i requires 0 <= i < |rows| => CampaignAmount(rows[i], campaignId))
  }

  function CampaignTotal(rows: seq<Claim>, campaignId: string): int {
    Sum(CampaignColumn(rows, campaignId))
  }

  // ---- Claim creation ----

  /** The row carrying a non-empty idempotency key, if any. */
  function FindKey(rows: seq<Claim>, key: string): (r: Option<nat>)
    ensures r.Some? ==> r.value < |rows| && rows[r.value].idempotencyKey == key
    ensures r.None? ==> forall i :: 0 <= i < |rows| ==> rows[i].idempotencyKey != key
  {
    if rows == [] then None
    else if rows[|rows| - 1].idempotencyKey == key then Some(|rows| - 1)
    else FindKey(rows[..|rows| - 1], key)
  }

  datatype CreateResult = Existing(id: nat) | DailyBudgetExceeded | CampaignBudgetExceeded | Inserted(id: nat)

  /** CreateClaimWithIdempotencyAndBudgets; a budget of 0 means none is configured. */
  function Create(db: Db, c: Claim, start: nat, end: nat, dailyBudget: nat, campaignBudget: nat): CreateResult {
    var existing := if c.idempotencyKey == "" then None else FindKey(db.requests, c.idempotencyKey);
    if existing.Some? then Existing(existing.value)
    else if dailyBudget > 0 && TokenTotal(db.requests, c.tokenId, start, end) + c.amountWei > dailyBudget then
      DailyBudgetExceeded
    else if c.campaignId != "" && campaignBudget > 0
            && CampaignTotal(db.requests, c.campaignId) + c.amountWei > campaignBudget then
      CampaignBudgetExceeded
    else Inserted(|db.requests|)
  }

  function AfterInsert(db: Db, c: Claim): Db {
    db.(requests := db.requests + [c])
  }
}
