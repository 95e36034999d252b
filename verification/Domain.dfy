/** The persisted records of the faucet (domain models). A claim's id is its position in the
    requests table: rows are only ever appended, so ids are fresh and never reused. */
module Domain {

  datatype Option<+T> = None | Some(value: T)

  datatype ClaimStatus =
    | Received | Validated | Queued | Sending | Sent | Confirmed | Failed | Rejected | Paused

  /** The statuses whose amounts count against daily and campaign budgets. */
  predicate CountsForBudget(status: ClaimStatus) {
    status in {Received, Validated, Queued, Sending, Sent, Confirmed}
  }

  /** The statuses of a claim that will not be paid as things stand. */
  predicate WrittenOff(status: ClaimStatus) {
    status == Failed || status == Rejected || status == Paused
  }

  datatype Claim = Claim(
    address: string,
    tokenId: string,
    amountWei: nat,
    status: ClaimStatus,
    retryCount: nat,
    nextAttemptAt: Option<nat>,
    campaignId: string,
    invitationCode: string,
    idempotencyKey: string,
    createdAt: nat,
    updatedAt: nat)

  /** One row of the transactions table; `hash` is never the zero hash. */
  datatype Transaction = Transaction(claimId: nat, hash: nat, status: ClaimStatus, blockNumber: nat, gasUsed: nat)

  datatype InvitationCode = InvitationCode(campaignId: string, maxUses: nat, uses: nat, enabled: bool)

  datatype CampaignScope = PublicScope | InviteScope | AllowlistScope

  datatype Campaign = Campaign(
    tokenId: string,
    scope: CampaignScope,
    budgetWei: nat,
    enabled: bool,
    startsAt: Option<nat>,
    endsAt: Option<nat>)

  datatype Db = Db(requests: seq<Claim>, transactions: seq<Transaction>, invitations: map<string, InvitationCode>)
}
