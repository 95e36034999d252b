/** The SQLite store: the claim, transaction and invitation tables and the operations that
    update them in place, each proved against its function in StoreSpec. Rows that a SELECT
    returned are parameters; `ok` is false when the driver reports an error. */
module StoreClass {
  import opened Domain
  import opened Text
  import opened TimeText
  import opened StoreSpec

  lemma NothingDequeued(db: Db, now: nat)
    ensures AfterDequeue(db, [], now) == db
  {
    assert AfterDequeue(db, [], now).requests == db.requests;
  }

  lemma BatchInRange(rows: seq<Claim>, now: nat, n: int, picks: seq<nat>)
    requires IsBatch(rows, now, n, picks)
    ensures Distinct(picks) && forall k :: 0 <= k < |picks| ==> picks[k] < |rows|
  {
  }

  /** Marking the next selected claim. */
  lemma DequeueOne(db: Db, selected: seq<nat>, k: nat, now: nat)
    requires k < |selected| && Distinct(selected) && selected[k] < |db.requests|
    ensures var db' := AfterDequeue(db, selected[..k], now);
            && |db'.requests| == |db.requests|
            && PutClaim(db', selected[k], db'.requests[selected[k]].(status := Sending, updatedAt := now))
               == AfterDequeue(db, selected[..k + 1], now)
  {
    var rows, id := AfterDequeue(db, selected[..k], now).requests, selected[k];
    assert selected[..k + 1] == selected[..k] + [id];
    assert id !in selected[..k];
    assert rows[id := rows[id].(status := Sending, updatedAt := now)] == AfterDequeue(db, selected[..k + 1], now).requests;
  }

  class Store {
    var requests: seq<Claim>
    var transactions: seq<Transaction>
    var invitations: map<string, InvitationCode>

    function Tables(): Db
      reads this
    {
      Db(requests, transactions, invitations)
    }

    constructor ()
      ensures Tables() == Db([], [], map[])
    {
      requests, transactions, invitations := [], [], map[];
    }

    // ---- QueueStore ----

    method Enqueue(id: nat, now: nat) returns (found: bool)
      modifies this
      ensures found == (id < |old(requests)|)
      ensures Tables() == if found then WithStatus(old(Tables()), id, Queued, now) else old(Tables())
    {
      found := id < |requests|;
      if found {
        requests := requests[id := requests[id].(status := Queued, updatedAt := now)];
      }
    }

    method UpdateClaimStatus(id: nat, status: ClaimStatus, now: nat) returns (found: bool)
      modifies this
      ensures found == (id < |old(requests)|)
      ensures Tables() == if found then WithStatus(old(Tables()), id, status, now) else old(Tables())
    {
      found := id < |requests|;
      if found {
        requests := requests[id := requests[id].(status := status, updatedAt := now)];
      }
    }

    /** Marks the selected claims one by one, in one SQL transaction. */
    method DequeueBatch(n: int, selected: seq<nat>, now: nat) returns (claims: seq<nat>)
      requires n > 0 ==> IsBatch(requests, now, n, selected)
      modifies this
      ensures claims == if n > 0 then selected else []
      ensures Tables() == if n > 0 then AfterDequeue(old(Tables()), selected, now) else old(Tables())
    {
      hide AfterDequeue, IsBatch;
      claims := [];
      if n <= 0 {
        return;
      }
      ghost var db := Tables();
      BatchInRange(requests, now, n, selected);
      NothingDequeued(db, now);
      for k := 0 to |selected|
        invariant claims == selected[..k]
        invariant Tables() == AfterDequeue(db, selected[..k], now)
      {
        DequeueOne(db, selected, k, now);
        var id := selected[k];
        requests := requests[id := requests[id].(status := Sending, updatedAt := now)];
        claims := claims + [id];
      }
      assert selected[..|selected|] == selected;
    }

    method Ack(id: nat, hash: Option<nat>, now: nat) returns (acked: bool)
      modifies this
      ensures acked == old(AckAllowed(Tables(), id, hash))
      ensures Tables() == if acked then AfterAck(old(Tables()), id, hash, now) else old(Tables())
    {
      acked := AckAllowed(Tables(), id, hash);
      if acked {
        requests := requests[id := requests[id].(status := Sent, updatedAt := now)];
        if hash.Some? {
          transactions := transactions + [Transaction(id, hash.value, Sent, 0, 0)];
        }
      }
    }

    /** A read of the retry count, then a write that does not look at the status again; either
        statement may err. */
    method Fail(id: nat, now: nat, maxRetries: int, readOk: bool, writeOk: bool) returns (ok: bool)
      modifies this
      ensures ok == (id < |old(requests)| && readOk && writeOk)
      ensures Tables() == if ok then AfterFail(old(Tables()), id, old(requests)[id].retryCount + 1, now, maxRetries)
                          else old(Tables())
    {
      if id >= |requests| || !readOk {
        return false;
      }
      var count := requests[id].retryCount + 1;
      if !writeOk {
        return false;
      }
      var c := requests[id].(retryCount := count, updatedAt := now);
      if count >= maxRetries {
        requests := requests[id := c.(status := Failed)];
      } else {
        requests := requests[id := c.(status := Queued, nextAttemptAt := Some(now + count * BACKOFF))];
      }
      return true;
    }

    // ---- WatcherStore ----

    method ConfirmTransaction(id: nat, blockNumber: nat, gasUsed: nat, now: nat) returns (confirmed: bool)
      modifies this
      ensures confirmed == (id < |old(requests)| && old(requests)[id].status == Sent)
      ensures Tables() == if confirmed then AfterConfirm(old(Tables()), id, blockNumber, gasUsed, now) else old(Tables())
    {
      confirmed := id < |requests| && requests[id].status == Sent;
      if confirmed {
        requests := requests[id := requests[id].(status := Confirmed, updatedAt := now)];
        transactions := MarkTransactions(transactions, id,
          (t: Transaction) => t.(status := Confirmed, blockNumber := blockNumber, gasUsed := gasUsed));
      }
    }

    /** A claim that does not exist is no error here. */
    method FailTransaction(id: nat, now: nat)
      modifies this
      ensures Tables() == if id < |old(requests)| then AfterFailTransaction(old(Tables()), id, now)
                          else old(Tables()).(transactions := MarkTransactions(old(transactions), id,
                                                (t: Transaction) => t.(status := Failed)))
    {
      if id < |requests| {
        requests := requests[id := requests[id].(status := Failed, updatedAt := now)];
      }
      transactions := MarkTransactions(transactions, id, (t: Transaction) => t.(status := Failed));
    }

    // ---- Operator ----

    method AdminRetryClaim(id: nat, now: nat) returns (updated: bool)
      modifies this
      ensures updated == (id < |old(requests)| && Retryable(old(requests)[id].status))
      ensures Tables() == if updated then AfterOperatorWrite(old(Tables()), id, Queued, now) else old(Tables())
    {
      updated := id < |requests| && Retryable(requests[id].status);
      if updated {
        requests := requests[id := requests[id].(status := Queued, nextAttemptAt := None, updatedAt := now)];
      }
    }

    method AdminCancelClaim(id: nat, now: nat) returns (updated: bool)
      modifies this
      ensures updated == (id < |old(requests)| && Cancellable(old(requests)[id].status))
      ensures Tables() == if updated then AfterOperatorWrite(old(Tables()), id, Rejected, now) else old(Tables())
    {
      updated := id < |requests| && Cancellable(requests[id].status);
      if updated {
        requests := requests[id := requests[id].(status := Rejected, nextAttemptAt := None, updatedAt := now)];
      }
    }

    // ---- Admission ----

    method ConsumeInvitationCode(code: string) returns (consumed: bool)
      modifies this
      ensures consumed == old(Consumable(Tables(), code))
      ensures Tables() == if consumed then AfterConsume(old(Tables()), code) else old(Tables())
    {
      consumed := Consumable(Tables(), code);
      if consumed {
        var invite := invitations[code];
        invitations := invitations[code := invite.(uses := invite.uses + 1)];
      }
    }

    /** The row loop of claimAmountWeiForToken. */
    method ClaimAmountWeiForToken(tokenId: string, start: nat, end: nat) returns (total: int)
      ensures total == TokenTotal(requests, tokenId, start, end)
    {
      hide InTextWindow;
      total := 0;
      ghost var column := TokenColumn(requests, tokenId, start, end);
      for i := 0 to |requests|
        invariant total == Sum(column[..i])
      {
        assert column[..i + 1] == column[..i] + [column[i]];
        SumAppend(column[..i], column[i]);
        if InTextWindow(requests[i].createdAt, start, end)
           && (tokenId == "" || requests[i].tokenId == tokenId) && CountsForBudget(requests[i].status)
        {
          total := total + requests[i].amountWei;
        }
      }
      assert column[..|requests|] == column;
    }

    method ClaimAmountWeiForCampaign(campaignId: string) returns (total: int)
      ensures total == CampaignTotal(requests, campaignId)
    {
      total := 0;
      ghost var column := CampaignColumn(requests, campaignId);
      for i := 0 to |requests|
        invariant total == Sum(column[..i])
      {
        assert column[..i + 1] == column[..i] + [column[i]];
        SumAppend(column[..i], column[i]);
        if requests[i].campaignId == campaignId && CountsForBudget(requests[i].status) {
          total := total + requests[i].amountWei;
        }
      }
      assert column[..|requests|] == column;
    }

    /** One immediate transaction: idempotency lookup, both budget checks, insert. */
    method CreateClaimWithIdempotencyAndBudgets(
      c: Claim, start: nat, end: nat, dailyBudget: nat, campaignBudget: nat) returns (result: CreateResult)
      modifies this
      ensures result == Create(old(Tables()), c, start, end, dailyBudget, campaignBudget)
      ensures Tables() == if result.Inserted? then AfterInsert(old(Tables()), c) else old(Tables())
    {
      hide InTextWindow, TokenTotal, CampaignTotal;
      if c.idempotencyKey != "" {
        var existing := FindKey(requests, c.idempotencyKey);
        if existing.Some? {
          return Existing(existing.value);
        }
      }
      if dailyBudget > 0 {
        var used := ClaimAmountWeiForToken(c.tokenId, start, end);
        if used + c.amountWei > dailyBudget {
          return DailyBudgetExceeded;
        }
      }
      if c.campaignId != "" && campaignBudget > 0 {
        var used := ClaimAmountWeiForCampaign(c.campaignId);
        if used + c.amountWei > campaignBudget {
          return CampaignBudgetExceeded;
        }
      }
      result := Inserted(|requests|);
      requests := requests + [c];
    }
  }
}
