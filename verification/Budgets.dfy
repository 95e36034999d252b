/** Budget conservation: what the counted amounts of a token and UTC day, or of a campaign, can
    ever reach. */
module Budgets {
  import opened Domain
  import opened Text
  import opened TimeText
  import opened StoreSpec
  import opened ClaimSystem
  import opened Lifecycle
  import opened Stability
  import opened Payouts
  import opened Witnesses

  // ---- The SQL window sum is the chronological sum ----

  predicate InDay(c: Claim, tokenId: string, day: nat) {
    (tokenId == "" || c.tokenId == tokenId) && DayOf(c.createdAt) == day
  }

  /** Budgets count every claim that is not written off. */
  lemma CountsExactly(status: ClaimStatus)
    ensures CountsForBudget(status) <==> !WrittenOff(status)
  {
  }

  /** The amounts of the claims of one token created on one UTC day, without those written off. */
  function DayColumn(rows: seq<Claim>, tokenId: string, day: nat): seq<int> {
    seq(|rows|, i requires 0 <= i < |rows| =>
      if InDay(rows[i], tokenId, day) && !WrittenOff(rows[i].status) then rows[i].amountWei else 0)
  }

  function DayTotal(rows: seq<Claim>, tokenId: string, day: nat): int {
    Sum(DayColumn(rows, tokenId, day))
  }

  /** Comparing text selects exactly the claims of the UTC day, so the SQL total is the
      chronological one. */
  lemma SqlTotalIsChronological(rows: seq<Claim>, tokenId: string, now: nat)
    requires DatesInRange(rows) && WindowInRange(now)
    ensures TokenTotal(rows, tokenId, DayStart(now), DayStart(now) + DAY) == DayTotal(rows, tokenId, DayOf(now))
  {
    hide InTextWindow, DayStart, DayOf;
    var start, end := DayStart(now), DayStart(now) + DAY;
    var sql := TokenColumn(rows, tokenId, start, end);
    forall i | 0 <= i < |rows| ensures sql[i] == DayColumn(rows, tokenId, DayOf(now))[i] {
      TextWindowIsDay(rows[i].createdAt, now);
      CountsExactly(rows[i].status);
    }
    assert sql == DayColumn(rows, tokenId, DayOf(now));
  }

  /** inMemoryBudgetStatus: what a token has used of its budget today and what is left. */
  method InMemoryBudgetStatus(rows: seq<Claim>, tokenId: string, budget: nat, now: nat)
    returns (used: int, remaining: int)
    ensures used == DayTotal(rows, tokenId, DayOf(now))
    ensures remaining == if used < budget then budget - used else 0
  {
    var start, end := DayStart(now), DayStart(now) + DAY;
    used := 0;
    ghost var column := DayColumn(rows, tokenId, DayOf(now));
    for i := 0 to |rows|
      invariant used == Sum(column[..i])
    {
      DayWindow(now, rows[i].createdAt);
      CountsExactly(rows[i].status);
      assert column[..i + 1] == column[..i] + [column[i]];
      SumAppend(column[..i], column[i]);
      if (tokenId == "" || rows[i].tokenId == tokenId) && start <= rows[i].createdAt < end
         && CountsForBudget(rows[i].status)
      {
        used := used + rows[i].amountWei;
      }
    }
    assert column[..|rows|] == column;
    remaining := if budget - used < 0 then 0 else budget - used;
  }

  // ---- Net charges ----

  /** Which claims a budget covers, and what each one's charge is net of its revivals. */
  function NetColumn(rows: seq<Claim>, hs: seq<History>, covered: Claim -> bool): seq<int>
    requires |rows| == |hs|
  {
    seq(|rows|, i requires 0 <= i < |rows| => if covered(rows[i]) then Net(rows[i], hs[i]) * rows[i].amountWei else 0)
  }

  function CountedColumn(rows: seq<Claim>, covered: Claim -> bool): seq<int> {
    seq(|rows|, i requires 0 <= i < |rows| =>
      if covered(rows[i]) && !WrittenOff(rows[i].status) then rows[i].amountWei else 0)
  }

  /** What was moved back from 'failed', 'rejected' or 'paused'. */
  function RevivedColumn(rows: seq<Claim>, hs: seq<History>, covered: Claim -> bool): seq<int>
    requires |rows| == |hs|
  {
    seq(|rows|, i requires 0 <= i < |rows| => if covered(rows[i]) then hs[i].revived * rows[i].amountWei else 0)
  }

  ghost predicate ByIdentity(covered: Claim -> bool) {
    forall a, b :: SameIdentity(a, b) ==> covered(a) == covered(b)
  }

  lemma {:induction false} SumSplits(net: seq<int>, counted: seq<int>, revived: seq<int>)
    requires |net| == |counted| == |revived|
    requires forall i :: 0 <= i < |net| ==> net[i] == counted[i] - revived[i]
    ensures Sum(net) == Sum(counted) - Sum(revived)
  {
    if net != [] {
      var n := |net| - 1;
      SumSplits(net[..n], counted[..n], revived[..n]);
    }
  }

  lemma NetIsCountedLessRevived(rows: seq<Claim>, hs: seq<History>, covered: Claim -> bool)
    requires |rows| == |hs|
    ensures Sum(NetColumn(rows, hs, covered)) == Sum(CountedColumn(rows, covered)) - Sum(RevivedColumn(rows, hs, covered))
    ensures Sum(NetColumn(rows, hs, covered)) <= Sum(CountedColumn(rows, covered))
  {
    var net, counted, revived := NetColumn(rows, hs, covered), CountedColumn(rows, covered), RevivedColumn(rows, hs, covered);
    forall i | 0 <= i < |rows| ensures net[i] == counted[i] - revived[i] && revived[i] >= 0 {
      var a: int, r: int := rows[i].amountWei, hs[i].revived;
      assert (1 - r) * a == a - r * a && (0 - r) * a == -(r * a);
    }
    SumSplits(net, counted, revived);
    SumMonotone(net, counted);
  }

  lemma NetSteady(s: State, s': State, covered: Claim -> bool)
    requires Steady(s, s') && ByIdentity(covered)
    ensures Sum(NetColumn(s'.db.requests, s'.history, covered)) <= Sum(NetColumn(s.db.requests, s.history, covered))
  {
    var xs, ys := NetColumn(s'.db.requests, s'.history, covered), NetColumn(s.db.requests, s.history, covered);
    forall i | 0 <= i < |s.db.requests| ensures xs[i] <= ys[i] {
      assert Follows(s, s', i);
      var a := s.db.requests[i].amountWei;
      var n, n' := Net(s.db.requests[i], s.history[i]), Net(s'.db.requests[i], s'.history[i]);
      assert n' * a <= n * a;
    }
    SumMonotone(xs, ys);
  }

  lemma NetInsert(rows: seq<Claim>, hs: seq<History>, c: Claim, covered: Claim -> bool)
    requires |rows| == |hs| && c.status == Received
    ensures Sum(NetColumn(rows + [c], hs + [NEW_HISTORY], covered))
         == Sum(NetColumn(rows, hs, covered)) + if covered(c) then c.amountWei else 0
  {
    var charge := if covered(c) then c.amountWei else 0;
    assert NetColumn(rows + [c], hs + [NEW_HISTORY], covered) == NetColumn(rows, hs, covered) + [charge];
    SumAppend(NetColumn(rows, hs, covered), charge);
  }

  /** The state of a budget: its net charges fit. */
  predicate Fits(s: State, covered: Claim -> bool, budget: nat)
    requires WellShaped(s)
  {
    Sum(NetColumn(s.db.requests, s.history, covered)) <= budget
  }

  /** A budget that every insert it covers checks against the covered total is never exceeded,
      net of revivals. */
  lemma FitsStep(cfg: Config, s: State, step: Step, covered: Claim -> bool, budget: nat)
    requires WellShaped(s) && ByIdentity(covered) && Fits(s, covered, budget)
    requires Inserts(cfg, s, step) && covered(Candidate(s, step.call, step.created)) ==>
               Sum(CountedColumn(s.db.requests, covered)) + Candidate(s, step.call, step.created).amountWei <= budget
    ensures WellShaped(Next(cfg, s, step)) && Fits(Next(cfg, s, step), covered, budget)
  {
    var s' := Next(cfg, s, step);
    StableStep(cfg, s, step);
    if Inserts(cfg, s, step) {
      StableAdmit(cfg, s, step);
      NetInsert(s.db.requests, s.history, Candidate(s, step.call, step.created), covered);
      NetIsCountedLessRevived(s.db.requests, s.history, covered);
    } else {
      NetSteady(s, s', covered);
    }
  }

  // ---- Daily budgets ----

  /** Every claim's CreatedAt lies inside the day window its budget check used. */
  predicate CheckedInWindow(steps: seq<Step>) {
    forall k :: 0 <= k < |steps| && steps[k].Admit? ==>
      && DayOf(steps[k].created) == DayOf(steps[k].windowNow)
      && InRange(steps[k].created) && WindowInRange(steps[k].windowNow)
  }

  function OfDay(tokenId: string, day: nat): Claim -> bool {
    (c: Claim) => InDay(c, tokenId, day)
  }

  lemma DayIsCounted(rows: seq<Claim>, tokenId: string, day: nat)
    ensures DayTotal(rows, tokenId, day) == Sum(CountedColumn(rows, OfDay(tokenId, day)))
  {
    assert CountedColumn(rows, OfDay(tokenId, day)) == DayColumn(rows, tokenId, day);
  }

  lemma InsertedFits(db: Db, c: Claim, start: nat, end: nat, dailyBudget: nat, campaignBudget: nat)
    requires Create(db, c, start, end, dailyBudget, campaignBudget).Inserted?
    ensures dailyBudget > 0 ==> TokenTotal(db.requests, c.tokenId, start, end) + c.amountWei <= dailyBudget
    ensures c.campaignId != "" && campaignBudget > 0 ==>
              CampaignTotal(db.requests, c.campaignId) + c.amountWei <= campaignBudget
  {
  }

  lemma WindowSumIsDaySum(rows: seq<Claim>, tokenId: string, now: nat)
    requires DatesInRange(rows) && WindowInRange(now)
    ensures TokenTotal(rows, tokenId, DayStart(now), DayStart(now) + DAY)
         == Sum(CountedColumn(rows, OfDay(tokenId, DayOf(now))))
  {
    SqlTotalIsChronological(rows, tokenId, now);
    DayIsCounted(rows, tokenId, DayOf(now));
  }

  lemma AdmittedWithinDay(cfg: Config, s: State, c: Claim, windowNow: nat)
    requires DatesInRange(s.db.requests) && DailyBudget(cfg, c.tokenId) > 0 && WindowInRange(windowNow)
    requires CreateFor(cfg, s, c, windowNow).Inserted?
    ensures Sum(CountedColumn(s.db.requests, OfDay(c.tokenId, DayOf(windowNow)))) + c.amountWei
         <= DailyBudget(cfg, c.tokenId)
  {
    hide InTextWindow;
    InsertedFits(s.db, c, DayStart(windowNow), DayStart(windowNow) + DAY,
                 DailyBudget(cfg, c.tokenId), CampaignBudget(cfg, c.campaignId));
    WindowSumIsDaySum(s.db.requests, c.tokenId, windowNow);
  }

  lemma {:induction false} DailyBudgetHolds(cfg: Config, steps: seq<Step>, tokenId: string, day: nat)
    requires tokenId != "" && DailyBudget(cfg, tokenId) > 0 && CheckedInWindow(steps)
    ensures var s := Run(cfg, steps);
            WellShaped(s) && DatesInRange(s.db.requests) && Fits(s, OfDay(tokenId, day), DailyBudget(cfg, tokenId))
  {
    if steps != [] {
      var init, last := steps[..|steps| - 1], steps[|steps| - 1];
      DailyBudgetHolds(cfg, init, tokenId, day);
      var s := Run(cfg, init);
      assert CheckedInWindow([last]);
      StableStep(cfg, s, last);
      DatesStayInRange(cfg, s, last);
      if Inserts(cfg, s, last) && InDay(Candidate(s, last.call, last.created), tokenId, day) {
        AdmittedWithinDay(cfg, s, Candidate(s, last.call, last.created), last.windowNow);
      }
      FitsStep(cfg, s, last, OfDay(tokenId, day), DailyBudget(cfg, tokenId));
    }
  }

  lemma DatesStayInRange(cfg: Config, s: State, step: Step)
    requires WellShaped(s) && DatesInRange(s.db.requests) && (step.Admit? ==> InRange(step.created))
    ensures DatesInRange(Next(cfg, s, step).db.requests)
  {
    StableStep(cfg, s, step);
    var s' := Next(cfg, s, step);
    if Inserts(cfg, s, step) {
      StableAdmit(cfg, s, step);
    }
    forall i | 0 <= i < |s'.db.requests| ensures InRange(s'.db.requests[i].createdAt) {
      if i < |s.db.requests| {
        assert Follows(s, s', i);
      }
    }
  }

  /** After every step of every run, what counts for a token and UTC day is at most the daily
      budget plus the amounts that were moved back into counting. */
  lemma DailyBudgetConserved(cfg: Config, steps: seq<Step>, tokenId: string, day: nat)
    requires tokenId != "" && tokenId in cfg.dailyBudgets && cfg.dailyBudgets[tokenId] > 0 && CheckedInWindow(steps)
    ensures var s := Run(cfg, steps);
            && WellShaped(s)
            && DayTotal(s.db.requests, tokenId, day)
               <= cfg.dailyBudgets[tokenId] + Sum(RevivedColumn(s.db.requests, s.history, OfDay(tokenId, day)))
  {
    DailyBudgetHolds(cfg, steps, tokenId, day);
    var s := Run(cfg, steps);
    NetIsCountedLessRevived(s.db.requests, s.history, OfDay(tokenId, day));
    DayIsCounted(s.db.requests, tokenId, day);
  }

  /** Admitting a claim created at `created` under the window of `windowNow` keeps its own day
      within the budget, whatever the table holds. */
  ghost predicate KeepsItsDay(tokenId: string, budget: nat, created: nat, windowNow: nat) {
    forall rows: seq<Claim>, c: Claim ::
      DatesInRange(rows) && c.tokenId == tokenId && c.createdAt == created && c.status == Received
      && DayTotal(rows, tokenId, DayOf(created)) <= budget
      && Create(Db(rows, [], map[]), c, DayStart(windowNow), DayStart(windowNow) + DAY, budget, 0).Inserted?
      ==> DayTotal(rows + [c], tokenId, DayOf(created)) <= budget
  }

  lemma DayTotalInsert(rows: seq<Claim>, c: Claim, tokenId: string, day: nat)
    ensures DayTotal(rows + [c], tokenId, day)
         == DayTotal(rows, tokenId, day) + if InDay(c, tokenId, day) && !WrittenOff(c.status) then c.amountWei else 0
  {
    var charge := if InDay(c, tokenId, day) && !WrittenOff(c.status) then c.amountWei else 0;
    assert DayColumn(rows + [c], tokenId, day) == DayColumn(rows, tokenId, day) + [charge];
    SumAppend(DayColumn(rows, tokenId, day), charge);
  }

  /** The service reads the clock for the window after the one for CreatedAt; the daily budget is
      safe exactly when no midnight falls in between. */
  lemma DailyWindowExact(tokenId: string, budget: nat, created: nat, windowNow: nat)
    requires tokenId != "" && budget > 0 && InRange(created) && WindowInRange(windowNow)
    ensures KeepsItsDay(tokenId, budget, created, windowNow) <==> DayOf(created) == DayOf(windowNow)
  {
    if DayOf(created) == DayOf(windowNow) {
      forall rows: seq<Claim>, c: Claim |
        DatesInRange(rows) && c.tokenId == tokenId && c.createdAt == created && c.status == Received
        && Create(Db(rows, [], map[]), c, DayStart(windowNow), DayStart(windowNow) + DAY, budget, 0).Inserted?
        ensures DayTotal(rows + [c], tokenId, DayOf(created)) <= budget
      {
        InsertedFits(Db(rows, [], map[]), c, DayStart(windowNow), DayStart(windowNow) + DAY, budget, 0);
        SqlTotalIsChronological(rows, tokenId, windowNow);
        DayTotalInsert(rows, c, tokenId, DayOf(created));
      }
    } else {
      MidnightTable(tokenId, budget, created, windowNow);
    }
  }

  lemma MidnightTable(tokenId: string, budget: nat, created: nat, windowNow: nat)
    requires tokenId != "" && budget > 0 && InRange(created) && WindowInRange(windowNow)
    requires DayOf(created) != DayOf(windowNow)
    ensures !KeepsItsDay(tokenId, budget, created, windowNow)
  {
    hide InTextWindow;
    var full := Claim("a", tokenId, budget, Received, 0, None, "", "", "", created, created);
    var c := full.(amountWei := 1);
    var rows := [full];
    OneRowTotals(full, tokenId, DayOf(created), DayOf(windowNow));
    SqlTotalIsChronological(rows, tokenId, windowNow);
    assert Create(Db(rows, [], map[]), c, DayStart(windowNow), DayStart(windowNow) + DAY, budget, 0).Inserted?;
    DayTotalInsert(rows, c, tokenId, DayOf(created));
  }

  lemma OneRowTotals(c: Claim, tokenId: string, day: nat, other: nat)
    requires c.tokenId == tokenId && DayOf(c.createdAt) == day != other && c.status == Received
    ensures DayTotal([c], tokenId, day) == c.amountWei && DayTotal([c], tokenId, other) == 0
  {
    assert DayColumn([c], tokenId, other) == [0];
    assert DayColumn([c], tokenId, day) == [c.amountWei as int];
    assert Sum([0]) == 0 && Sum([c.amountWei as int]) == c.amountWei;
  }

  // ---- A run across midnight ----

  /** A call without key or campaign, up to its insert. */
  function Enter(k: nat, r: Request, created: nat, windowNow: nat): seq<Step> {
    [Begin(r), Lookup(k)] + [CheckCampaign(k, created, NO_READS), Admit(k, created, windowNow)]
  }

  lemma EnterInserts(cfg: Config, s: State, r: Request, k: nat, created: nat, windowNow: nat)
    requires WellShaped(s) && k < |s.calls| && s.calls[k] == Call(r, Checked("", "")) && PlainRequest(r)
    requires DailyBudget(cfg, r.tokenId) == 0 ||
             TokenTotal(s.db.requests, r.tokenId, DayStart(windowNow), DayStart(windowNow) + DAY) + r.amountWei
             <= DailyBudget(cfg, r.tokenId)
    ensures var s' := Next(cfg, s, Admit(k, created, windowNow));
            && WellShaped(s') && s'.db.requests == s.db.requests + [NewClaim(r, "", "", created)]
            && s'.history == s.history + [NEW_HISTORY]
  {
    hide TokenTotal, CampaignTotal;
    var c := NewClaim(r, "", "", created);
    assert CreateFor(cfg, s, c, windowNow) == Inserted(|s.db.requests|);
  }

  lemma Entered(cfg: Config, s: State, r: Request, created: nat, windowNow: nat)
    requires WellShaped(s) && PlainRequest(r)
    requires DailyBudget(cfg, r.tokenId) == 0 ||
             TokenTotal(s.db.requests, r.tokenId, DayStart(windowNow), DayStart(windowNow) + DAY) + r.amountWei
             <= DailyBudget(cfg, r.tokenId)
    ensures var s' := RunFrom(cfg, s, Enter(|s.calls|, r, created, windowNow));
            && WellShaped(s') && s'.db.requests == s.db.requests + [NewClaim(r, "", "", created)]
            && s'.history == s.history + [NEW_HISTORY]
  {
    hide Next, RunFrom, TokenTotal, DailyBudget;
    var k := |s.calls|;
    var a, b := [Begin(r), Lookup(k)], [CheckCampaign(k, created, NO_READS), Admit(k, created, windowNow)];
    EnterChecks(cfg, s, r, created);
    EnterInserts(cfg, s.(calls := s.calls + [Call(r, Checked("", ""))]), r, k, created, windowNow);
    TwoSteps(cfg, s, a[0], a[1]);
    TwoSteps(cfg, Next(cfg, Next(cfg, s, a[0]), a[1]), b[0], b[1]);
    Compose(cfg, s, a, b);
  }

  /** A run that exceeds the budget: one call takes the whole budget of a day, and another, created
      on that day too, reads the clock for its window on a different day. */
  lemma MidnightBreaksBudget(cfg: Config, tokenId: string, created: nat, windowNow: nat) returns (steps: seq<Step>)
    requires tokenId != "" && tokenId in cfg.dailyBudgets && cfg.dailyBudgets[tokenId] > 0 && InRange(created)
    requires WindowInRange(created) && WindowInRange(windowNow) && DayOf(created) != DayOf(windowNow)
    ensures var s := Run(cfg, steps);
            && WellShaped(s)
            && DayTotal(s.db.requests, tokenId, DayOf(created))
               > cfg.dailyBudgets[tokenId] + Sum(RevivedColumn(s.db.requests, s.history, OfDay(tokenId, DayOf(created))))
  {
    hide RunFrom, DayOf, DayStart, InTextWindow, TokenTotal, Enter;
    var budget := DailyBudget(cfg, tokenId);
    var all, one := Request("a", tokenId, budget, "", "", ""), Request("b", tokenId, 1, "", "", "");
    var c, d := NewClaim(all, "", "", created), NewClaim(one, "", "", created);
    SqlTotalIsChronological([], tokenId, created);
    assert DayColumn([], tokenId, DayOf(created)) == [];
    Entered(cfg, INIT, all, created, created);
    steps := Enter(0, all, created, created);
    var s := RunFrom(cfg, INIT, steps);
    assert s.db.requests == [c] && s.history == [NEW_HISTORY];
    OneRowTotals(c, tokenId, DayOf(created), DayOf(windowNow));
    SqlTotalIsChronological([c], tokenId, windowNow);
    Entered(cfg, s, one, created, windowNow);
    Compose(cfg, INIT, steps, Enter(|s.calls|, one, created, windowNow));
    steps := steps + Enter(|s.calls|, one, created, windowNow);
    DayTotalInsert([c], d, tokenId, DayOf(created));
    NothingRevived(Run(cfg, steps), OfDay(tokenId, DayOf(created)));
  }

  lemma NothingRevived(s: State, covered: Claim -> bool)
    requires WellShaped(s) && forall i :: 0 <= i < |s.history| ==> s.history[i] == NEW_HISTORY
    ensures Sum(RevivedColumn(s.db.requests, s.history, covered)) == 0
  {
    SumZeros(RevivedColumn(s.db.requests, s.history, covered));
  }

  // ---- Campaign budgets ----

  function OfCampaign(campaignId: string): Claim -> bool {
    (c: Claim) => c.campaignId == campaignId
  }

  lemma {:induction false} CampaignBudgetHolds(cfg: Config, steps: seq<Step>, campaignId: string)
    requires campaignId != "" && CampaignBudget(cfg, campaignId) > 0
    ensures WellShaped(Run(cfg, steps)) && Fits(Run(cfg, steps), OfCampaign(campaignId), CampaignBudget(cfg, campaignId))
  {
    if steps != [] {
      var init, last := steps[..|steps| - 1], steps[|steps| - 1];
      CampaignBudgetHolds(cfg, init, campaignId);
      var s := Run(cfg, init);
      CampaignTotalIsCounted(s.db.requests, campaignId);
      FitsStep(cfg, s, last, OfCampaign(campaignId), CampaignBudget(cfg, campaignId));
    }
  }

  lemma CampaignTotalIsCounted(rows: seq<Claim>, campaignId: string)
    ensures CampaignTotal(rows, campaignId) == Sum(CountedColumn(rows, OfCampaign(campaignId)))
  {
    forall i | 0 <= i < |rows|
      ensures CountedColumn(rows, OfCampaign(campaignId))[i] == CampaignColumn(rows, campaignId)[i]
    {
      CountsExactly(rows[i].status);
    }
    assert CountedColumn(rows, OfCampaign(campaignId)) == CampaignColumn(rows, campaignId);
  }

  /** After every step of every run, what counts for a campaign is at most its budget plus the
      amounts that were moved back into counting. */
  lemma CampaignBudgetConserved(cfg: Config, steps: seq<Step>, campaignId: string)
    requires campaignId != "" && campaignId in cfg.campaigns && cfg.campaigns[campaignId].budgetWei > 0
    ensures var s := Run(cfg, steps);
            && WellShaped(s)
            && Sum(CountedColumn(s.db.requests, OfCampaign(campaignId)))
               <= cfg.campaigns[campaignId].budgetWei + Sum(RevivedColumn(s.db.requests, s.history, OfCampaign(campaignId)))
  {
    CampaignBudgetHolds(cfg, steps, campaignId);
    var s := Run(cfg, steps);
    NetIsCountedLessRevived(s.db.requests, s.history, OfCampaign(campaignId));
  }

  // ---- What each store operation does to the totals ----

  /** Every token total over every window, and every campaign total, is the same. */
  ghost predicate SameTotals(rows: seq<Claim>, rows': seq<Claim>) {
    && (forall tokenId: string, start: nat, end: nat ::
          TokenTotal(rows', tokenId, start, end) == TokenTotal(rows, tokenId, start, end))
    && (forall campaignId: string :: CampaignTotal(rows', campaignId) == CampaignTotal(rows, campaignId))
  }

  /** Exactly the totals that cover row `id` went up by `delta`. */
  ghost predicate TotalsMoved(rows: seq<Claim>, rows': seq<Claim>, id: nat, delta: int)
    requires id < |rows|
  {
    && (forall tokenId: string, start: nat, end: nat ::
          TokenTotal(rows', tokenId, start, end) == TokenTotal(rows, tokenId, start, end)
            + if InTextWindow(rows[id].createdAt, start, end) && (tokenId == "" || rows[id].tokenId == tokenId) then delta else 0)
    && (forall campaignId: string ::
          CampaignTotal(rows', campaignId) == CampaignTotal(rows, campaignId)
            + if rows[id].campaignId == campaignId then delta else 0)
  }

  lemma RowChange(rows: seq<Claim>, id: nat, c: Claim)
    requires id < |rows| && SameIdentity(rows[id], c)
    ensures WrittenOff(rows[id].status) == WrittenOff(c.status) ==> SameTotals(rows, rows[id := c])
    ensures !WrittenOff(rows[id].status) && WrittenOff(c.status) ==> TotalsMoved(rows, rows[id := c], id, 0 - rows[id].amountWei)
    ensures WrittenOff(rows[id].status) && !WrittenOff(c.status) ==> TotalsMoved(rows, rows[id := c], id, rows[id].amountWei)
  {
    hide InTextWindow, TokenTotal, CampaignTotal;
    CountsExactly(rows[id].status);
    CountsExactly(c.status);
    forall tokenId: string, start: nat, end: nat
      ensures TokenTotal(rows[id := c], tokenId, start, end) == TokenTotal(rows, tokenId, start, end)
                - TokenAmount(rows[id], tokenId, start, end) + TokenAmount(c, tokenId, start, end)
    {
      TokenRowChange(rows, id, c, tokenId, start, end);
    }
    forall campaignId: string
      ensures CampaignTotal(rows[id := c], campaignId) == CampaignTotal(rows, campaignId)
                - CampaignAmount(rows[id], campaignId) + CampaignAmount(c, campaignId)
    {
      CampaignRowChange(rows, id, c, campaignId);
    }
  }

  lemma TokenRowChange(rows: seq<Claim>, id: nat, c: Claim, tokenId: string, start: nat, end: nat)
    requires id < |rows|
    ensures TokenTotal(rows[id := c], tokenId, start, end) == TokenTotal(rows, tokenId, start, end)
              - TokenAmount(rows[id], tokenId, start, end) + TokenAmount(c, tokenId, start, end)
  {
    hide InTextWindow;
    var column, x := TokenColumn(rows, tokenId, start, end), TokenAmount(c, tokenId, start, end);
    assert TokenColumn(rows[id := c], tokenId, start, end) == column[id := x];
    SumUpdate(column, id, x);
  }

  lemma CampaignRowChange(rows: seq<Claim>, id: nat, c: Claim, campaignId: string)
    requires id < |rows|
    ensures CampaignTotal(rows[id := c], campaignId) == CampaignTotal(rows, campaignId)
              - CampaignAmount(rows[id], campaignId) + CampaignAmount(c, campaignId)
  {
    var column, x := CampaignColumn(rows, campaignId), CampaignAmount(c, campaignId);
    assert CampaignColumn(rows[id := c], campaignId) == column[id := x];
    SumUpdate(column, id, x);
  }

  /** On its way through the pipeline a claim keeps its place in every total: Enqueue, Ack, Confirm
      and the re-queue of Fail, from any status a live claim can have. */
  lemma PipelineKeepsTotals(db: Db, id: nat, hash: Option<nat>, count: nat, at: nat, maxRetries: int, block: nat, gasUsed: nat)
    requires id < |db.requests| && db.requests[id].status in {Received, Validated, Queued, Sending, Sent, Confirmed}
    ensures SameTotals(db.requests, WithStatus(db, id, Queued, at).requests)
    ensures AckAllowed(db, id, hash) ==> SameTotals(db.requests, AfterAck(db, id, hash, at).requests)
    ensures db.requests[id].status == Sent ==> SameTotals(db.requests, AfterConfirm(db, id, block, gasUsed, at).requests)
    ensures count < maxRetries ==> SameTotals(db.requests, AfterFail(db, id, count, at, maxRetries).requests)
  {
    hide SameTotals, TotalsMoved;
    var c := db.requests[id];
    RowChange(db.requests, id, c.(status := Queued, updatedAt := at));
    RowChange(db.requests, id, c.(status := Sent, updatedAt := at));
    RowChange(db.requests, id, c.(status := Confirmed, updatedAt := at));
    RowChange(db.requests, id, c.(retryCount := count, updatedAt := at, status := Queued, nextAttemptAt := Some(at + count * BACKOFF)));
  }

  /** So does a dequeued batch. */
  lemma DequeueKeepsTotals(db: Db, picks: seq<nat>, now: nat)
    requires AllReady(db.requests, now, picks)
    ensures SameTotals(db.requests, AfterDequeue(db, picks, now).requests)
  {
    hide InTextWindow, StampedNotAfter;
    var rows, rows' := db.requests, AfterDequeue(db, picks, now).requests;
    forall i | 0 <= i < |rows| && i in picks
      ensures rows[i].status == Queued
    {
      var k :| 0 <= k < |picks| && picks[k] == i;
      assert Ready(rows[picks[k]], now);
    }
    CountsExactly(Queued);
    CountsExactly(Sending);
    forall tokenId: string, start: nat, end: nat
      ensures TokenTotal(rows', tokenId, start, end) == TokenTotal(rows, tokenId, start, end)
    {
      assert TokenColumn(rows', tokenId, start, end) == TokenColumn(rows, tokenId, start, end);
    }
    forall campaignId: string
      ensures CampaignTotal(rows', campaignId) == CampaignTotal(rows, campaignId)
    {
      assert CampaignColumn(rows', campaignId) == CampaignColumn(rows, campaignId);
    }
  }

  /** Writing a live claim off gives back exactly its amount: dead-lettering, FailTransaction, Reject
      and Cancel. */
  lemma WritingOffLowersTotals(db: Db, id: nat, count: nat, at: nat, maxRetries: int)
    requires id < |db.requests| && db.requests[id].status in {Received, Validated, Queued, Sending, Sent, Confirmed}
    ensures var delta: int := 0 - db.requests[id].amountWei;
            && (count >= maxRetries ==> TotalsMoved(db.requests, AfterFail(db, id, count, at, maxRetries).requests, id, delta))
            && TotalsMoved(db.requests, AfterFailTransaction(db, id, at).requests, id, delta)
            && TotalsMoved(db.requests, WithStatus(db, id, Rejected, at).requests, id, delta)
            && TotalsMoved(db.requests, AfterOperatorWrite(db, id, Rejected, at).requests, id, delta)
  {
    hide SameTotals, TotalsMoved;
    var c := db.requests[id];
    RowChange(db.requests, id, c.(retryCount := count, updatedAt := at, status := Failed));
    RowChange(db.requests, id, c.(status := Failed, updatedAt := at));
    RowChange(db.requests, id, c.(status := Rejected, updatedAt := at));
    RowChange(db.requests, id, c.(status := Rejected, nextAttemptAt := None, updatedAt := at));
  }

  /** An operator retry takes it again. */
  lemma RetryRaisesTotals(db: Db, id: nat, at: nat)
    requires id < |db.requests| && db.requests[id].status in {Failed, Rejected, Paused}
    ensures TotalsMoved(db.requests, AfterOperatorWrite(db, id, Queued, at).requests, id, db.requests[id].amountWei)
  {
    hide SameTotals, TotalsMoved;
    RowChange(db.requests, id, db.requests[id].(status := Queued, nextAttemptAt := None, updatedAt := at));
  }

  /** The admission transaction inserts exactly when the key is new and both budgets, counted over
      what is not written off, have room for the amount; a known key returns its row. */
  lemma CreateExactly(db: Db, c: Claim, now: nat, dailyBudget: nat, campaignBudget: nat)
    requires DatesInRange(db.requests) && WindowInRange(now)
    ensures var r := Create(db, c, DayStart(now), DayStart(now) + DAY, dailyBudget, campaignBudget);
            var known := c.idempotencyKey != "" && exists i :: 0 <= i < |db.requests| && db.requests[i].idempotencyKey == c.idempotencyKey;
            && (r.Existing? <==> known)
            && (r.Existing? ==> r.id < |db.requests| && db.requests[r.id].idempotencyKey == c.idempotencyKey)
            && (r.Inserted? <==>
                  && !known
                  && (dailyBudget == 0 || DayTotal(db.requests, c.tokenId, DayOf(now)) + c.amountWei <= dailyBudget)
                  && (c.campaignId == "" || campaignBudget == 0
                      || Sum(CountedColumn(db.requests, OfCampaign(c.campaignId))) + c.amountWei <= campaignBudget))
            && (r.Inserted? ==> r.id == |db.requests|)
            && (r.CampaignBudgetExceeded? ==> dailyBudget == 0 || DayTotal(db.requests, c.tokenId, DayOf(now)) + c.amountWei <= dailyBudget)
  {
    hide TokenTotal, CampaignTotal, DayTotal, CountedColumn, DayOf, DayStart;
    SqlTotalIsChronological(db.requests, c.tokenId, now);
    CampaignTotalIsCounted(db.requests, c.campaignId);
  }
}
