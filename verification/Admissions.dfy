/** Where stored claims come from: the request of the call that inserted each row, and the campaign
    check that let it through, over every run. */
module Admissions {
  import opened Domain
  import opened Text
  import opened StoreSpec
  import opened ClaimSystem
  import opened Lifecycle
  import opened Stability
  import opened Payouts
  import opened Intakes

  // ---- The campaign check ----

  /** A call for campaign `id` (none when empty) may go on with `code` at `now`. */
  predicate Admissible(cfg: Config, r: Request, id: string, code: string, now: nat) {
    if id == "" then code == "" && r.campaignId == "" && r.invitationCode == ""
    else
      && id in cfg.campaigns && cfg.campaigns[id].enabled
      && (r.campaignId == "" || r.campaignId == id)
      && (cfg.campaigns[id].tokenId == "" || cfg.campaigns[id].tokenId == r.tokenId)
      && (cfg.campaigns[id].startsAt.Some? ==> cfg.campaigns[id].startsAt.value <= now)
      && (cfg.campaigns[id].endsAt.Some? ==> now < cfg.campaigns[id].endsAt.value)
      && (match cfg.campaigns[id].scope
          case PublicScope => code == ""
          case InviteScope => code == r.invitationCode != ""
          case AllowlistScope => code == "" && (id, r.address) in cfg.allowlist)
  }

  /** No campaign has the empty id. */
  predicate NamedCampaigns(cfg: Config) {
    "" !in cfg.campaigns
  }

  lemma CheckAdmits(cfg: Config, seen: CampaignReads, r: Request, now: nat)
    requires NamedCampaigns(cfg) && EnforceCampaign(cfg, seen, r, now).Some?
    ensures var d := EnforceCampaign(cfg, seen, r, now).value; Admissible(cfg, r, d.0, d.1, now)
  {
  }

  /** Exactly when a call passes the campaign check, in terms of what its reads returned. */
  lemma CampaignCheckExactly(cfg: Config, s: State, k: nat, now: nat, seen: CampaignReads)
    requires WellShaped(s) && k < |s.calls| && s.calls[k].state == LookedUp && NamedCampaigns(cfg)
    requires s.calls[k].request.campaignId != "" || s.calls[k].request.invitationCode != ""
    ensures var r, state := s.calls[k].request, Next(cfg, s, CheckCampaign(k, now, seen)).calls[k].state;
            var id := if r.campaignId != "" then r.campaignId else if seen.code.Some? then seen.code.value.campaignId else "";
            && (state.Checked? || state.Refused?)
            && (state.Checked? <==>
                  && (r.campaignId == "" ==>
                        && seen.code.Some? && seen.code.value.enabled
                        && (seen.code.value.maxUses == 0 || seen.code.value.uses < seen.code.value.maxUses))
                  && id in cfg.campaigns && cfg.campaigns[id].enabled
                  && (cfg.campaigns[id].startsAt.Some? ==> cfg.campaigns[id].startsAt.value <= now)
                  && (cfg.campaigns[id].endsAt.Some? ==> now < cfg.campaigns[id].endsAt.value)
                  && (cfg.campaigns[id].tokenId == "" || cfg.campaigns[id].tokenId == r.tokenId)
                  && (cfg.campaigns[id].scope == InviteScope ==>
                        && r.invitationCode != "" && seen.again.Some? && seen.again.value.enabled
                        && seen.again.value.campaignId == id
                        && (seen.again.value.maxUses == 0 || seen.again.value.uses < seen.again.value.maxUses))
                  && (cfg.campaigns[id].scope == AllowlistScope ==> (id, r.address) in cfg.allowlist)
                  && (cfg.campaigns[id].budgetWei == 0 || seen.usedWei + r.amountWei <= cfg.campaigns[id].budgetWei))
            && (state.Checked? ==>
                  state.campaignId == id && state.code == if cfg.campaigns[id].scope == InviteScope then r.invitationCode else "")
  {
  }

  // ---- How calls move ----

  /** Checked and committed calls stay as they are until their own next step. */
  lemma CallKeeps(cfg: Config, s: State, step: Step, k: nat)
    requires WellShaped(s) && k < |s.calls| && (s.calls[k].state.Committed? || s.calls[k].state.Checked?)
    ensures var s' := Next(cfg, s, step);
            && k < |s'.calls| && s'.calls[k].request == s.calls[k].request
            && (s.calls[k].state.Committed? ==> s'.calls[k].state == s.calls[k].state)
            && (s.calls[k].state.Checked? && s'.calls[k].state.Checked? ==> s'.calls[k].state == s.calls[k].state)
  {
    hide CreateFor, EnforceCampaign, FindKey;
    if CallStep(step) {
      CallStepKeeps(cfg, s, step, k);
    } else {
      OthersKeepCallsNext(cfg, s, step);
    }
  }

  lemma CallStepKeeps(cfg: Config, s: State, step: Step, k: nat)
    requires WellShaped(s) && k < |s.calls| && (s.calls[k].state.Committed? || s.calls[k].state.Checked?) && CallStep(step)
    ensures var s' := Next(cfg, s, step);
            && k < |s'.calls| && s'.calls[k].request == s.calls[k].request
            && (s.calls[k].state.Committed? ==> s'.calls[k].state == s.calls[k].state)
            && (s.calls[k].state.Checked? && s'.calls[k].state.Checked? ==> s'.calls[k].state == s.calls[k].state)
  {
    hide CreateFor, EnforceCampaign, FindKey;
  }

  predicate IsChecked(s: State, k: nat) {
    k < |s.calls| && s.calls[k].state.Checked?
  }

  lemma BecomesChecked(cfg: Config, s: State, step: Step, k: nat)
    requires WellShaped(s) && !IsChecked(s, k) && IsChecked(Next(cfg, s, step), k)
    ensures step.CheckCampaign? && step.call == k && k < |s.calls|
    ensures var s' := Next(cfg, s, step);
            && s'.calls[k].request == s.calls[k].request
            && EnforceCampaign(cfg, step.seen, s.calls[k].request, step.now)
               == Some((s'.calls[k].state.campaignId, s'.calls[k].state.code))
  {
    hide CreateFor, EnforceCampaign, FindKey;
    if CallStep(step) {
      BecomesCheckedHere(cfg, s, step, k);
    } else {
      OthersKeepCallsNext(cfg, s, step);
    }
  }

  lemma BecomesCheckedHere(cfg: Config, s: State, step: Step, k: nat)
    requires WellShaped(s) && !IsChecked(s, k) && IsChecked(Next(cfg, s, step), k) && CallStep(step)
    ensures step.CheckCampaign? && step.call == k && k < |s.calls|
    ensures var s' := Next(cfg, s, step);
            && s'.calls[k].request == s.calls[k].request
            && EnforceCampaign(cfg, step.seen, s.calls[k].request, step.now)
               == Some((s'.calls[k].state.campaignId, s'.calls[k].state.code))
  {
    hide CreateFor, EnforceCampaign, FindKey;
  }

  /** Step j of the run is the campaign check of call k, and admits it. */
  predicate CheckedAt(cfg: Config, steps: seq<Step>, k: nat, r: Request, id: string, code: string, j: nat) {
    j < |steps| && steps[j].CheckCampaign? && steps[j].call == k && Admissible(cfg, r, id, code, steps[j].now)
  }

  lemma {:induction false} FindCheck(cfg: Config, steps: seq<Step>, k: nat) returns (j: nat)
    requires NamedCampaigns(cfg) && IsChecked(Run(cfg, steps), k)
    ensures var call := Run(cfg, steps).calls[k];
            CheckedAt(cfg, steps, k, call.request, call.state.campaignId, call.state.code, j)
  {
    hide Next, Admissible, EnforceCampaign;
    var n := |steps| - 1;
    var init, last := steps[..n], steps[n];
    var s := Run(cfg, init);
    Reachable(cfg, init);
    InvShape(cfg, s);
    if IsChecked(s, k) {
      j := FindCheck(cfg, init, k);
      CallKeeps(cfg, s, last, k);
      assert steps[j] == init[j];
    } else {
      BecomesChecked(cfg, s, last, k);
      CheckAdmits(cfg, last.seen, s.calls[k].request, last.now);
      j := n;
    }
  }

  // ---- Every row has a call ----

  /** Row c is what request r asked for. */
  predicate Carries(c: Claim, r: Request) {
    c.address == r.address && c.tokenId == r.tokenId && c.amountWei == r.amountWei && c.idempotencyKey == r.key
  }

  predicate InsertedAt(steps: seq<Step>, k: nat, createdAt: nat, a: nat) {
    a < |steps| && steps[a].Admit? && steps[a].call == k && steps[a].created == createdAt
  }

  ghost predicate Origin(cfg: Config, steps: seq<Step>, id: nat, k: nat, j: nat, a: nat) {
    var s := Run(cfg, steps);
    && id < |s.db.requests| && k < |s.calls| && s.calls[k].state == Committed(id) && j < a
    && Carries(s.db.requests[id], s.calls[k].request)
    && CheckedAt(cfg, steps, k, s.calls[k].request, s.db.requests[id].campaignId, s.db.requests[id].invitationCode, j)
    && InsertedAt(steps, k, s.db.requests[id].createdAt, a)
  }

  lemma OriginStays(cfg: Config, steps: seq<Step>, last: Step, id: nat, k: nat, j: nat, a: nat)
    requires Origin(cfg, steps, id, k, j, a)
    ensures Origin(cfg, steps + [last], id, k, j, a)
  {
    hide Next, Admissible;
    var s := Run(cfg, steps);
    Reachable(cfg, steps);
    InvShape(cfg, s);
    assert (steps + [last])[..|steps|] == steps;
    CallKeeps(cfg, s, last, k);
    StableStep(cfg, s, last);
    assert Follows(s, Next(cfg, s, last), id);
  }

  lemma InsertingStep(cfg: Config, s: State, step: Step)
    requires Inserts(cfg, s, step)
    ensures var s' := Next(cfg, s, step);
            && s'.db.requests == s.db.requests + [Candidate(s, step.call, step.created)]
            && step.call < |s'.calls| && s'.calls[step.call] == Call(s.calls[step.call].request, Committed(|s.db.requests|))
  {
    hide TokenTotal, CampaignTotal;
  }

  /** Every stored claim was inserted by one call, carries what that call asked for, was created at
      the clock reading of the insert, and passed the campaign check before. */
  lemma {:induction false} RowOrigin(cfg: Config, steps: seq<Step>, id: nat) returns (k: nat, j: nat, a: nat)
    requires NamedCampaigns(cfg) && Exists(cfg, steps, id)
    ensures Origin(cfg, steps, id, k, j, a)
  {
    hide Next, Admissible, Inserts, Origin;
    var n := |steps| - 1;
    var init, last := steps[..n], steps[n];
    assert steps == init + [last];
    var s := Run(cfg, init);
    Reachable(cfg, init);
    InvShape(cfg, s);
    if id < |s.db.requests| {
      k, j, a := RowOrigin(cfg, init, id);
      OriginStays(cfg, init, last, id, k, j, a);
    } else {
      StableStep(cfg, s, last);
      k, j, a := InsertedNow(cfg, init, last, id);
    }
  }

  lemma InsertedNow(cfg: Config, init: seq<Step>, last: Step, id: nat) returns (k: nat, j: nat, a: nat)
    requires NamedCampaigns(cfg) && WellShaped(Run(cfg, init)) && Inserts(cfg, Run(cfg, init), last)
    requires |Run(cfg, init).db.requests| <= id < |Next(cfg, Run(cfg, init), last).db.requests|
    ensures Origin(cfg, init + [last], id, k, j, a)
  {
    hide Next, Admissible;
    var s := Run(cfg, init);
    assert (init + [last])[..|init|] == init;
    InsertingStep(cfg, s, last);
    k, a := last.call, |init|;
    j := FindCheck(cfg, init, k);
    assert (init + [last])[j] == init[j];
  }

  /** What is stored is what was asked for: the request of the inserting call. A claim outside every
      campaign comes from a request that named neither campaign nor code. */
  lemma RowsAreRequested(cfg: Config, steps: seq<Step>, id: nat) returns (k: nat, a: nat)
    requires NamedCampaigns(cfg) && Exists(cfg, steps, id)
    ensures var s := Run(cfg, steps);
            && k < |s.calls| && s.calls[k].state == Committed(id)
            && var c, r := s.db.requests[id], s.calls[k].request;
               && c.address == r.address && c.tokenId == r.tokenId && c.amountWei == r.amountWei
               && c.idempotencyKey == r.key
               && (c.campaignId == "" ==> r.campaignId == "" && r.invitationCode == "" && c.invitationCode == "")
               && a < |steps| && steps[a].Admit? && steps[a].call == k && c.createdAt == steps[a].created
  {
    var j;
    k, j, a := RowOrigin(cfg, steps, id);
  }

  /** A claim of a campaign was let through by it: the campaign is configured, enabled and for the
      claim's token, and was open when the call was checked; under an invite campaign the claim carries
      the code of its request, under an allowlist campaign its address is on the list. */
  lemma CampaignClaimsAreAdmitted(cfg: Config, steps: seq<Step>, id: nat) returns (k: nat, j: nat)
    requires NamedCampaigns(cfg) && Exists(cfg, steps, id) && Run(cfg, steps).db.requests[id].campaignId != ""
    ensures var s := Run(cfg, steps);
            var c := s.db.requests[id];
            && k < |s.calls| && s.calls[k].state == Committed(id)
            && j < |steps| && steps[j].CheckCampaign? && steps[j].call == k
            && c.campaignId in cfg.campaigns
            && var campaign, r := cfg.campaigns[c.campaignId], s.calls[k].request;
               && campaign.enabled && (campaign.tokenId == "" || campaign.tokenId == c.tokenId)
               && (campaign.startsAt.Some? ==> campaign.startsAt.value <= steps[j].now)
               && (campaign.endsAt.Some? ==> steps[j].now < campaign.endsAt.value)
               && (campaign.scope == InviteScope ==> c.invitationCode == r.invitationCode != "")
               && (campaign.scope == AllowlistScope ==> (c.campaignId, c.address) in cfg.allowlist)
               && (r.campaignId == "" || r.campaignId == c.campaignId)
  {
    var a;
    k, j, a := RowOrigin(cfg, steps, id);
  }

  // ---- Invite campaigns use up invitations ----

  predicate EnqueuedOf(c: Claim, h: History, campaignId: string) {
    c.campaignId == campaignId && h.enqueued
  }

  /** The enqueued claims of a campaign that carry one of these codes. */
  function EnqueuedWith(s: State, campaignId: string, codes: seq<string>): seq<int>
    requires WellShaped(s)
  {
    seq(|s.history|, i requires 0 <= i < |s.history| =>
      One(EnqueuedOf(s.db.requests[i], s.history[i], campaignId) && s.db.requests[i].invitationCode in codes))
  }

  function EnqueuedColumn(s: State, campaignId: string): seq<int>
    requires WellShaped(s)
  {
    seq(|s.history|, i requires 0 <= i < |s.history| => One(EnqueuedOf(s.db.requests[i], s.history[i], campaignId)))
  }

  /** Uses on record on each code, those of deleted codes included. */
  function UsesColumn(s: State, codes: seq<string>): seq<int> {
    seq(|codes|, i requires 0 <= i < |codes| => Uses(s.db, codes[i]) + Dropped(s, codes[i]))
  }

  lemma {:induction false} SumOfTwo(xs: seq<int>, ys: seq<int>, zs: seq<int>)
    requires |xs| == |ys| == |zs| && forall i :: 0 <= i < |xs| ==> xs[i] <= ys[i] + zs[i]
    ensures Sum(xs) <= Sum(ys) + Sum(zs)
  {
    if xs != [] {
      var n := |xs| - 1;
      SumOfTwo(xs[..n], ys[..n], zs[..n]);
    }
  }

  lemma {:induction false} EnqueuedWithinUses(cfg: Config, steps: seq<Step>, campaignId: string, codes: seq<string>)
    requires "" !in codes && WellShaped(Run(cfg, steps))
    ensures Sum(EnqueuedWith(Run(cfg, steps), campaignId, codes)) <= Sum(UsesColumn(Run(cfg, steps), codes))
  {
    hide Run;
    var s := Run(cfg, steps);
    if codes == [] {
      SumZeros(EnqueuedWith(s, campaignId, codes));
    } else {
      var n := |codes| - 1;
      var init, code := codes[..n], codes[n];
      assert codes == init + [code];
      EnqueuedWithinUses(cfg, steps, campaignId, init);
      InvitationLimit(cfg, steps, code);
      SumOfTwo(EnqueuedWith(s, campaignId, codes), EnqueuedWith(s, campaignId, init), ReachedColumn(s, code));
      assert UsesColumn(s, codes) == UsesColumn(s, init) + [Uses(s.db, code) + Dropped(s, code)];
      SumAppend(UsesColumn(s, init), Uses(s.db, code) + Dropped(s, code));
    }
  }

  /** The claims of an invite campaign that reach the queue never outnumber the uses recorded on the
      codes they carry. */
  lemma InviteCampaignUsesCodes(cfg: Config, steps: seq<Step>, campaignId: string, codes: seq<string>)
    requires NamedCampaigns(cfg) && campaignId in cfg.campaigns && cfg.campaigns[campaignId].scope == InviteScope
    requires "" !in codes && WellShaped(Run(cfg, steps))
    requires var s := Run(cfg, steps);
             forall i | 0 <= i < |s.db.requests| && EnqueuedOf(s.db.requests[i], s.history[i], campaignId) ::
               s.db.requests[i].invitationCode == "" || s.db.requests[i].invitationCode in codes
    ensures Sum(EnqueuedColumn(Run(cfg, steps), campaignId)) <= Sum(UsesColumn(Run(cfg, steps), codes))
  {
    hide Run;
    var s := Run(cfg, steps);
    forall i | 0 <= i < |s.history|
      ensures EnqueuedColumn(s, campaignId)[i] == EnqueuedWith(s, campaignId, codes)[i]
    {
      if EnqueuedOf(s.db.requests[i], s.history[i], campaignId) {
        var k, j := CampaignClaimsAreAdmitted(cfg, steps, i);
      }
    }
    assert EnqueuedColumn(s, campaignId) == EnqueuedWith(s, campaignId, codes);
    EnqueuedWithinUses(cfg, steps, campaignId, codes);
  }
}
