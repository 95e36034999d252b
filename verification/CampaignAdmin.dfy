/** The operator's writes to campaigns, invitation codes and allowlists. Each is a table write
    followed by an audit write; when the audit write fails, a second table write undoes the first. */
module CampaignAdmin {
  import opened Domain
  import opened Text
  import opened Policy
  import opened PolicyAdmin

  datatype CampaignRow = CampaignRow(
    name: string, tokenId: string, scope: string, budgetWei: Option<nat>, enabled: bool,
    startsAt: Option<nat>, endsAt: Option<nat>, createdAt: nat, updatedAt: nat)

  datatype CodeRow = CodeRow(campaignId: string, maxUses: int, uses: nat, enabled: bool, createdAt: nat)

  datatype Tables = Tables(
    campaigns: map<string, CampaignRow>,
    codes: map<string, CodeRow>,
    allowlist: map<(string, nat), string>)

  predicate ValidScope(scope: string) {
    scope in {"public", "invite", "allowlist"}
  }

  // ---- The SQL statements; None is an error that changes nothing ----

  function InsertCampaign(t: Tables, id: string, row: CampaignRow): Option<Tables> {
    if id == "" || row.name == "" || !ValidScope(row.scope) || id in t.campaigns then None
    else Some(t.(campaigns := t.campaigns[id := row]))
  }

  function ReplaceCampaign(t: Tables, id: string, row: CampaignRow): Option<Tables> {
    if id == "" || row.name == "" || !ValidScope(row.scope) || id !in t.campaigns then None
    else Some(t.(campaigns := t.campaigns[id := row]))
  }

  function DeleteCampaign(t: Tables, id: string): Option<Tables> {
    if id !in t.campaigns then None else Some(t.(campaigns := t.campaigns - {id}))
  }

  function InsertCode(t: Tables, code: string, row: CodeRow): Option<Tables> {
    if code == "" || row.campaignId == "" || row.maxUses < 0 || (row.maxUses > 0 && row.uses > row.maxUses)
       || row.campaignId !in t.campaigns || code in t.codes then None
    else Some(t.(codes := t.codes[code := row]))
  }

  function DeleteCode(t: Tables, code: string): Option<Tables> {
    if code !in t.codes then None else Some(t.(codes := t.codes - {code}))
  }

  /** INSERT OR IGNORE: an entry already there keeps its note. */
  function AllowAddress(t: Tables, id: string, address: nat, note: string): Option<Tables> {
    if id == "" || address == 0 || id !in t.campaigns then None
    else if (id, address) in t.allowlist then Some(t)
    else Some(t.(allowlist := t.allowlist[(id, address) := note]))
  }

  function DisallowAddress(t: Tables, id: string, address: nat): Option<Tables> {
    if (id, address) !in t.allowlist then None else Some(t.(allowlist := t.allowlist - {(id, address)}))
  }

  /** Every stored campaign passed the store's own checks. */
  predicate Sound(t: Tables) {
    forall id :: id in t.campaigns ==> id != "" && t.campaigns[id].name != "" && ValidScope(t.campaigns[id].scope)
  }

  /** Each undo statement takes back what its statement did, and only that. */
  lemma UndoInverts(t: Tables, id: string, row: CampaignRow, code: string, codeRow: CodeRow, address: nat, note: string)
    requires Sound(t)
    ensures InsertCampaign(t, id, row).Some? ==> DeleteCampaign(InsertCampaign(t, id, row).value, id) == Some(t)
    ensures id in t.campaigns && ReplaceCampaign(t, id, row).Some? ==>
              ReplaceCampaign(ReplaceCampaign(t, id, row).value, id, t.campaigns[id]) == Some(t)
    ensures InsertCode(t, code, codeRow).Some? ==> DeleteCode(InsertCode(t, code, codeRow).value, code) == Some(t)
    ensures AllowAddress(t, id, address, note).Some? && (id, address) !in t.allowlist ==>
              DisallowAddress(AllowAddress(t, id, address, note).value, id, address) == Some(t)
  {
    if id in t.campaigns {
      assert t.campaigns[id := row][id := t.campaigns[id]] == t.campaigns;
    } else {
      assert t.campaigns[id := row] - {id} == t.campaigns;
    }
    if code !in t.codes {
      assert t.codes[code := codeRow] - {code} == t.codes;
    }
    if (id, address) !in t.allowlist {
      assert t.allowlist[(id, address) := note] - {(id, address)} == t.allowlist;
    }
  }

  // ---- Requests ----

  /** A timestamp field: empty, unreadable or an instant. */
  datatype TimeField = Empty | Malformed | At(time: nat)

  datatype CampaignRequest = CampaignRequest(
    id: string, name: string, tokenId: string, scope: string, budgetWei: string, enabled: bool,
    startsAt: TimeField, endsAt: TimeField)

  function TimeOf(f: TimeField): Option<nat> {
    if f.At? then Some(f.time) else None
  }

  function CampaignFromRequest(req: CampaignRequest, now: nat): Option<CampaignRow> {
    if Trim(req.id) == "" || Trim(req.name) == "" || !ValidScope(Trim(req.scope))
       || (Trim(req.budgetWei) != "" && ReadBudget(req.budgetWei).None?)
       || req.startsAt.Malformed? || req.endsAt.Malformed?
       || (req.startsAt.At? && req.endsAt.At? && req.startsAt.time >= req.endsAt.time)
    then None
    else Some(CampaignRow(Trim(req.name), Trim(req.tokenId), Trim(req.scope),
                          if Trim(req.budgetWei) == "" then None else ReadBudget(req.budgetWei),
                          req.enabled, TimeOf(req.startsAt), TimeOf(req.endsAt), now, now))
  }

  /** A request is taken exactly when it names the campaign, has a known scope, a readable budget if
      any, readable times, and starts before it ends; and what is taken is what it says, trimmed. */
  lemma CampaignRequestExact(req: CampaignRequest, now: nat)
    ensures CampaignFromRequest(req, now).Some? <==>
              && Trim(req.id) != "" && Trim(req.name) != "" && Trim(req.scope) in {"public", "invite", "allowlist"}
              && (Trim(req.budgetWei) == "" || (ParseInteger(Trim(req.budgetWei)).Some? && ParseInteger(Trim(req.budgetWei)).value >= 0))
              && !req.startsAt.Malformed? && !req.endsAt.Malformed?
              && (req.startsAt.At? && req.endsAt.At? ==> req.startsAt.time < req.endsAt.time)
    ensures CampaignFromRequest(req, now).Some? ==>
              var c := CampaignFromRequest(req, now).value;
              && c.name == Trim(req.name) && c.tokenId == Trim(req.tokenId) && c.scope == Trim(req.scope)
              && c.enabled == req.enabled && c.createdAt == now && c.updatedAt == now
              && (if Trim(req.budgetWei) == "" then c.budgetWei == None
                  else c.budgetWei.Some? && ParseInteger(Trim(req.budgetWei)) == Some(c.budgetWei.value))
              && (c.startsAt.Some? <==> req.startsAt.At?) && (c.startsAt.Some? ==> c.startsAt.value == req.startsAt.time)
              && (c.endsAt.Some? <==> req.endsAt.At?) && (c.endsAt.Some? ==> c.endsAt.value == req.endsAt.time)
  {
    hide Trim, ParseInteger;
  }

  /** The change stays without its audit entry only when the write that undoes it fails too. */
  predicate Settles(w: Writes) {
    w.audit || w.rollback || !w.change
  }

  class CampaignService {
    var tables: Tables
    var audit: seq<AuditEntry>

    constructor ()
      ensures tables == Tables(map[], map[], map[]) && audit == []
    {
      tables, audit := Tables(map[], map[], map[]), [];
    }

    method CreateCampaign(req: CampaignRequest, actor: string, now: nat, w: Writes) returns (ok: bool)
      requires Sound(tables)
      modifies this
      ensures Sound(tables)
      ensures ok <==> CampaignFromRequest(req, now).Some? && Trim(req.id) !in old(tables).campaigns && w.change && w.audit
      ensures ok ==> tables == old(tables).(campaigns := old(tables).campaigns[Trim(req.id) := CampaignFromRequest(req, now).value])
      ensures audit == old(audit) + if ok then [AuditEntry("campaign_create", actor, Trim(req.id))] else []
      ensures !ok && Settles(w) ==> tables == old(tables)
    {
      hide Trim, ReadBudget, ValidScope;
      var row := CampaignFromRequest(req, now);
      var id := Trim(req.id);
      if row.None? || id in tables.campaigns || !w.change {
        return false;
      }
      var created := InsertCampaign(tables, id, row.value);
      if created.None? {
        return false;
      }
      UndoInverts(tables, id, row.value, "", CodeRow("", 0, 0, false, 0), 0, "");
      tables := created.value;
      if !w.audit {
        if w.rollback {
          var undone := DeleteCampaign(tables, id);
          if undone.Some? {
            tables := undone.value;
          }
        }
        return false;
      }
      audit := audit + [AuditEntry("campaign_create", actor, id)];
      return true;
    }

    /** The path id must match the id in the body, when there is one. */
    method UpdateCampaign(pathId: string, req: CampaignRequest, actor: string, now: nat, w: Writes) returns (ok: bool)
      requires Sound(tables)
      modifies this
      ensures Sound(tables)
      ensures ok <==> Trim(pathId) in old(tables).campaigns && Trim(req.id) in {"", Trim(pathId)}
                      && CampaignFromRequest(req.(id := Trim(pathId)), now).Some? && w.change && w.audit
      ensures ok ==>
                var row := CampaignFromRequest(req.(id := Trim(pathId)), now).value;
                tables == old(tables).(campaigns := old(tables).campaigns[Trim(pathId) :=
                                         row.(createdAt := old(tables).campaigns[Trim(pathId)].createdAt)])
      ensures audit == old(audit) + if ok then [AuditEntry("campaign_update", actor, Trim(pathId))] else []
      ensures !ok && Settles(w) ==> tables == old(tables)
    {
      hide Trim, ReadBudget, ValidScope;
      var id := Trim(pathId);
      TrimExact(pathId);
      TrimExact(id);
      if id == "" {
        return false;
      }
      if Trim(req.id) != "" && Trim(req.id) != id {
        return false;
      }
      if id !in tables.campaigns {
        return false;
      }
      var previous := tables.campaigns[id];
      var parsed := CampaignFromRequest(if Trim(req.id) == "" then req.(id := id) else req, now);
      if parsed.None? || !w.change {
        return false;
      }
      var row := parsed.value.(createdAt := previous.createdAt);
      var updated := ReplaceCampaign(tables, id, row);
      if updated.None? {
        return false;
      }
      UndoInverts(tables, id, row, "", CodeRow("", 0, 0, false, 0), 0, "");
      tables := updated.value;
      if !w.audit {
        if w.rollback {
          var undone := ReplaceCampaign(tables, id, previous);
          if undone.Some? {
            tables := undone.value;
          }
        }
        return false;
      }
      audit := audit + [AuditEntry("campaign_update", actor, id)];
      return true;
    }

    method DisableCampaign(rawId: string, actor: string, now: nat, w: Writes) returns (ok: bool)
      requires Sound(tables)
      modifies this
      ensures Sound(tables)
      ensures ok <==> Trim(rawId) in old(tables).campaigns && w.change && w.audit
      ensures ok ==> var c := old(tables).campaigns[Trim(rawId)];
                     tables == old(tables).(campaigns := old(tables).campaigns[Trim(rawId) := c.(enabled := false, updatedAt := now)])
      ensures audit == old(audit) + if ok then [AuditEntry("campaign_disable", actor, Trim(rawId))] else []
      ensures !ok && Settles(w) ==> tables == old(tables)
    {
      hide Trim, ValidScope;
      var id := Trim(rawId);
      if id == "" || id !in tables.campaigns || !w.change {
        return false;
      }
      var previous := tables.campaigns[id];
      var disabled := previous.(enabled := false, updatedAt := now);
      UndoInverts(tables, id, disabled, "", CodeRow("", 0, 0, false, 0), 0, "");
      var updated := ReplaceCampaign(tables, id, disabled);
      if updated.None? {
        return false;
      }
      tables := updated.value;
      if !w.audit {
        if w.rollback {
          var undone := ReplaceCampaign(tables, id, previous);
          if undone.Some? {
            tables := undone.value;
          }
        }
        return false;
      }
      audit := audit + [AuditEntry("campaign_disable", actor, id)];
      return true;
    }

    method CreateInvitationCode(code: string, campaignId: string, maxUses: int, enabled: bool, actor: string, now: nat,
                                w: Writes) returns (ok: bool)
      requires Sound(tables)
      modifies this
      ensures Sound(tables)
      ensures ok <==> Trim(code) != "" && maxUses >= 0 && Trim(campaignId) in old(tables).campaigns
                      && Trim(code) !in old(tables).codes && w.change && w.audit
      ensures ok ==> tables == old(tables).(codes := old(tables).codes[Trim(code) := CodeRow(Trim(campaignId), maxUses, 0, enabled, now)])
      ensures audit == old(audit) + if ok then [AuditEntry("invitation_create", actor, Trim(code))] else []
      ensures !ok && Settles(w) ==> tables == old(tables)
    {
      hide Trim, ValidScope;
      var c, campaign := Trim(code), Trim(campaignId);
      if c == "" || campaign == "" || maxUses < 0 || campaign !in tables.campaigns || c in tables.codes || !w.change {
        return false;
      }
      var row := CodeRow(campaign, maxUses, 0, enabled, now);
      UndoInverts(tables, campaign, tables.campaigns[campaign], c, row, 0, "");
      var created := InsertCode(tables, c, row);
      if created.None? {
        return false;
      }
      tables := created.value;
      if !w.audit {
        if w.rollback {
          var undone := DeleteCode(tables, c);
          if undone.Some? {
            tables := undone.value;
          }
        }
        return false;
      }
      audit := audit + [AuditEntry("invitation_create", actor, c)];
      return true;
    }

    /** An entry that was there before is not removed by a failed attempt to add it again. */
    method AddAllowlistEntry(campaignId: string, address: Option<nat>, note: string, actor: string, w: Writes)
      returns (ok: bool)
      requires Sound(tables)
      modifies this
      ensures Sound(tables)
      ensures ok <==> address.Some? && address.value != 0 && Trim(campaignId) in old(tables).campaigns && w.change && w.audit
      ensures ok ==> var key := (Trim(campaignId), address.value);
                     tables == if key in old(tables).allowlist then old(tables)
                               else old(tables).(allowlist := old(tables).allowlist[key := Trim(note)])
      ensures audit == old(audit) + if ok then [AuditEntry("campaign_allowlist_add", actor, Trim(campaignId))] else []
      ensures !ok && Settles(w) ==> tables == old(tables)
      ensures old(tables).allowlist.Keys <= tables.allowlist.Keys
    {
      hide Trim, ValidScope;
      var id := Trim(campaignId);
      if address.None? || id == "" || id !in tables.campaigns {
        return false;
      }
      var existed := (id, address.value) in tables.allowlist;
      UndoInverts(tables, id, tables.campaigns[id], "", CodeRow("", 0, 0, false, 0), address.value, Trim(note));
      var added := AllowAddress(tables, id, address.value, Trim(note));
      if added.None? || !w.change {
        return false;
      }
      tables := added.value;
      if !w.audit {
        if !existed && w.rollback {
          var undone := DisallowAddress(tables, id, address.value);
          if undone.Some? {
            tables := undone.value;
          }
        }
        return false;
      }
      audit := audit + [AuditEntry("campaign_allowlist_add", actor, id)];
      return true;
    }
  }
}
