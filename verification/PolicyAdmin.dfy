/** The runtime-policy store and the operator's edits of it, with the compensating write that
    undoes an edit whose audit entry could not be kept. */
module PolicyAdmin {
  import opened Domain
  import opened Text
  import opened Policy

  // ---- The store ----

  /** The policy with only the token ids in `done`. */
  function Restrict(p: Policy, done: set<string>): Policy {
    p.(tokenBudgets := map id | id in p.tokenBudgets && id in done :: p.tokenBudgets[id])
  }

  function ScalarRows(p: Policy): seq<Row>
    requires ValidPolicy(p)
  {
    (if p.cooldownSeconds > 0 then [Row(KeyText(Cooldown), Decimal(p.cooldownSeconds))] else [])
    + (if p.ipPerHour > 0 then [Row(KeyText(IpPerHour), Decimal(p.ipPerHour))] else [])
    + (if p.addrPerDay > 0 then [Row(KeyText(AddrPerDay), Decimal(p.addrPerDay))] else [])
    + (if p.dailyBudget.Some? then [Row(KeyText(Daily), Decimal(p.dailyBudget.value))] else [])
  }

  lemma DistinctScalarKeys()
    ensures KeyText(Cooldown) != KeyText(IpPerHour) && KeyText(Cooldown) != KeyText(AddrPerDay)
    ensures KeyText(Cooldown) != KeyText(Daily) && KeyText(IpPerHour) != KeyText(AddrPerDay)
    ensures KeyText(IpPerHour) != KeyText(Daily) && KeyText(AddrPerDay) != KeyText(Daily)
  {
    hide KeyOf, KeyText;
    KeyRoundTrip(Cooldown);
    KeyRoundTrip(IpPerHour);
    KeyRoundTrip(AddrPerDay);
    KeyRoundTrip(Daily);
  }

  lemma ScalarsHold(p: Policy)
    requires ValidPolicy(p)
    ensures Holds(ScalarRows(p), Restrict(p, {}))
  {
    hide KeyText, Decimal;
    DistinctScalarKeys();
  }

  lemma RestrictValid(p: Policy, done: set<string>)
    requires ValidPolicy(p)
    ensures ValidPolicy(Restrict(p, done))
    ensures done == p.tokenBudgets.Keys ==> Restrict(p, done) == p
  {
    if done == p.tokenBudgets.Keys {
      assert Restrict(p, done).tokenBudgets == p.tokenBudgets;
    }
  }

  /** One more token id without a budget writes nothing. */
  lemma SkipToken(rows: seq<Row>, p: Policy, done: set<string>, id: string)
    requires ValidPolicy(p) && id in p.tokenBudgets && id !in done && p.tokenBudgets[id].None?
    requires ValidPolicy(Restrict(p, done)) && Holds(rows, Restrict(p, done)) && NoClash(Restrict(p, done))
    ensures ValidPolicy(Restrict(p, done + {id})) && Holds(rows, Restrict(p, done + {id}))
    ensures NoClash(Restrict(p, done + {id}))
  {
    hide KeyText, Decimal, Trim, UniqueKeys;
    RestrictValid(p, done + {id});
    var old', new' := Restrict(p, done), Restrict(p, done + {id});
    SameEntries(old', new');
  }

  lemma SameEntries(p: Policy, q: Policy)
    requires ValidPolicy(p) && ValidPolicy(q) && q == p.(tokenBudgets := q.tokenBudgets)
    requires forall id :: id in p.tokenBudgets && p.tokenBudgets[id].Some? ==> id in q.tokenBudgets && q.tokenBudgets[id] == p.tokenBudgets[id]
    requires forall id :: id in q.tokenBudgets && q.tokenBudgets[id].Some? ==> id in p.tokenBudgets && q.tokenBudgets[id] == p.tokenBudgets[id]
    ensures forall r :: Entry(r, p) <==> Entry(r, q)
  {
    hide KeyText, Decimal, Trim;
    forall r: Row
      ensures Entry(r, p) <==> Entry(r, q)
    {
      if id :| TokenEntry(r, p.tokenBudgets, id) {
        assert TokenEntry(r, q.tokenBudgets, id);
      }
      if id :| TokenEntry(r, q.tokenBudgets, id) {
        assert TokenEntry(r, p.tokenBudgets, id);
      }
    }
  }

  function TokenRow(id: string, budget: nat): Row {
    Row(KeyText(TokenBudget(Trim(id))), Decimal(budget))
  }

  predicate HasRowKey(rows: seq<Row>, key: string) {
    exists r :: r in rows && r.key == key
  }

  /** One more token budget: a new row, or a primary-key conflict exactly when its trimmed id was
      written before. */
  lemma InsertToken(rows: seq<Row>, p: Policy, done: set<string>, id: string)
    requires ValidPolicy(p) && id in p.tokenBudgets && id !in done && p.tokenBudgets[id].Some?
    requires ValidPolicy(Restrict(p, done)) && Holds(rows, Restrict(p, done)) && NoClash(Restrict(p, done))
    ensures var row := TokenRow(id, p.tokenBudgets[id].value);
            if HasRowKey(rows, row.key) then !NoClash(p)
            else
              && ValidPolicy(Restrict(p, done + {id})) && Holds(rows + [row], Restrict(p, done + {id}))
              && NoClash(Restrict(p, done + {id}))
  {
    hide KeyText, Decimal, Trim, KeyOf;
    var row := TokenRow(id, p.tokenBudgets[id].value);
    var part := Restrict(p, done);
    RestrictValid(p, done + {id});
    TrimExact(id);
    KeyRoundTrip(TokenBudget(Trim(id)));
    if HasRowKey(rows, row.key) {
      var r :| r in rows && r.key == row.key;
      EntryKey(r, part);
      var other :| TokenEntry(r, part.tokenBudgets, other) && Trim(other) == Trim(id);
    } else {
      InsertedEntry(part, Restrict(p, done + {id}), id, row);
      InsertedNoClash(rows, p, done, id);
    }
  }

  lemma InsertedEntry(part: Policy, more: Policy, id: string, row: Row)
    requires ValidPolicy(part) && ValidPolicy(more) && more == part.(tokenBudgets := more.tokenBudgets)
    requires id in more.tokenBudgets && more.tokenBudgets[id].Some? && id !in part.tokenBudgets
    requires more.tokenBudgets == part.tokenBudgets[id := more.tokenBudgets[id]]
    requires row == TokenRow(id, more.tokenBudgets[id].value)
    ensures forall r :: Entry(r, more) <==> Entry(r, part) || r == row
  {
    hide KeyText, Decimal, Trim;
    forall r: Row
      ensures Entry(r, more) <==> Entry(r, part) || r == row
    {
      assert TokenEntry(row, more.tokenBudgets, id);
      if k :| TokenEntry(r, part.tokenBudgets, k) {
        assert TokenEntry(r, more.tokenBudgets, k);
      }
      if k :| TokenEntry(r, more.tokenBudgets, k) {
        assert k != id ==> TokenEntry(r, part.tokenBudgets, k);
      }
    }
  }

  lemma InsertedNoClash(rows: seq<Row>, p: Policy, done: set<string>, id: string)
    requires ValidPolicy(p) && id in p.tokenBudgets && id !in done && p.tokenBudgets[id].Some?
    requires ValidPolicy(Restrict(p, done)) && Holds(rows, Restrict(p, done)) && NoClash(Restrict(p, done))
    requires !HasRowKey(rows, KeyText(TokenBudget(Trim(id))))
    ensures NoClash(Restrict(p, done + {id}))
  {
    hide KeyText, Decimal, Trim;
    var part := Restrict(p, done);
    forall other | other in part.tokenBudgets && part.tokenBudgets[other].Some?
      ensures Trim(other) != Trim(id)
    {
      var r := TokenRow(other, part.tokenBudgets[other].value);
      assert TokenEntry(r, part.tokenBudgets, other);
      assert Entry(r, part);
    }
  }

  class PolicyStore {
    /** The runtime_policy table in the order a query returns it. */
    var rows: seq<Row>

    constructor ()
      ensures rows == []
    {
      rows := [];
    }

    method GetRuntimePolicy() returns (p: Policy)
      ensures p == Observed(rows)
    {
      hide KeyOf, ReadInt, ReadBudget;
      p := NONE;
      for i := 0 to |rows|
        invariant p == Observed(rows[..i])
      {
        var r := rows[i];
        assert rows[..i + 1][..i] == rows[..i];
        match KeyOf(r.key) {
          case Cooldown => p := p.(cooldownSeconds := ReadInt(r.value));
          case IpPerHour => p := p.(ipPerHour := ReadInt(r.value));
          case AddrPerDay => p := p.(addrPerDay := ReadInt(r.value));
          case Daily => p := p.(dailyBudget := ReadBudget(r.value));
          case TokenBudget(id) =>
            var parsed := ReadBudget(r.value);
            if parsed.Some? {
              p := p.(tokenBudgets := p.tokenBudgets[id := parsed]);
            }
          case Unknown =>
        }
      }
      assert rows[..|rows|] == rows;
    }

    /** Replaces the table in one transaction. `works` is whether the database does; token ids are
        visited in no particular order. */
    method SetRuntimePolicy(p: Policy, works: bool) returns (ok: bool)
      modifies this
      ensures ok <==> works && ValidPolicy(p) && NoClash(p)
      ensures ok ==> Holds(rows, p)
      ensures !ok ==> rows == old(rows)
    {
      hide KeyText, Decimal, Trim, NoClash, Holds, Restrict;
      if !works || !ValidPolicy(p) {
        return false;
      }
      var fresh' := ScalarRows(p);
      ScalarsHold(p);
      var todo := p.tokenBudgets.Keys;
      ghost var done: set<string> := {};
      EmptyNoClash(p);
      RestrictValid(p, {});
      while todo != {}
        invariant done == p.tokenBudgets.Keys - todo && todo <= p.tokenBudgets.Keys && rows == old(rows)
        invariant ValidPolicy(Restrict(p, done)) && Holds(fresh', Restrict(p, done)) && NoClash(Restrict(p, done))
        decreases |todo|
      {
        var id :| id in todo;
        var budget := p.tokenBudgets[id];
        if budget.None? {
          SkipToken(fresh', p, done, id);
        } else {
          var row := TokenRow(id, budget.value);
          InsertToken(fresh', p, done, id);
          if HasRowKey(fresh', row.key) {
            return false;
          }
          fresh' := fresh' + [row];
        }
        todo := todo - {id};
        done := done + {id};
      }
      RestrictValid(p, done);
      rows := fresh';
      return true;
    }

    method ClearRuntimePolicy(works: bool) returns (ok: bool)
      modifies this
      ensures ok == works && rows == if works then [] else old(rows)
      ensures ok ==> Observed(rows) == NONE
    {
      if works {
        rows := [];
      }
      return works;
    }
  }

  lemma EmptyNoClash(p: Policy)
    ensures NoClash(Restrict(p, {}))
  {
  }

  // ---- The operator's edits ----

  datatype Request = Request(cooldownSeconds: int, ipPerHour: int, addrPerDay: int, dailyBudget: string,
                             tokenBudgets: map<string, string>)

  predicate GoodRequest(req: Request) {
    && req.cooldownSeconds >= 0 && req.ipPerHour >= 0 && req.addrPerDay >= 0
    && (Trim(req.dailyBudget) != "" ==> ReadBudget(req.dailyBudget).Some?)
    && (forall id :: id in req.tokenBudgets ==> Trim(id) != "" && ReadBudget(req.tokenBudgets[id]).Some?)
  }

  /** The policy asks for what the request says, under trimmed token ids. */
  predicate Asks(p: Policy, req: Request, ids: set<string>)
    requires ids <= req.tokenBudgets.Keys
  {
    && p.cooldownSeconds == req.cooldownSeconds && p.ipPerHour == req.ipPerHour && p.addrPerDay == req.addrPerDay
    && p.dailyBudget == (if Trim(req.dailyBudget) == "" then None else ReadBudget(req.dailyBudget))
    && (forall id :: id in ids ==> Trim(id) in p.tokenBudgets)
    && (forall t :: t in p.tokenBudgets ==> Sourced(t, p.tokenBudgets[t], req, ids))
  }

  /** The budget is the one that some id, trimmed to t, carries in the request. */
  predicate Sourced(t: string, budget: Option<int>, req: Request, ids: set<string>)
    requires ids <= req.tokenBudgets.Keys
  {
    && budget.Some? && t != "" && IsTrimmed(t)
    && exists id :: id in ids && Trim(id) == t && ReadBudget(req.tokenBudgets[id]) == budget
  }

  lemma AsksNoTokens(p: Policy, req: Request)
    requires p.cooldownSeconds == req.cooldownSeconds && p.ipPerHour == req.ipPerHour && p.addrPerDay == req.addrPerDay
    requires p.dailyBudget == (if Trim(req.dailyBudget) == "" then None else ReadBudget(req.dailyBudget))
    requires p.tokenBudgets == map[]
    ensures Asks(p, req, {})
  {
  }

  lemma AsksMore(p: Policy, req: Request, done: set<string>, id: string)
    requires done <= req.tokenBudgets.Keys && id in req.tokenBudgets && Asks(p, req, done)
    requires Trim(id) != "" && ReadBudget(req.tokenBudgets[id]).Some?
    ensures Asks(p.(tokenBudgets := p.tokenBudgets[Trim(id) := ReadBudget(req.tokenBudgets[id])]), req, done + {id})
  {
    hide Trim, ReadBudget;
    TrimExact(id);
    var t, budget := Trim(id), ReadBudget(req.tokenBudgets[id]);
    var q := p.(tokenBudgets := p.tokenBudgets[t := budget]);
    assert Sourced(t, budget, req, done + {id});
    forall u | u in q.tokenBudgets && u != t
      ensures Sourced(u, q.tokenBudgets[u], req, done + {id})
    {
      assert Sourced(u, p.tokenBudgets[u], req, done);
    }
  }

  method PolicyFromRequest(req: Request) returns (r: Option<Policy>)
    ensures r.Some? <==> GoodRequest(req)
    ensures r.Some? ==> Asks(r.value, req, req.tokenBudgets.Keys)
  {
    hide Trim, ReadBudget, Asks;
    if req.cooldownSeconds < 0 || req.ipPerHour < 0 || req.addrPerDay < 0 {
      return None;
    }
    var p := NONE.(cooldownSeconds := req.cooldownSeconds, ipPerHour := req.ipPerHour, addrPerDay := req.addrPerDay);
    if Trim(req.dailyBudget) != "" {
      var v := ReadBudget(req.dailyBudget);
      if v.None? {
        return None;
      }
      p := p.(dailyBudget := v);
    }
    var todo := req.tokenBudgets.Keys;
    ghost var done: set<string> := {};
    AsksNoTokens(p, req);
    while todo != {}
      invariant done == req.tokenBudgets.Keys - todo && todo <= req.tokenBudgets.Keys
      invariant forall id :: id in done ==> Trim(id) != "" && ReadBudget(req.tokenBudgets[id]).Some?
      invariant Asks(p, req, done)
      decreases |todo|
    {
      var id :| id in todo;
      var t := Trim(id);
      if t == "" {
        return None;
      }
      var v := ReadBudget(req.tokenBudgets[id]);
      if v.None? {
        return None;
      }
      AsksMore(p, req, done, id);
      p := p.(tokenBudgets := p.tokenBudgets[t := v]);
      assert done + {id} == req.tokenBudgets.Keys - (todo - {id});
      todo := todo - {id};
      done := done + {id};
    }
    assert done == req.tokenBudgets.Keys;
    return Some(p);
  }

  /** A request's policy is its own normal form, so it is always written without a clash. */
  lemma AskedIsNormal(p: Policy, req: Request)
    requires GoodRequest(req) && Asks(p, req, req.tokenBudgets.Keys)
    ensures ValidPolicy(p) && NoClash(p) && IsNormalForm(p, p)
    ensures p.cooldownSeconds == req.cooldownSeconds && p.ipPerHour == req.ipPerHour && p.addrPerDay == req.addrPerDay
  {
    hide ReadBudget, Trim;
    forall t | t in p.tokenBudgets
      ensures Trim(t) == t && p.tokenBudgets[t].value >= 0
    {
      TrimExact(t);
      assert Sourced(t, p.tokenBudgets[t], req, req.tokenBudgets.Keys);
      var id :| id in req.tokenBudgets && Trim(id) == t && ReadBudget(req.tokenBudgets[id]) == p.tokenBudgets[t];
    }
  }

  datatype AuditEntry = AuditEntry(action: string, actor: string, target: string)

  /** Whether each write of an operation goes through. */
  datatype Writes = Writes(change: bool, audit: bool, rollback: bool)

  class PolicyService {
    const store: PolicyStore
    var audit: seq<AuditEntry>

    constructor (store: PolicyStore)
      ensures this.store == store && audit == []
    {
      this.store := store;
      audit := [];
    }

    /** On success the table reads as the request asks and the edit is audited; on failure neither
        happens, unless both the audit write and the write that undoes the edit fail. */
    method SetRuntimePolicy(req: Request, actor: string, w: Writes) returns (ok: bool)
      requires req.cooldownSeconds <= MAX_INT && req.ipPerHour <= MAX_INT && req.addrPerDay <= MAX_INT
      modifies this, store
      ensures ok <==> GoodRequest(req) && w.change && w.audit
      ensures ok ==> Asks(Observed(store.rows), req, req.tokenBudgets.Keys)
                     && audit == old(audit) + [AuditEntry("set_runtime_policy", actor, "policy")]
      ensures ok ==> Observed(store.rows).cooldownSeconds == req.cooldownSeconds && Observed(store.rows).ipPerHour == req.ipPerHour
                     && Observed(store.rows).addrPerDay == req.addrPerDay
      ensures !ok ==> audit == old(audit)
      ensures !ok && (w.rollback || w.audit || !w.change || !GoodRequest(req)) ==>
                Observed(store.rows) == old(Observed(store.rows))
      ensures GoodRequest(req) && w.change && !w.audit && !w.rollback ==>
                Asks(Observed(store.rows), req, req.tokenBudgets.Keys)
    {
      hide Observed, ValidPolicy, NoClash, IsNormalForm, Holds, GoodRequest, Asks;
      ghost var rows := store.rows;
      var before := store.GetRuntimePolicy();
      var p := PolicyFromRequest(req);
      if p.None? {
        return false;
      }
      var set' := store.SetRuntimePolicy(p.value, w.change);
      AskedIsNormal(p.value, req);
      if !set' {
        return false;
      }
      AskedIsWritten(store.rows, p.value, req);
      if !w.audit {
        ObservedIsNormal(rows);
        var undone := store.SetRuntimePolicy(before, w.rollback);
        if undone {
          RewriteChangesNothing(rows, store.rows);
        }
        return false;
      }
      audit := audit + [AuditEntry("set_runtime_policy", actor, "policy")];
      return true;
    }

    method ClearRuntimePolicy(actor: string, w: Writes) returns (ok: bool)
      modifies this, store
      ensures ok <==> w.change && w.audit
      ensures ok ==> Observed(store.rows) == NONE
                     && audit == old(audit) + [AuditEntry("clear_runtime_policy", actor, "policy")]
      ensures !ok ==> audit == old(audit)
      ensures !ok && (w.rollback || !w.change) ==> Observed(store.rows) == old(Observed(store.rows))
    {
      hide ValidPolicy, NoClash, IsNormalForm, Holds, Applied;
      ghost var rows := store.rows;
      var before := store.GetRuntimePolicy();
      var cleared := store.ClearRuntimePolicy(w.change);
      if !cleared {
        return false;
      }
      if !w.audit {
        ObservedIsNormal(rows);
        var undone := store.SetRuntimePolicy(before, w.rollback);
        if undone {
          RewriteChangesNothing(rows, store.rows);
        }
        return false;
      }
      audit := audit + [AuditEntry("clear_runtime_policy", actor, "policy")];
      return true;
    }
  }

  lemma AskedIsWritten(rows: seq<Row>, p: Policy, req: Request)
    requires GoodRequest(req) && Asks(p, req, req.tokenBudgets.Keys) && IntsFit(p)
    requires ValidPolicy(p) && Holds(rows, p)
    ensures Observed(rows) == p
  {
    hide Observed, ValidPolicy, NoClash, IsNormalForm, Holds, GoodRequest, Asks;
    AskedIsNormal(p, req);
    PolicyRoundTrip(rows, p);
    NormalFormUnique(Observed(rows), p, p);
  }
}
