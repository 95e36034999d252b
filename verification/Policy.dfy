/** The runtime-policy overrides: how they are written to key/value rows, read back, and edited by
    an operator with an audit trail. */
module Policy {
  import opened Domain
  import opened Text

  // ---- Integers as text ----

  function Unsigned(s: string): Option<int> {
    if s == "" || !IsDigits(s) then None else Some(DigitsValue(s))
  }

  /** big.Int.SetString(s, 10): an optional sign and at least one digit. */
  function ParseInteger(s: string): Option<int> {
    if s != "" && s[0] == '-' then (if Unsigned(s[1..]).Some? then Some(-Unsigned(s[1..]).value) else None)
    else if s != "" && s[0] == '+' then Unsigned(s[1..])
    else Unsigned(s)
  }

  lemma {:induction false} DecimalValue(n: nat)
    ensures DigitsValue(Decimal(n)) == n
  {
    if n >= 10 {
      DecimalValue(n / 10);
    }
  }

  /** Printing and parsing a non-negative integer, as stored, gives it back. */
  lemma ParseDecimal(n: nat)
    ensures ParseInteger(Trim(Decimal(n))) == Some(n)
  {
    var s := Decimal(n);
    DecimalValue(n);
    assert '0' <= s[0] <= '9' && '0' <= s[|s| - 1] <= '9';
    TrimExact(s);
  }

  /** What parses is an optional sign and at least one digit, with the value it denotes; nothing else
      parses. */
  lemma ParseExactly(s: string)
    ensures s != "" && IsDigits(s) ==> ParseInteger(s) == Some(DigitsValue(s))
    ensures s != "" && IsDigits(s) ==> ParseInteger("+" + s) == Some(DigitsValue(s)) && ParseInteger("-" + s) == Some(-(DigitsValue(s) as int))
    ensures ParseInteger(s).Some? ==> s != "" && (IsDigits(s) || (s[0] in {'+', '-'} && |s| > 1 && IsDigits(s[1..])))
  {
    hide DigitsValue;
    SignDropped('+', s);
    SignDropped('-', s);
    if s != "" && IsDigits(s) {
      assert '0' <= s[0] <= '9';
    }
  }

  lemma SignDropped(c: char, s: string)
    ensures ([c] + s)[0] == c && ([c] + s)[1..] == s
  {
  }

  /** An override that is an int must be positive and fit; a budget must not be negative. */
  lemma OverridesExactly(raw: string)
    ensures ReadInt(raw) > 0 <==> ParseInteger(Trim(raw)).Some? && 0 < ParseInteger(Trim(raw)).value <= 0x7fff_ffff_ffff_ffff
    ensures ReadInt(raw) > 0 ==> ParseInteger(Trim(raw)) == Some(ReadInt(raw))
    ensures ReadBudget(raw).Some? <==> ParseInteger(Trim(raw)).Some? && ParseInteger(Trim(raw)).value >= 0
    ensures ReadBudget(raw).Some? ==> ParseInteger(Trim(raw)) == Some(ReadBudget(raw).value)
  {
    hide ParseInteger, Trim;
  }

  const MAX_INT: nat := 0x7fff_ffff_ffff_ffff

  /** parseRuntimePolicyInt: zero for anything that is not a positive int. */
  function ReadInt(raw: string): nat {
    match ParseInteger(Trim(raw))
    case None => 0
    case Some(v) => if v <= 0 || v > MAX_INT then 0 else v
  }

  /** parseRuntimePolicyBig: nothing for anything that is not a non-negative integer. */
  function ReadBudget(raw: string): Option<nat> {
    match ParseInteger(Trim(raw))
    case None => None
    case Some(v) => if v < 0 then None else Some(v)
  }

  // ---- Policies and rows ----

  /** Zero ints and missing budgets mean no override. */
  datatype Policy = Policy(
    cooldownSeconds: int, ipPerHour: int, addrPerDay: int,
    dailyBudget: Option<int>, tokenBudgets: map<string, Option<int>>)

  const NONE := Policy(0, 0, 0, None, map[])

  datatype Row = Row(key: string, value: string)

  datatype Key = Cooldown | IpPerHour | AddrPerDay | Daily | TokenBudget(id: string) | Unknown

  const PREFIX := "token_daily_budget_wei:"

  function KeyText(k: Key): string {
    match k
    case Cooldown => "cooldown_seconds"
    case IpPerHour => "rate_limit_ip_per_hour"
    case AddrPerDay => "rate_limit_addr_per_day"
    case Daily => "daily_budget_wei"
    case TokenBudget(id) => PREFIX + id
    case Unknown => ""
  }

  function KeyOf(key: string): Key {
    if key == "cooldown_seconds" then Cooldown
    else if key == "rate_limit_ip_per_hour" then IpPerHour
    else if key == "rate_limit_addr_per_day" then AddrPerDay
    else if key == "daily_budget_wei" then Daily
    else if PREFIX <= key && Trim(key[|PREFIX|..]) != "" then TokenBudget(Trim(key[|PREFIX|..]))
    else Unknown
  }

  /** Keys written for a trimmed, non-empty token id are read back as that id. */
  lemma KeyRoundTrip(k: Key)
    requires k.TokenBudget? ==> k.id != "" && IsTrimmed(k.id)
    ensures KeyOf(KeyText(k)) == k
  {
    match k
    case TokenBudget(id) =>
      var key := PREFIX + id;
      assert key[0] == 't' && key[|PREFIX|..] == id;
      TrimExact(id);
    case _ =>
  }

  lemma ScalarKey(key: string)
    ensures !KeyOf(key).TokenBudget? && !KeyOf(key).Unknown? ==> key == KeyText(KeyOf(key))
    ensures KeyOf(key).TokenBudget? ==> IsTrimmed(KeyOf(key).id) && KeyOf(key).id != ""
  {
    if KeyOf(key).TokenBudget? {
      TrimExact(key[|PREFIX|..]);
    }
  }

  // ---- Reading ----

  /** What one row contributes. */
  function Applied(p: Policy, r: Row): Policy {
    match KeyOf(r.key)
    case Cooldown => p.(cooldownSeconds := ReadInt(r.value))
    case IpPerHour => p.(ipPerHour := ReadInt(r.value))
    case AddrPerDay => p.(addrPerDay := ReadInt(r.value))
    case Daily => p.(dailyBudget := ReadBudget(r.value))
    case TokenBudget(id) =>
      if ReadBudget(r.value).Some? then p.(tokenBudgets := p.tokenBudgets[id := ReadBudget(r.value)]) else p
    case Unknown => p
  }

  /** The policy that a table, read in row order, stands for. */
  function Observed(rows: seq<Row>): Policy {
    if rows == [] then NONE else Applied(Observed(rows[..|rows| - 1]), rows[|rows| - 1])
  }

  predicate Readable(k: Key, raw: string) {
    k.TokenBudget? ==> ReadBudget(raw).Some?
  }

  /** The last value under a key; unreadable token budgets do not count. */
  function Last(rows: seq<Row>, k: Key): Option<string> {
    if rows == [] then None
    else
      var r := rows[|rows| - 1];
      if KeyOf(r.key) == k && Readable(k, r.value) then Some(r.value) else Last(rows[..|rows| - 1], k)
  }

  lemma {:induction false} LastIsARow(rows: seq<Row>, k: Key)
    ensures Last(rows, k).Some? ==> exists r :: r in rows && KeyOf(r.key) == k && Readable(k, r.value) && r.value == Last(rows, k).value
    ensures Last(rows, k).None? ==> forall r :: r in rows && KeyOf(r.key) == k ==> !Readable(k, r.value)
  {
    hide KeyOf, Readable;
    if rows != [] {
      LastIsARow(rows[..|rows| - 1], k);
      assert rows == rows[..|rows| - 1] + [rows[|rows| - 1]];
    }
  }

  function IntUnder(rows: seq<Row>, k: Key): nat {
    match Last(rows, k)
    case None => 0
    case Some(v) => ReadInt(v)
  }

  function BudgetUnder(rows: seq<Row>, k: Key): Option<nat> {
    match Last(rows, k)
    case None => None
    case Some(v) => ReadBudget(v)
  }

  lemma {:induction false} ScalarsByKey(rows: seq<Row>)
    ensures var p := Observed(rows);
            && p.cooldownSeconds == IntUnder(rows, Cooldown) && p.ipPerHour == IntUnder(rows, IpPerHour)
            && p.addrPerDay == IntUnder(rows, AddrPerDay) && p.dailyBudget == BudgetUnder(rows, Daily)
  {
    hide KeyOf, ReadInt, ReadBudget;
    if rows != [] {
      ScalarsByKey(rows[..|rows| - 1]);
    }
  }

  lemma {:induction false} TokenByKey(rows: seq<Row>, id: string)
    ensures id in Observed(rows).tokenBudgets <==> Last(rows, TokenBudget(id)).Some?
    ensures id in Observed(rows).tokenBudgets ==>
              Observed(rows).tokenBudgets[id] == BudgetUnder(rows, TokenBudget(id))
  {
    hide KeyOf, ReadInt, ReadBudget;
    if rows != [] {
      TokenByKey(rows[..|rows| - 1], id);
    }
  }

  /** Reading a table is looking each override up on its own. */
  lemma ObservedByKey(rows: seq<Row>)
    ensures var p := Observed(rows);
            && p.cooldownSeconds == IntUnder(rows, Cooldown) && p.ipPerHour == IntUnder(rows, IpPerHour)
            && p.addrPerDay == IntUnder(rows, AddrPerDay) && p.dailyBudget == BudgetUnder(rows, Daily)
    ensures forall id :: id in Observed(rows).tokenBudgets <==> Last(rows, TokenBudget(id)).Some?
    ensures forall id :: id in Observed(rows).tokenBudgets ==>
              Observed(rows).tokenBudgets[id] == BudgetUnder(rows, TokenBudget(id))
  {
    hide Observed, Last, BudgetUnder, IntUnder;
    ScalarsByKey(rows);
    forall id: string
      ensures id in Observed(rows).tokenBudgets <==> Last(rows, TokenBudget(id)).Some?
      ensures id in Observed(rows).tokenBudgets ==>
                Observed(rows).tokenBudgets[id] == BudgetUnder(rows, TokenBudget(id))
    {
      TokenByKey(rows, id);
    }
  }

  // ---- Writing ----

  predicate ValidPolicy(p: Policy) {
    && p.cooldownSeconds >= 0 && p.ipPerHour >= 0 && p.addrPerDay >= 0
    && (p.dailyBudget.Some? ==> p.dailyBudget.value >= 0)
    && (forall id :: id in p.tokenBudgets ==>
          Trim(id) != "" && (p.tokenBudgets[id].Some? ==> p.tokenBudgets[id].value >= 0))
  }

  /** No two token ids with budgets are the same once trimmed. */
  predicate NoClash(p: Policy) {
    forall a, b | a in p.tokenBudgets && b in p.tokenBudgets && a != b ::
      p.tokenBudgets[a].Some? && p.tokenBudgets[b].Some? ==> Trim(a) != Trim(b)
  }

  /** The ints fit the machine's. */
  predicate IntsFit(p: Policy) {
    p.cooldownSeconds <= MAX_INT && p.ipPerHour <= MAX_INT && p.addrPerDay <= MAX_INT
  }

  ghost predicate IntEntry(r: Row, k: Key, n: int)
    requires n >= 0
  {
    n > 0 && r == Row(KeyText(k), Decimal(n))
  }

  ghost predicate TokenEntry(r: Row, tokens: map<string, Option<int>>, id: string)
  {
    id in tokens && tokens[id].Some? && tokens[id].value >= 0
    && r == Row(KeyText(TokenBudget(Trim(id))), Decimal(tokens[id].value))
  }

  /** The rows a policy is written as. */
  ghost predicate Entry(r: Row, p: Policy)
    requires ValidPolicy(p)
  {
    || IntEntry(r, Cooldown, p.cooldownSeconds) || IntEntry(r, IpPerHour, p.ipPerHour)
    || IntEntry(r, AddrPerDay, p.addrPerDay)
    || (p.dailyBudget.Some? && r == Row(KeyText(Daily), Decimal(p.dailyBudget.value)))
    || exists id :: TokenEntry(r, p.tokenBudgets, id)
  }

  predicate UniqueKeys(rows: seq<Row>) {
    forall i, j :: 0 <= i < j < |rows| ==> rows[i].key != rows[j].key
  }

  /** The table holds exactly the rows of a policy, in some order. */
  ghost predicate Holds(rows: seq<Row>, p: Policy)
    requires ValidPolicy(p)
  {
    UniqueKeys(rows) && forall r :: r in rows <==> Entry(r, p)
  }

  /** The normal form of a policy: ids trimmed, absent budgets dropped, the rest as it was. */
  predicate IsNormalForm(q: Policy, p: Policy) {
    && q.cooldownSeconds == p.cooldownSeconds && q.ipPerHour == p.ipPerHour && q.addrPerDay == p.addrPerDay
    && q.dailyBudget == p.dailyBudget
    && (forall id :: id in p.tokenBudgets && p.tokenBudgets[id].Some? ==>
          Trim(id) in q.tokenBudgets && q.tokenBudgets[Trim(id)] == p.tokenBudgets[id])
    && (forall t :: t in q.tokenBudgets ==>
          exists id :: id in p.tokenBudgets && p.tokenBudgets[id].Some? && Trim(id) == t)
  }

  lemma NormalFormUnique(q: Policy, r: Policy, p: Policy)
    requires IsNormalForm(q, p) && IsNormalForm(r, p)
    ensures q == r
  {
    forall t | t in q.tokenBudgets
      ensures t in r.tokenBudgets && q.tokenBudgets[t] == r.tokenBudgets[t]
    {
      var id :| id in p.tokenBudgets && p.tokenBudgets[id].Some? && Trim(id) == t;
    }
    forall t | t in r.tokenBudgets
      ensures t in q.tokenBudgets
    {
      var id :| id in p.tokenBudgets && p.tokenBudgets[id].Some? && Trim(id) == t;
    }
    assert q.tokenBudgets == r.tokenBudgets;
  }

  /** Which override a written row is. */
  lemma EntryKey(r: Row, p: Policy)
    requires ValidPolicy(p) && Entry(r, p)
    ensures match KeyOf(r.key)
            case Cooldown => IntEntry(r, Cooldown, p.cooldownSeconds)
            case IpPerHour => IntEntry(r, IpPerHour, p.ipPerHour)
            case AddrPerDay => IntEntry(r, AddrPerDay, p.addrPerDay)
            case Daily => p.dailyBudget.Some? && r.value == Decimal(p.dailyBudget.value)
            case TokenBudget(t) => exists id :: TokenEntry(r, p.tokenBudgets, id) && Trim(id) == t
            case Unknown => false
  {
    hide KeyText, KeyOf;
    KeyRoundTrip(Cooldown);
    KeyRoundTrip(IpPerHour);
    KeyRoundTrip(AddrPerDay);
    KeyRoundTrip(Daily);
    if id :| TokenEntry(r, p.tokenBudgets, id) {
      TrimExact(id);
      KeyRoundTrip(TokenBudget(Trim(id)));
    }
  }

  lemma ReadEntry(n: nat)
    ensures ReadBudget(Decimal(n)) == Some(n)
    ensures n <= MAX_INT ==> ReadInt(Decimal(n)) == n
  {
    ParseDecimal(n);
  }

  lemma IntReadsBack(rows: seq<Row>, p: Policy, k: Key, n: int)
    requires ValidPolicy(p) && Holds(rows, p) && 0 <= n <= MAX_INT
    requires k in {Cooldown, IpPerHour, AddrPerDay}
    requires n == if k == Cooldown then p.cooldownSeconds else if k == IpPerHour then p.ipPerHour else p.addrPerDay
    ensures IntUnder(rows, k) == n
  {
    hide KeyOf, KeyText, ReadInt, Decimal, ReadBudget;
    LastIsARow(rows, k);
    ReadEntry(n);
    KeyRoundTrip(k);
    assert n > 0 ==> Entry(Row(KeyText(k), Decimal(n)), p);
    if Last(rows, k).Some? {
      var r :| r in rows && KeyOf(r.key) == k && Readable(k, r.value) && r.value == Last(rows, k).value;
      EntryKey(r, p);
    }
  }

  lemma DailyReadsBack(rows: seq<Row>, p: Policy)
    requires ValidPolicy(p) && Holds(rows, p)
    ensures BudgetUnder(rows, Daily) == p.dailyBudget
  {
    hide KeyOf, KeyText, ReadInt, Decimal, ReadBudget;
    LastIsARow(rows, Daily);
    if p.dailyBudget.Some? {
      ReadEntry(p.dailyBudget.value);
    }
    KeyRoundTrip(Daily);
    assert p.dailyBudget.Some? ==> Entry(Row(KeyText(Daily), Decimal(p.dailyBudget.value)), p);
    if Last(rows, Daily).Some? {
      var r :| r in rows && KeyOf(r.key) == Daily && r.value == Last(rows, Daily).value;
      EntryKey(r, p);
    }
  }

  lemma TokenReadsBack(rows: seq<Row>, p: Policy, id: string)
    requires ValidPolicy(p) && Holds(rows, p) && NoClash(p)
    requires id in p.tokenBudgets && p.tokenBudgets[id].Some?
    ensures Last(rows, TokenBudget(Trim(id))).Some? && BudgetUnder(rows, TokenBudget(Trim(id))) == p.tokenBudgets[id]
  {
    hide KeyOf, KeyText, ReadInt, Decimal, ReadBudget, Trim;
    var k, n := TokenBudget(Trim(id)), p.tokenBudgets[id].value;
    var r := Row(KeyText(k), Decimal(n));
    assert TokenEntry(r, p.tokenBudgets, id);
    assert Entry(r, p);
    TrimExact(id);
    KeyRoundTrip(k);
    ReadEntry(n);
    LastIsARow(rows, k);
    var s :| s in rows && KeyOf(s.key) == k && Readable(k, s.value) && s.value == Last(rows, k).value;
    EntryKey(s, p);
  }

  lemma OnlyWrittenTokens(rows: seq<Row>, p: Policy, t: string)
    requires ValidPolicy(p) && Holds(rows, p) && Last(rows, TokenBudget(t)).Some?
    ensures exists id :: id in p.tokenBudgets && p.tokenBudgets[id].Some? && Trim(id) == t
  {
    hide KeyOf, KeyText, ReadInt, Decimal, ReadBudget, Trim;
    var k := TokenBudget(t);
    LastIsARow(rows, k);
    var r :| r in rows && KeyOf(r.key) == k && Readable(k, r.value) && r.value == Last(rows, k).value;
    EntryKey(r, p);
  }

  /** Reading what a policy was written as gives its normal form, in whatever order the rows come. */
  lemma PolicyRoundTrip(rows: seq<Row>, p: Policy)
    requires ValidPolicy(p) && IntsFit(p) && NoClash(p) && Holds(rows, p)
    ensures IsNormalForm(Observed(rows), p)
  {
    hide Last, IntUnder, BudgetUnder, Observed, Holds, Trim;
    ObservedByKey(rows);
    IntReadsBack(rows, p, Cooldown, p.cooldownSeconds);
    IntReadsBack(rows, p, IpPerHour, p.ipPerHour);
    IntReadsBack(rows, p, AddrPerDay, p.addrPerDay);
    DailyReadsBack(rows, p);
    forall id | id in p.tokenBudgets && p.tokenBudgets[id].Some?
      ensures Trim(id) in Observed(rows).tokenBudgets && Observed(rows).tokenBudgets[Trim(id)] == p.tokenBudgets[id]
    {
      TokenReadsBack(rows, p, id);
    }
    forall t | t in Observed(rows).tokenBudgets
      ensures exists id :: id in p.tokenBudgets && p.tokenBudgets[id].Some? && Trim(id) == t
    {
      OnlyWrittenTokens(rows, p, t);
    }
  }

  /** Whatever a table holds, what is read from it can be written, and is its own normal form. */
  lemma ObservedIsNormal(rows: seq<Row>)
    ensures var p := Observed(rows);
            ValidPolicy(p) && IntsFit(p) && NoClash(p) && IsNormalForm(p, p)
  {
    hide Last, Observed, Trim;
    var p := Observed(rows);
    ObservedByKey(rows);
    forall id | id in p.tokenBudgets
      ensures Trim(id) == id && id != "" && p.tokenBudgets[id].Some? && p.tokenBudgets[id].value >= 0
    {
      TokenIdsTrimmed(rows, id);
    }
  }

  lemma TokenIdsTrimmed(rows: seq<Row>, id: string)
    requires Last(rows, TokenBudget(id)).Some?
    ensures Trim(id) == id && id != "" && BudgetUnder(rows, TokenBudget(id)).Some?
  {
    hide KeyOf, Trim, ReadBudget;
    var k := TokenBudget(id);
    LastIsARow(rows, k);
    var r :| r in rows && KeyOf(r.key) == k && Readable(k, r.value) && r.value == Last(rows, k).value;
    ScalarKey(r.key);
    TrimExact(id);
  }

  /** So writing back what was read changes nothing that can be read, whatever the table held. */
  lemma RewriteChangesNothing(rows: seq<Row>, rows': seq<Row>)
    requires ValidPolicy(Observed(rows)) ==> Holds(rows', Observed(rows))
    ensures Observed(rows') == Observed(rows)
  {
    hide Observed, Holds, ValidPolicy, IntsFit, NoClash, IsNormalForm;
    ObservedIsNormal(rows);
    PolicyRoundTrip(rows', Observed(rows));
    NormalFormUnique(Observed(rows'), Observed(rows), Observed(rows));
  }
}
