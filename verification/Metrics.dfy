/** The runtime metrics registry: aggregate counters beside bounded per-token buckets. Counters
    are uint64 and wrap. */
module Metrics {
  import opened Text

  const MAX_BUCKETS: nat := 64
  const MAX_ID: nat := 64
  const WRAP: nat := 0x1_0000_0000_0000_0000

  /** atomic.Uint64.Add(1). */
  function Inc(n: nat): nat { Wrap(n + 1) }

  function Wrap(n: nat): nat { n % WRAP }

  lemma WrapAdd(a: nat, b: nat)
    ensures Wrap(Wrap(a) + b) == Wrap(a + b) == Wrap(b + a)
  {
  }

  lemma WrapSmall(n: nat)
    ensures Wrap(n) <= n && (n < WRAP ==> Wrap(n) == n)
  {
  }

  // ---- Token labels ----

  predicate Printable(c: char) { ' ' <= c < '\U{7F}' }

  function Clean(s: string): string {
    if s == "" then "" else Clean(s[..|s| - 1]) + if Printable(s[|s| - 1]) then [s[|s| - 1]] else ""
  }

  predicate IsLabel(s: string) {
    0 < |s| <= MAX_ID && forall i :: 0 <= i < |s| ==> Printable(s[i])
  }

  lemma {:induction false} CleanPrintable(s: string)
    ensures forall i :: 0 <= i < |Clean(s)| ==> Printable(Clean(s)[i])
  {
    if s != "" {
      CleanPrintable(s[..|s| - 1]);
    }
  }

  lemma {:induction false} CleanPrefix(s: string, i: nat)
    requires i <= |s|
    ensures Clean(s[..i]) <= Clean(s)
  {
    if i == |s| {
      assert s[..i] == s;
    } else {
      CleanPrefix(s[..|s| - 1], i);
      assert s[..|s| - 1][..i] == s[..i];
    }
  }

  function Label(tokenId: string): string {
    var c := Clean(Trim(tokenId));
    if c == "" then "default" else if |c| > MAX_ID then c[..MAX_ID] else c
  }

  /** Every token id, however hostile, becomes a short printable label. */
  lemma LabelsAreLabels(tokenId: string)
    ensures IsLabel(Label(tokenId))
  {
    CleanPrintable(Trim(tokenId));
  }

  lemma {:induction false} CleanKeepsPrintable(s: string)
    ensures (forall i :: 0 <= i < |s| ==> Printable(s[i])) ==> Clean(s) == s
    ensures forall c :: c in Clean(s) <==> c in s && Printable(c)
  {
    if s != "" {
      var init, last := s[..|s| - 1], s[|s| - 1];
      CleanKeepsPrintable(init);
      assert s == init + [last];
    }
  }

  /** A label that needs no cleaning is kept, and only an id without a printable character becomes
      'default'. */
  lemma LabelExact(tokenId: string)
    ensures IsTrimmed(tokenId) && IsLabel(tokenId) ==> Label(tokenId) == tokenId
    ensures (forall i :: 0 <= i < |Trim(tokenId)| ==> !Printable(Trim(tokenId)[i])) ==> Label(tokenId) == "default"
    ensures (exists i :: 0 <= i < |Trim(tokenId)| && Printable(Trim(tokenId)[i])) ==>
              Label(tokenId) <= Clean(Trim(tokenId)) && |Label(tokenId)| == if |Clean(Trim(tokenId))| > 64 then 64 else |Clean(Trim(tokenId))|
  {
    hide Clean, Trim;
    var t := Trim(tokenId);
    TrimExact(tokenId);
    CleanKeepsPrintable(t);
    assert Clean(t) == "" || Clean(t)[0] in Clean(t);
    if i :| 0 <= i < |t| && Printable(t[i]) {
      assert t[i] in Clean(t);
    }
  }

  method Normalize(tokenId: string) returns (name: string)
    ensures name == Label(tokenId) && IsLabel(name)
  {
    LabelsAreLabels(tokenId);
    var trimmed := Trim(tokenId);
    if trimmed == "" {
      return "default";
    }
    name := "";
    var i := 0;
    while i < |trimmed| && |name| < MAX_ID
      invariant 0 <= i <= |trimmed| && |name| <= MAX_ID
      invariant name == Clean(trimmed[..i])
    {
      assert trimmed[..i + 1][..i] == trimmed[..i];
      if ' ' <= trimmed[i] < '\U{7F}' {
        name := name + [trimmed[i]];
      }
      i := i + 1;
    }
    CleanPrefix(trimmed, i);
    assert trimmed[..|trimmed|] == trimmed;
    if name == "" {
      name := "default";
    }
  }

  // ---- Counters ----

  datatype Column = Accepted | Rejected | RateLimited | DailyExceeded | InvalidToken

  datatype Bucket = Bucket(accepted: nat, rejected: nat, rateLimited: nat, dailyExceeded: nat, invalidToken: nat)

  function Get(b: Bucket, col: Column): nat {
    match col
    case Accepted => b.accepted
    case Rejected => b.rejected
    case RateLimited => b.rateLimited
    case DailyExceeded => b.dailyExceeded
    case InvalidToken => b.invalidToken
  }

  type Tokens = map<string, Bucket>

  /** The column summed over all buckets. */
  ghost function Total(tokens: Tokens, col: Column): nat {
    if tokens == map[] then 0
    else
      var k :| k in tokens;
      Get(tokens[k], col) + Total(tokens - {k}, col)
  }

  lemma {:induction false} TotalRemove(tokens: Tokens, col: Column, k: string)
    requires k in tokens
    ensures Total(tokens, col) == Get(tokens[k], col) + Total(tokens - {k}, col)
    decreases |tokens|
  {
    var j :| j in tokens && Total(tokens, col) == Get(tokens[j], col) + Total(tokens - {j}, col);
    if j != k {
      TotalRemove(tokens - {j}, col, k);
      TotalRemove(tokens - {k}, col, j);
      assert tokens - {j} - {k} == tokens - {k} - {j};
    }
  }

  lemma TotalSet(tokens: Tokens, col: Column, k: string, b: Bucket)
    ensures Total(tokens[k := b], col)
            == Total(tokens, col) + Get(b, col) - if k in tokens then Get(tokens[k], col) else 0
  {
    TotalRemove(tokens[k := b], col, k);
    assert tokens[k := b] - {k} == tokens - {k};
    if k in tokens {
      TotalRemove(tokens, col, k);
    } else {
      assert tokens - {k} == tokens;
    }
  }

  // ---- The eight classes of rejection ----

  datatype Class = CaptchaFailed | RateLimitedClass | DailyBudget | FaucetUnavailable | InvalidTokenClass
                 | BlocklistRejected | RejectedByRisk | ClaimUnavailable

  function ClassOf(code: string): Class {
    if code == "captcha_failed" then CaptchaFailed
    else if code == "rate_limited" then RateLimitedClass
    else if code == "daily_budget_exceeded" then DailyBudget
    else if code == "faucet_unavailable" then FaucetUnavailable
    else if code == "invalid_token" then InvalidTokenClass
    else if code == "blocklist_rejected" then BlocklistRejected
    else if code == "claim_rejected" then RejectedByRisk
    else ClaimUnavailable
  }

  /** Each known code is a class of its own, and every other code is 'unavailable'. */
  lemma ClassOfCodes(code: string)
    ensures ClassOf(code) == CaptchaFailed <==> code == "captcha_failed"
    ensures ClassOf(code) == RateLimitedClass <==> code == "rate_limited"
    ensures ClassOf(code) == DailyBudget <==> code == "daily_budget_exceeded"
    ensures ClassOf(code) == FaucetUnavailable <==> code == "faucet_unavailable"
    ensures ClassOf(code) == InvalidTokenClass <==> code == "invalid_token"
    ensures ClassOf(code) == BlocklistRejected <==> code == "blocklist_rejected"
    ensures ClassOf(code) == RejectedByRisk <==> code == "claim_rejected"
  {
  }

  function TokenForCode(tokenId: string, code: string): string {
    if code == "invalid_token" then "invalid"
    else if code == "faucet_unavailable" || code == "claim_unavailable" then "default"
    else tokenId
  }

  // ---- Calls and what they mean ----

  datatype Call = AcceptedCall(tokenId: string) | RejectedCall(tokenId: string, code: string)

  /** Whether a call belongs to a column. */
  predicate Counts(c: Call, col: Column) {
    match col
    case Accepted => c.AcceptedCall?
    case Rejected => c.RejectedCall?
    case RateLimited => c.RejectedCall? && ClassOf(c.code) == RateLimitedClass
    case DailyExceeded => c.RejectedCall? && ClassOf(c.code) == DailyBudget
    case InvalidToken => c.RejectedCall? && ClassOf(c.code) == InvalidTokenClass
  }

  function CountCalls(calls: seq<Call>, col: Column): nat {
    if calls == [] then 0
    else CountCalls(calls[..|calls| - 1], col) + if Counts(calls[|calls| - 1], col) then 1 else 0
  }

  function CountClass(calls: seq<Call>, kind: Class): nat {
    if calls == [] then 0
    else
      var last := calls[|calls| - 1];
      CountClass(calls[..|calls| - 1], kind) + if last.RejectedCall? && ClassOf(last.code) == kind then 1 else 0
  }

  function ColumnsBumped(b: Bucket, c: Call): Bucket {
    match c
    case AcceptedCall(_) => b.(accepted := Inc(b.accepted))
    case RejectedCall(_, code) => ClassBumped(b.(rejected := Inc(b.rejected)), ClassOf(code))
  }

  function ClassBumped(b: Bucket, kind: Class): Bucket {
    match kind
    case RateLimitedClass => b.(rateLimited := Inc(b.rateLimited))
    case DailyBudget => b.(dailyExceeded := Inc(b.dailyExceeded))
    case InvalidTokenClass => b.(invalidToken := Inc(b.invalidToken))
    case _ => b
  }

  /** A bucket moves up in exactly the columns its call belongs to. */
  lemma BumpExact(b: Bucket, c: Call, col: Column)
    ensures Get(ColumnsBumped(b, c), col) == if Counts(c, col) then Inc(Get(b, col)) else Get(b, col)
  {
  }

  function LabelOf(c: Call): string {
    Label(if c.AcceptedCall? then c.tokenId else TokenForCode(c.tokenId, c.code))
  }

  /** The bucket a label lands in. */
  function Routed(tokens: Tokens, name: string): string {
    if name in tokens || |tokens| < MAX_BUCKETS then name else "other"
  }

  const EMPTY := Bucket(0, 0, 0, 0, 0)

  function At(tokens: Tokens, key: string): Bucket {
    if key in tokens then tokens[key] else EMPTY
  }

  predicate Bounded(tokens: Tokens) {
    && |tokens| <= MAX_BUCKETS + 1
    && (|tokens| == MAX_BUCKETS + 1 ==> "other" in tokens)
    && forall k :: k in tokens ==> IsLabel(k)
  }

  class RuntimeMetrics {
    var tokens: Tokens
    var claimsAccepted: nat
    var claimsRejected: nat
    var captchaFailed: nat
    var rateLimited: nat
    var dailyBudgetExceeded: nat
    var faucetUnavailable: nat
    var claimUnavailable: nat
    var claimRejectedByRisk: nat
    var blocklistRejected: nat
    var invalidToken: nat
    /** Every call so far. */
    ghost var calls: seq<Call>

    ghost function Aggregate(col: Column): nat
      reads this
    {
      match col
      case Accepted => claimsAccepted
      case Rejected => claimsRejected
      case RateLimited => rateLimited
      case DailyExceeded => dailyBudgetExceeded
      case InvalidToken => invalidToken
    }

    ghost function ClassCounter(kind: Class): nat
      reads this
    {
      match kind
      case CaptchaFailed => captchaFailed
      case RateLimitedClass => rateLimited
      case DailyBudget => dailyBudgetExceeded
      case FaucetUnavailable => faucetUnavailable
      case InvalidTokenClass => invalidToken
      case BlocklistRejected => blocklistRejected
      case RejectedByRisk => claimRejectedByRisk
      case ClaimUnavailable => claimUnavailable
    }

    /** Every aggregate, every class counter and every column total counts the calls, modulo 2^64. */
    ghost predicate Valid()
      reads this
    {
      && Bounded(tokens)
      && CountersAgreeWith(calls)
      && (forall col :: TotalAgrees(tokens, calls, col))
    }

    ghost predicate CountersAgreeWith(calls: seq<Call>)
      reads this
    {
      && (forall col :: Aggregate(col) == Wrap(CountCalls(calls, col)))
      && (forall kind :: ClassCounter(kind) == Wrap(CountClass(calls, kind)))
    }

    constructor ()
      ensures Valid() && tokens == map[] && calls == []
    {
      tokens := map[];
      claimsAccepted, claimsRejected, captchaFailed, rateLimited, dailyBudgetExceeded := 0, 0, 0, 0, 0;
      faucetUnavailable, claimUnavailable, claimRejectedByRisk, blocklistRejected, invalidToken := 0, 0, 0, 0, 0;
      calls := [];
    }

    /** Finds or creates the bucket of a token id. */
    method TokenMetrics(tokenId: string) returns (key: string)
      requires Bounded(tokens)
      modifies this`tokens
      ensures key == Routed(old(tokens), Label(tokenId))
      ensures tokens == old(tokens)[key := At(old(tokens), key)] && Bounded(tokens)
      ensures key == if Label(tokenId) in old(tokens) || |old(tokens)| < 64 then Label(tokenId) else "other"
    {
      key := Normalize(tokenId);
      if key in tokens {
        return;
      }
      if |tokens| >= MAX_BUCKETS {
        key := "other";
        if key in tokens {
          return;
        }
      }
      tokens := tokens[key := EMPTY];
    }

    method IncClaimAcceptedForToken(tokenId: string)
      requires Valid()
      modifies this
      ensures Valid() && calls == old(calls) + [AcceptedCall(tokenId)]
      ensures var c := AcceptedCall(tokenId);
              var key := Routed(old(tokens), LabelOf(c));
              tokens == old(tokens)[key := ColumnsBumped(At(old(tokens), key), c)]
    {
      hide Label, Total, Bounded, CountCalls, CountClass, Wrap, Inc, TotalAgrees, Counts;
      AcceptedCounts(tokenId);
      ghost var c := AcceptedCall(tokenId);
      ghost var before := tokens;
      CallWrapped(calls, c);
      claimsAccepted := Inc(claimsAccepted);
      forall col ensures Aggregate(col) == if col == Accepted then Inc(old(Aggregate(col))) else old(Aggregate(col)) {
        match col case Accepted => case Rejected => case RateLimited => case DailyExceeded => case InvalidToken =>
      }
      assert CountersAgreeWith(calls + [c]);
      var key := TokenMetrics(tokenId);
      tokens := tokens[key := tokens[key].(accepted := Inc(tokens[key].accepted))];
      calls := calls + [c];
      TotalsCounted(before, old(calls), key, c, tokens, calls);
      BoundedSame(before[key := At(before, key)], key, tokens[key]);
    }

    /** The switch on the rejection code: one class counter, and the bucket's own column. */
    method Classify(code: string, bucket: Bucket, ghost c: Call) returns (b: Bucket)
      requires c.RejectedCall? && c.code == code
      modifies this`captchaFailed, this`rateLimited, this`dailyBudgetExceeded, this`faucetUnavailable,
               this`invalidToken, this`blocklistRejected, this`claimRejectedByRisk, this`claimUnavailable
      ensures forall kind :: ClassCounter(kind) == if kind == ClassOf(code) then Inc(old(ClassCounter(kind))) else old(ClassCounter(kind))
      ensures forall col :: Aggregate(col) == if col != Rejected && Counts(c, col) then Inc(old(Aggregate(col))) else old(Aggregate(col))
      ensures b == ClassBumped(bucket, ClassOf(code))
    {
      hide ClassOf, Inc;
      b := bucket;
      match ClassOf(code) {
        case CaptchaFailed => captchaFailed := Inc(captchaFailed);
        case RateLimitedClass =>
          rateLimited := Inc(rateLimited);
          b := b.(rateLimited := Inc(b.rateLimited));
        case DailyBudget =>
          dailyBudgetExceeded := Inc(dailyBudgetExceeded);
          b := b.(dailyExceeded := Inc(b.dailyExceeded));
        case FaucetUnavailable => faucetUnavailable := Inc(faucetUnavailable);
        case InvalidTokenClass =>
          invalidToken := Inc(invalidToken);
          b := b.(invalidToken := Inc(b.invalidToken));
        case BlocklistRejected => blocklistRejected := Inc(blocklistRejected);
        case RejectedByRisk => claimRejectedByRisk := Inc(claimRejectedByRisk);
        case ClaimUnavailable => claimUnavailable := Inc(claimUnavailable);
      }
    }

    method IncClaimRejectedForToken(tokenId: string, code: string)
      requires Valid()
      modifies this
      ensures Valid() && calls == old(calls) + [RejectedCall(tokenId, code)]
      ensures var c := RejectedCall(tokenId, code);
              var key := Routed(old(tokens), LabelOf(c));
              tokens == old(tokens)[key := ColumnsBumped(At(old(tokens), key), c)]
    {
      hide Label, Total, Bounded, CountCalls, CountClass, Wrap, Inc, TotalAgrees, ClassOf, TokenForCode, ClassBumped, Counts;
      RejectedCounts(tokenId, code);
      ghost var c := RejectedCall(tokenId, code);
      ghost var before := tokens;
      CallWrapped(calls, c);
      claimsRejected := Inc(claimsRejected);
      var key := TokenMetrics(TokenForCode(tokenId, code));
      var b := tokens[key].(rejected := Inc(tokens[key].rejected));
      forall col ensures Aggregate(col) == if col == Rejected then Inc(old(Aggregate(col))) else old(Aggregate(col)) {
        match col case Accepted => case Rejected => case RateLimited => case DailyExceeded => case InvalidToken =>
      }
      forall kind ensures ClassCounter(kind) == old(ClassCounter(kind)) {
      }
      b := Classify(code, b, c);
      assert CountersAgreeWith(calls + [c]);
      tokens := tokens[key := b];
      calls := calls + [c];
      TotalsCounted(before, old(calls), key, c, tokens, calls);
      BoundedSame(before[key := At(before, key)], key, tokens[key]);
    }
  }

  lemma AcceptedCounts(tokenId: string)
    ensures forall col :: Counts(AcceptedCall(tokenId), col) <==> col == Accepted
  {
  }

  lemma RejectedCounts(tokenId: string, code: string)
    ensures Counts(RejectedCall(tokenId, code), Rejected)
  {
  }

  ghost predicate TotalAgrees(tokens: Tokens, calls: seq<Call>, col: Column) {
    Wrap(Total(tokens, col)) == Wrap(CountCalls(calls, col)) && Total(tokens, col) <= CountCalls(calls, col)
  }

  lemma CallCounted(calls: seq<Call>, c: Call)
    ensures forall col :: CountCalls(calls + [c], col) == CountCalls(calls, col) + if Counts(c, col) then 1 else 0
    ensures forall kind :: CountClass(calls + [c], kind)
                           == CountClass(calls, kind) + if c.RejectedCall? && ClassOf(c.code) == kind then 1 else 0
  {
    assert (calls + [c])[..|calls|] == calls;
  }

  lemma CallWrapped(calls: seq<Call>, c: Call)
    ensures forall col :: Wrap(CountCalls(calls + [c], col))
              == if Counts(c, col) then Inc(Wrap(CountCalls(calls, col))) else Wrap(CountCalls(calls, col))
    ensures forall kind :: Wrap(CountClass(calls + [c], kind))
              == if c.RejectedCall? && ClassOf(c.code) == kind then Inc(Wrap(CountClass(calls, kind)))
                 else Wrap(CountClass(calls, kind))
  {
    hide CountCalls, CountClass, Counts, ClassOf, Wrap;
    CallCounted(calls, c);
    forall col ensures Wrap(CountCalls(calls, col) + 1) == Inc(Wrap(CountCalls(calls, col))) {
      WrapAdd(CountCalls(calls, col), 1);
    }
    forall kind ensures Wrap(CountClass(calls, kind) + 1) == Inc(Wrap(CountClass(calls, kind))) {
      WrapAdd(CountClass(calls, kind), 1);
    }
  }

  lemma BoundedSame(tokens: Tokens, key: string, b: Bucket)
    requires Bounded(tokens) && key in tokens
    ensures Bounded(tokens[key := b])
  {
    assert tokens[key := b].Keys == tokens.Keys;
    assert |tokens[key := b]| == |tokens[key := b].Keys|;
  }

  lemma TotalsCounted(tokens: Tokens, calls: seq<Call>, key: string, c: Call, tokens': Tokens, calls': seq<Call>)
    requires forall col :: TotalAgrees(tokens, calls, col)
    requires tokens' == tokens[key := ColumnsBumped(At(tokens, key), c)] && calls' == calls + [c]
    ensures forall col :: TotalAgrees(tokens', calls', col)
  {
    hide Total, CountCalls, CountClass, Wrap, Inc, ColumnsBumped, Get, Counts;
    CallCounted(calls, c);
    forall col
      ensures TotalAgrees(tokens', calls', col)
    {
      assert TotalAgrees(tokens, calls, col);
      TotalSet(tokens, col, key, ColumnsBumped(At(tokens, key), c));
      BumpExact(At(tokens, key), c, col);
      PartOfTotal(tokens, key, col);
      Moved(Total(tokens, col), CountCalls(calls, col), Get(At(tokens, key), col));
    }
  }

  lemma PartOfTotal(tokens: Tokens, key: string, col: Column)
    ensures Get(At(tokens, key), col) <= Total(tokens, col)
    ensures Get(EMPTY, col) == 0
  {
    if key in tokens {
      TotalRemove(tokens, col, key);
    }
  }

  /** Replacing one summand by its increment moves the sum with the count, modulo 2^64. */
  lemma Moved(total: nat, count: nat, part: nat)
    requires Wrap(total) == Wrap(count) && total <= count
    ensures total - part + Inc(part) <= count + 1
    ensures part <= total ==> Wrap(total - part + Inc(part)) == Wrap(count + 1)
  {
    WrapSmall(part + 1);
    if part <= total {
      WrapAdd(part + 1, total - part);
      WrapAdd(total, 1);
      WrapAdd(count, 1);
    }
  }

  // ---- Conservation ----

  /** The classes partition the rejections. */
  lemma {:induction false} ClassesPartition(calls: seq<Call>)
    ensures CountCalls(calls, Rejected) ==
            CountClass(calls, CaptchaFailed) + CountClass(calls, RateLimitedClass) + CountClass(calls, DailyBudget)
            + CountClass(calls, FaucetUnavailable) + CountClass(calls, InvalidTokenClass)
            + CountClass(calls, BlocklistRejected) + CountClass(calls, RejectedByRisk)
            + CountClass(calls, ClaimUnavailable)
  {
    if calls != [] {
      ClassesPartition(calls[..|calls| - 1]);
    }
  }

  lemma {:induction false} CountAtMost(calls: seq<Call>, col: Column)
    ensures CountCalls(calls, col) <= |calls|
  {
    if calls != [] {
      CountAtMost(calls[..|calls| - 1], col);
    }
  }

  /** After any calls, the per-token columns sum to the aggregates modulo 2^64, exactly so below
      2^64 calls; and there are at most 64 buckets, or 65 with "other" among them. */
  lemma ColumnsConserved(m: RuntimeMetrics, col: Column)
    requires m.Valid()
    ensures Wrap(Total(m.tokens, col)) == m.Aggregate(col)
    ensures |m.calls| < WRAP ==> Total(m.tokens, col) == m.Aggregate(col) == CountCalls(m.calls, col)
    ensures |m.tokens| <= MAX_BUCKETS || (|m.tokens| == MAX_BUCKETS + 1 && "other" in m.tokens)
  {
    hide Total, CountCalls, CountClass, Label, Wrap;
    assert TotalAgrees(m.tokens, m.calls, col);
    CountAtMost(m.calls, col);
    WrapSmall(Total(m.tokens, col));
    WrapSmall(CountCalls(m.calls, col));
  }

  /** The eight rejection classes sum to the rejections the same way. */
  lemma ClassesConserved(m: RuntimeMetrics)
    requires m.Valid()
    ensures var sum := m.captchaFailed + m.rateLimited + m.dailyBudgetExceeded + m.faucetUnavailable
                       + m.invalidToken + m.blocklistRejected + m.claimRejectedByRisk + m.claimUnavailable;
            Wrap(sum) == m.claimsRejected && (|m.calls| < WRAP ==> sum == m.claimsRejected)
  {
    hide Total, CountCalls, CountClass, Label, Wrap, Bounded, TotalAgrees;
    var calls := m.calls;
    CountAtMost(calls, Rejected);
    ClassesPartition(calls);
    WrapSmall(CountCalls(calls, Rejected));
    assert m.claimsRejected == m.Aggregate(Rejected);
    assert m.rateLimited == m.ClassCounter(RateLimitedClass);
    assert m.dailyBudgetExceeded == m.ClassCounter(DailyBudget);
    assert m.faucetUnavailable == m.ClassCounter(FaucetUnavailable);
    assert m.invalidToken == m.ClassCounter(InvalidTokenClass);
    assert m.captchaFailed == m.ClassCounter(CaptchaFailed);
    assert m.blocklistRejected == m.ClassCounter(BlocklistRejected);
    assert m.claimRejectedByRisk == m.ClassCounter(RejectedByRisk);
    assert m.claimUnavailable == m.ClassCounter(ClaimUnavailable);
    WrapEight(CountClass(calls, CaptchaFailed), CountClass(calls, RateLimitedClass), CountClass(calls, DailyBudget),
              CountClass(calls, FaucetUnavailable), CountClass(calls, InvalidTokenClass),
              CountClass(calls, BlocklistRejected), CountClass(calls, RejectedByRisk),
              CountClass(calls, ClaimUnavailable));
  }

  lemma WrapFour(a: nat, b: nat, c: nat, d: nat)
    ensures Wrap(Wrap(a) + Wrap(b) + Wrap(c) + Wrap(d)) == Wrap(a + b + c + d)
    ensures a + b + c + d < WRAP ==> Wrap(a) + Wrap(b) + Wrap(c) + Wrap(d) == a + b + c + d
  {
    hide Wrap;
    WrapAdd(a, Wrap(b) + Wrap(c) + Wrap(d));
    WrapAdd(b, a + Wrap(c) + Wrap(d));
    WrapAdd(c, a + b + Wrap(d));
    WrapAdd(d, a + b + c);
    WrapSmall(a);
    WrapSmall(b);
    WrapSmall(c);
    WrapSmall(d);
  }

  lemma WrapEight(a: nat, b: nat, c: nat, d: nat, e: nat, f: nat, g: nat, h: nat)
    ensures Wrap(Wrap(a) + Wrap(b) + Wrap(c) + Wrap(d) + Wrap(e) + Wrap(f) + Wrap(g) + Wrap(h))
            == Wrap(a + b + c + d + e + f + g + h)
    ensures a + b + c + d + e + f + g + h < WRAP ==>
              Wrap(a) + Wrap(b) + Wrap(c) + Wrap(d) + Wrap(e) + Wrap(f) + Wrap(g) + Wrap(h)
              == a + b + c + d + e + f + g + h
  {
    hide Wrap;
    WrapFour(a, b, c, d);
    WrapFour(e, f, g, h);
    var x, y := Wrap(a) + Wrap(b) + Wrap(c) + Wrap(d), Wrap(e) + Wrap(f) + Wrap(g) + Wrap(h);
    WrapAdd(x, y);
    WrapAdd(y, Wrap(x));
    WrapAdd(a + b + c + d, Wrap(y));
    WrapAdd(e + f + g + h, a + b + c + d);
  }

  /** The rejections with one code. */
  function CountCode(calls: seq<Call>, code: string): nat {
    if calls == [] then 0
    else
      var last := calls[|calls| - 1];
      CountCode(calls[..|calls| - 1], code) + if last.RejectedCall? && last.code == code then 1 else 0
  }

  lemma {:induction false} ClassIsCode(calls: seq<Call>, kind: Class, code: string)
    requires forall c :: ClassOf(c) == kind <==> c == code
    ensures CountClass(calls, kind) == CountCode(calls, code)
  {
    hide ClassOf;
    if calls != [] {
      ClassIsCode(calls[..|calls| - 1], kind, code);
    }
  }

  lemma CodesAreClasses()
    ensures forall c :: ClassOf(c) == CaptchaFailed <==> c == "captcha_failed"
    ensures forall c :: ClassOf(c) == RateLimitedClass <==> c == "rate_limited"
    ensures forall c :: ClassOf(c) == DailyBudget <==> c == "daily_budget_exceeded"
    ensures forall c :: ClassOf(c) == FaucetUnavailable <==> c == "faucet_unavailable"
    ensures forall c :: ClassOf(c) == InvalidTokenClass <==> c == "invalid_token"
    ensures forall c :: ClassOf(c) == BlocklistRejected <==> c == "blocklist_rejected"
    ensures forall c :: ClassOf(c) == RejectedByRisk <==> c == "claim_rejected"
  {
    forall c
      ensures ClassOf(c) == CaptchaFailed <==> c == "captcha_failed"
      ensures ClassOf(c) == RateLimitedClass <==> c == "rate_limited"
      ensures ClassOf(c) == DailyBudget <==> c == "daily_budget_exceeded"
      ensures ClassOf(c) == FaucetUnavailable <==> c == "faucet_unavailable"
      ensures ClassOf(c) == InvalidTokenClass <==> c == "invalid_token"
      ensures ClassOf(c) == BlocklistRejected <==> c == "blocklist_rejected"
      ensures ClassOf(c) == RejectedByRisk <==> c == "claim_rejected"
    {
      ClassOfCodes(c);
    }
  }

  /** Each class counter is the number of rejections with its own code, modulo 2^64. */
  lemma CountersExact(m: RuntimeMetrics)
    requires m.Valid()
    ensures m.captchaFailed == Wrap(CountCode(m.calls, "captcha_failed"))
    ensures m.rateLimited == Wrap(CountCode(m.calls, "rate_limited"))
    ensures m.dailyBudgetExceeded == Wrap(CountCode(m.calls, "daily_budget_exceeded"))
    ensures m.faucetUnavailable == Wrap(CountCode(m.calls, "faucet_unavailable"))
    ensures m.invalidToken == Wrap(CountCode(m.calls, "invalid_token"))
    ensures m.blocklistRejected == Wrap(CountCode(m.calls, "blocklist_rejected"))
    ensures m.claimRejectedByRisk == Wrap(CountCode(m.calls, "claim_rejected"))
  {
    hide Total, CountCalls, CountClass, CountCode, ClassOf, Label, Wrap, Bounded, TotalAgrees;
    CodesAreClasses();
    ClassIsCode(m.calls, CaptchaFailed, "captcha_failed");
    ClassIsCode(m.calls, RateLimitedClass, "rate_limited");
    ClassIsCode(m.calls, DailyBudget, "daily_budget_exceeded");
    ClassIsCode(m.calls, FaucetUnavailable, "faucet_unavailable");
    ClassIsCode(m.calls, InvalidTokenClass, "invalid_token");
    ClassIsCode(m.calls, BlocklistRejected, "blocklist_rejected");
    ClassIsCode(m.calls, RejectedByRisk, "claim_rejected");
    assert m.captchaFailed == m.ClassCounter(CaptchaFailed) && m.rateLimited == m.ClassCounter(RateLimitedClass);
    assert m.dailyBudgetExceeded == m.ClassCounter(DailyBudget) && m.faucetUnavailable == m.ClassCounter(FaucetUnavailable);
    assert m.invalidToken == m.ClassCounter(InvalidTokenClass) && m.blocklistRejected == m.ClassCounter(BlocklistRejected);
    assert m.claimRejectedByRisk == m.ClassCounter(RejectedByRisk);
  }

  /** Where a rejection is counted: invalid tokens together, unavailability under 'default'. */
  lemma LabelOfCodes(tokenId: string, code: string)
    ensures code == "invalid_token" ==> LabelOf(RejectedCall(tokenId, code)) == Label("invalid")
    ensures code in {"faucet_unavailable", "claim_unavailable"} ==> LabelOf(RejectedCall(tokenId, code)) == Label("default")
    ensures code !in {"invalid_token", "faucet_unavailable", "claim_unavailable"} ==>
              LabelOf(RejectedCall(tokenId, code)) == Label(tokenId)
    ensures LabelOf(AcceptedCall(tokenId)) == Label(tokenId)
  {
    hide Label;
  }
}
