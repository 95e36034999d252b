/** The progressive abuse enforcer over the abuse_signals table, and pruning of that table. */
module Enforcer {
  import opened Text
  import opened TimeText

  datatype Kind =
    | CaptchaPassed | CaptchaFailed | RiskAllowed | RiskRejected | ManualReview
    | CooldownActive | RateLimited | DailyBudgetExceeded | InvalidToken | ClaimAccepted

  /** A row; `id` is its primary key. Address 0 stands for the empty column, as the zero address
      is stored. */
  datatype Signal = Signal(id: nat, kind: Kind, address: nat, remoteIp: string, fingerprint: string, createdAt: nat)

  type Table = set<Signal>

  const NEGATIVE: set<Kind> := {CaptchaFailed, RiskRejected, RateLimited, CooldownActive, DailyBudgetExceeded}
  const ACTIVITY: set<Kind> := {CaptchaPassed, CaptchaFailed, RiskAllowed, RiskRejected, ManualReview,
                                ClaimAccepted, RateLimited, CooldownActive, DailyBudgetExceeded, InvalidToken}

  // ---- Counting queries ----

  /** Empty keys (address 0) are not constrained. */
  datatype Filter = Filter(kinds: set<Kind>, remoteIp: string, address: nat, fingerprint: string, since: nat)

  /** created_at >= since, as text. */
  predicate Since(createdAt: nat, since: nat) {
    TextLeq(FormatTime(since), FormatTime(createdAt))
  }

  predicate Matches(s: Signal, f: Filter) {
    && Since(s.createdAt, f.since)
    && s.kind in f.kinds
    && (Trim(f.remoteIp) != "" ==> s.remoteIp == Trim(f.remoteIp))
    && (f.address != 0 ==> s.address == f.address)
    && (Trim(f.fingerprint) != "" ==> s.fingerprint == Trim(f.fingerprint))
  }

  /** A filter that names no key selects nothing. */
  predicate HasKey(f: Filter) {
    Trim(f.remoteIp) != "" || f.address != 0 || Trim(f.fingerprint) != ""
  }

  function Selected(table: Table, f: Filter): Table {
    if HasKey(f) then set s | s in table && Matches(s, f) else {}
  }

  function Count(table: Table, f: Filter): nat {
    |Selected(table, f)|
  }

  function DistinctIps(table: Table, f: Filter): nat {
    |set s | s in Selected(table, f) && s.remoteIp != "" :: s.remoteIp|
  }

  function DistinctAddresses(table: Table, f: Filter): nat {
    |set s | s in Selected(table, f) && s.address != 0 :: s.address|
  }

  // ---- Configuration and input ----

  datatype Config = Config(
    enabled: bool, honeypotEnabled: bool,
    windowSecs: int, burstWindowSecs: int,
    ipThreshold: int, addressThreshold: int, fingerprintThreshold: int,
    burstThreshold: int, rotatingIpThreshold: int, clusterThreshold: int,
    rejectThreshold: int)

  datatype Input = Input(address: nat, remoteIp: string, fingerprint: string, honeypot: string)

  function WindowSecs(cfg: Config): (s: nat)
    ensures s > 0
  {
    if cfg.windowSecs <= 0 then 3600 else cfg.windowSecs
  }

  function BurstSecs(cfg: Config): (s: nat)
    ensures s > 0
  {
    if cfg.burstWindowSecs <= 0 then 300 else cfg.burstWindowSecs
  }

  function RejectThreshold(cfg: Config): (t: nat)
    ensures t > 0
  {
    if cfg.rejectThreshold <= 0 then 5 else cfg.rejectThreshold
  }

  /** The clock reads later than every window is long. */
  predicate ClockOk(cfg: Config, now: nat) {
    WindowSecs(cfg) * SECOND <= now && BurstSecs(cfg) * SECOND <= now
  }

  // ---- What a decision means ----

  datatype Reason =
    | Disabled | HoneypotFailed | IpThreshold | AddressThreshold | FingerprintThreshold
    | Burst | RotatingIp | AddressCluster | BelowThreshold | Passed

  datatype Decision = Decision(allowed: bool, score: nat, reason: Reason, review: bool)

  function ByIp(cfg: Config, i: Input, now: nat): Filter
    requires ClockOk(cfg, now)
  {
    Filter(NEGATIVE, i.remoteIp, 0, "", now - WindowSecs(cfg) * SECOND)
  }

  function ByAddress(cfg: Config, i: Input, now: nat): Filter
    requires ClockOk(cfg, now)
  {
    Filter(NEGATIVE, "", i.address, "", now - WindowSecs(cfg) * SECOND)
  }

  function ByFingerprint(cfg: Config, i: Input, now: nat): Filter
    requires ClockOk(cfg, now)
  {
    Filter(NEGATIVE, "", 0, i.fingerprint, now - WindowSecs(cfg) * SECOND)
  }

  function ForBurst(cfg: Config, i: Input, now: nat): Filter
    requires ClockOk(cfg, now)
  {
    Filter(ACTIVITY, i.remoteIp, 0, "", now - BurstSecs(cfg) * SECOND)
  }

  function ForRotation(cfg: Config, i: Input, now: nat): Filter
    requires ClockOk(cfg, now)
  {
    Filter(ACTIVITY, "", 0, i.fingerprint, now - WindowSecs(cfg) * SECOND)
  }

  /** By fingerprint when there is one, else by IP. */
  function ForCluster(cfg: Config, i: Input, now: nat): Filter
    requires ClockOk(cfg, now)
  {
    if Trim(i.fingerprint) != "" then ForRotation(cfg, i, now)
    else Filter(ACTIVITY, i.remoteIp, 0, "", now - WindowSecs(cfg) * SECOND)
  }

  /** A positive threshold is reached. */
  predicate Reached(count: nat, threshold: int) {
    0 < threshold <= count
  }

  predicate Bursting(cfg: Config, table: Table, i: Input, now: nat)
    requires ClockOk(cfg, now)
  {
    Reached(Count(table, ForBurst(cfg, i, now)), cfg.burstThreshold)
  }

  predicate Rotating(cfg: Config, table: Table, i: Input, now: nat)
    requires ClockOk(cfg, now)
  {
    Reached(DistinctIps(table, ForRotation(cfg, i, now)), cfg.rotatingIpThreshold)
  }

  predicate Clustered(cfg: Config, table: Table, i: Input, now: nat)
    requires ClockOk(cfg, now)
  {
    Reached(DistinctAddresses(table, ForCluster(cfg, i, now)), cfg.clusterThreshold)
  }

  function If(b: bool): nat { if b then 2 else 0 }

  /** Two points for each heuristic that fires. */
  function Points(cfg: Config, table: Table, i: Input, now: nat): nat
    requires ClockOk(cfg, now)
  {
    If(Bursting(cfg, table, i, now)) + If(Rotating(cfg, table, i, now)) + If(Clustered(cfg, table, i, now))
  }

  predicate ScopeExceeded(cfg: Config, table: Table, i: Input, now: nat)
    requires ClockOk(cfg, now)
  {
    || Reached(Count(table, ByIp(cfg, i, now)), cfg.ipThreshold)
    || Reached(Count(table, ByAddress(cfg, i, now)), cfg.addressThreshold)
    || Reached(Count(table, ByFingerprint(cfg, i, now)), cfg.fingerprintThreshold)
  }

  predicate Trapped(cfg: Config, i: Input) {
    cfg.honeypotEnabled && Trim(i.honeypot) != ""
  }

  /** When a request is turned away. The heuristics read the clock again, at `later`. */
  predicate Rejects(cfg: Config, table: Table, i: Input, now: nat, later: nat)
    requires ClockOk(cfg, now) && ClockOk(cfg, later)
  {
    cfg.enabled && (Trapped(cfg, i) || ScopeExceeded(cfg, table, i, now)
                    || Points(cfg, table, i, later) >= RejectThreshold(cfg))
  }

  // ---- The enforcer ----

  method ScopeScore(table: Table, value: string, threshold: int, f: Filter) returns (score: nat)
    requires Trim(value) == "" ==> !HasKey(f)
    ensures score > 0 <==> Reached(Count(table, f), threshold)
    ensures score > 0 ==> score == Count(table, f)
  {
    hide Matches;
    if threshold <= 0 || Trim(value) == "" {
      return 0;
    }
    var count := Count(table, f);
    if count < threshold {
      return 0;
    }
    return count;
  }

  method AdvancedScore(cfg: Config, table: Table, i: Input, now: nat) returns (score: nat, reason: Reason)
    requires ClockOk(cfg, now)
    ensures score == Points(cfg, table, i, now)
    ensures score > 0 ==>
              && (reason == AddressCluster <==> Clustered(cfg, table, i, now))
              && (reason == RotatingIp <==> Rotating(cfg, table, i, now) && !Clustered(cfg, table, i, now))
              && (reason == Burst <==> Points(cfg, table, i, now) == 2 && Bursting(cfg, table, i, now))
  {
    hide Matches;
    score, reason := 0, Passed;
    if cfg.burstThreshold > 0 && Trim(i.remoteIp) != "" {
      if Count(table, ForBurst(cfg, i, now)) >= cfg.burstThreshold {
        score, reason := score + 2, Burst;
      }
    }
    if cfg.rotatingIpThreshold > 0 && Trim(i.fingerprint) != "" {
      if DistinctIps(table, ForRotation(cfg, i, now)) >= cfg.rotatingIpThreshold {
        score, reason := score + 2, RotatingIp;
      }
    }
    if cfg.clusterThreshold > 0 {
      var filter := Filter(ACTIVITY, "", 0, "", now - WindowSecs(cfg) * SECOND);
      if Trim(i.fingerprint) != "" {
        filter := filter.(fingerprint := i.fingerprint);
      } else {
        filter := filter.(remoteIp := i.remoteIp);
      }
      if DistinctAddresses(table, filter) >= cfg.clusterThreshold {
        score, reason := score + 2, AddressCluster;
      }
    }
    NothingWithoutKey(table, ForBurst(cfg, i, now));
    NothingWithoutKey(table, ForRotation(cfg, i, now));
  }

  lemma NothingWithoutKey(table: Table, f: Filter)
    ensures !HasKey(f) ==> Count(table, f) == 0 && DistinctIps(table, f) == 0
  {
    if !HasKey(f) {
      assert Selected(table, f) == {};
      assert (set s | s in Selected(table, f) && s.remoteIp != "" :: s.remoteIp) == {};
    }
  }

  /** `hex` is the address as text, which is never blank. */
  method Evaluate(cfg: Config, table: Table, i: Input, hex: string, now: nat, later: nat) returns (d: Decision)
    requires ClockOk(cfg, now) && ClockOk(cfg, later) && Trim(hex) != ""
    ensures d.allowed <==> !Rejects(cfg, table, i, now, later)
    ensures d.reason == Disabled <==> !cfg.enabled
    ensures cfg.enabled ==> (d.reason == HoneypotFailed <==> Trapped(cfg, i))
    ensures cfg.enabled && !Trapped(cfg, i) ==>
              var ip, address, fingerprint :=
                Count(table, ByIp(cfg, i, now)), Count(table, ByAddress(cfg, i, now)), Count(table, ByFingerprint(cfg, i, now));
              if Reached(ip, cfg.ipThreshold) then d.reason == IpThreshold && d.score == ip
              else if Reached(address, cfg.addressThreshold) then d.reason == AddressThreshold && d.score == address
              else if Reached(fingerprint, cfg.fingerprintThreshold) then
                d.reason == FingerprintThreshold && d.score == fingerprint
              else d.score == Points(cfg, table, i, later)
    ensures d.allowed && cfg.enabled ==> d.reason == if d.score > 0 then BelowThreshold else Passed
    ensures !d.allowed ==> d.review
    ensures d.allowed && cfg.enabled ==> d.review == (d.score > 0 && d.score + 1 == RejectThreshold(cfg))
  {
    hide Matches, Selected, DistinctIps, DistinctAddresses, Trim;
    if !cfg.enabled {
      return Decision(true, 0, Disabled, false);
    }
    if cfg.honeypotEnabled && Trim(i.honeypot) != "" {
      return Decision(false, RejectThreshold(cfg), HoneypotFailed, true);
    }
    TrimEmpty();
    var v := ScopeScore(table, i.remoteIp, cfg.ipThreshold, ByIp(cfg, i, now));
    if v > 0 {
      return Decision(false, v, IpThreshold, true);
    }
    v := ScopeScore(table, hex, cfg.addressThreshold, ByAddress(cfg, i, now));
    if v > 0 {
      return Decision(false, v, AddressThreshold, true);
    }
    v := ScopeScore(table, i.fingerprint, cfg.fingerprintThreshold, ByFingerprint(cfg, i, now));
    if v > 0 {
      return Decision(false, v, FingerprintThreshold, true);
    }
    var score, reason := AdvancedScore(cfg, table, i, later);
    if score >= RejectThreshold(cfg) {
      return Decision(false, score, reason, true);
    }
    if score > 0 {
      return Decision(true, score, BelowThreshold, score >= RejectThreshold(cfg) - 1);
    }
    return Decision(true, 0, Passed, false);
  }

  lemma TrimEmpty()
    ensures Trim("") == ""
  {
  }

  // ---- What the counts count ----

  predicate TimesInRange(table: Table) {
    forall s :: s in table ==> InRange(s.createdAt)
  }

  /** The window test is right up to less than a second. */
  lemma SinceBounds(createdAt: nat, since: nat)
    requires InRange(createdAt) && InRange(since)
    ensures since + SECOND <= createdAt ==> Since(createdAt, since)
    ensures Since(createdAt, since) ==> since < createdAt + SECOND
  {
    hide FormatTime;
    if since + SECOND <= createdAt {
      TextOrderOfSpaced(since, createdAt);
      NotBoth(FormatTime(since), FormatTime(createdAt));
    }
    if Since(createdAt, since) {
      TextSkewUnderOneSecond(since, createdAt);
    }
  }

  /** What is selected lies between two sets that differ by under two seconds at the window's edge. */
  lemma SelectedBetween(table: Table, f: Filter, sure: Table, maybe: Table)
    requires HasKey(f) && TimesInRange(table) && InRange(f.since) && sure <= table
    requires forall s :: s in sure ==> f.since + SECOND <= s.createdAt && Keyed(s, f)
    requires forall s :: s in table && Keyed(s, f) && f.since < s.createdAt + SECOND ==> s in maybe
    ensures sure <= Selected(table, f) <= maybe
    ensures |sure| <= Count(table, f) <= |maybe|
  {
    hide Since;
    forall s | s in table
      ensures f.since + SECOND <= s.createdAt ==> Since(s.createdAt, f.since)
      ensures Since(s.createdAt, f.since) ==> f.since < s.createdAt + SECOND
    {
      SinceBounds(s.createdAt, f.since);
    }
    SmallerSet(sure, Selected(table, f));
    SmallerSet(Selected(table, f), maybe);
  }

  /** The filter's conditions but for the time. */
  predicate Keyed(s: Signal, f: Filter) {
    && s.kind in f.kinds
    && (Trim(f.remoteIp) != "" ==> s.remoteIp == Trim(f.remoteIp))
    && (f.address != 0 ==> s.address == f.address)
    && (Trim(f.fingerprint) != "" ==> s.fingerprint == Trim(f.fingerprint))
  }

  /** The kinds of signal that speak against a client. */
  predicate Abusive(s: Signal) {
    || s.kind == CaptchaFailed || s.kind == RiskRejected || s.kind == RateLimited || s.kind == CooldownActive
    || s.kind == DailyBudgetExceeded
  }

  lemma AbusiveKinds()
    ensures forall s: Signal :: Abusive(s) <==> s.kind in NEGATIVE
  {
  }

  /** The IP count is the number of signals that speak against that IP in the enforcement window (an
      hour unless configured), up to the second at the window's edge: at least as many as any set of
      them well inside, at most as many as any set that holds all of them that are near. */
  lemma IpCountExact(cfg: Config, table: Table, i: Input, now: nat, since: nat, sure: Table, maybe: Table)
    requires ClockOk(cfg, now) && InRange(now) && TimesInRange(table) && Trim(i.remoteIp) != ""
    requires since == now - (if cfg.windowSecs <= 0 then 3600 else cfg.windowSecs) * SECOND
    requires sure <= table && forall s :: s in sure ==> Abusive(s) && s.remoteIp == Trim(i.remoteIp) && since + SECOND <= s.createdAt
    requires forall s :: s in table && Abusive(s) && s.remoteIp == Trim(i.remoteIp) && since < s.createdAt + SECOND ==> s in maybe
    ensures |sure| <= Count(table, ByIp(cfg, i, now)) <= |maybe|
  {
    hide Count, Trim, TimesInRange;
    TrimEmpty();
    AbusiveKinds();
    SelectedBetween(table, ByIp(cfg, i, now), sure, maybe);
  }

  /** Likewise for the address, */
  lemma AddressCountExact(cfg: Config, table: Table, i: Input, now: nat, since: nat, sure: Table, maybe: Table)
    requires ClockOk(cfg, now) && InRange(now) && TimesInRange(table) && i.address != 0
    requires since == now - (if cfg.windowSecs <= 0 then 3600 else cfg.windowSecs) * SECOND
    requires sure <= table && forall s :: s in sure ==> Abusive(s) && s.address == i.address && since + SECOND <= s.createdAt
    requires forall s :: s in table && Abusive(s) && s.address == i.address && since < s.createdAt + SECOND ==> s in maybe
    ensures |sure| <= Count(table, ByAddress(cfg, i, now)) <= |maybe|
  {
    hide Count, Trim, TimesInRange;
    TrimEmpty();
    AbusiveKinds();
    SelectedBetween(table, ByAddress(cfg, i, now), sure, maybe);
  }

  /** and for the fingerprint. */
  lemma FingerprintCountExact(cfg: Config, table: Table, i: Input, now: nat, since: nat, sure: Table, maybe: Table)
    requires ClockOk(cfg, now) && InRange(now) && TimesInRange(table) && Trim(i.fingerprint) != ""
    requires since == now - (if cfg.windowSecs <= 0 then 3600 else cfg.windowSecs) * SECOND
    requires sure <= table && forall s :: s in sure ==> Abusive(s) && s.fingerprint == Trim(i.fingerprint) && since + SECOND <= s.createdAt
    requires forall s :: s in table && Abusive(s) && s.fingerprint == Trim(i.fingerprint) && since < s.createdAt + SECOND ==> s in maybe
    ensures |sure| <= Count(table, ByFingerprint(cfg, i, now)) <= |maybe|
  {
    hide Count, Trim, TimesInRange;
    TrimEmpty();
    AbusiveKinds();
    SelectedBetween(table, ByFingerprint(cfg, i, now), sure, maybe);
  }

  /** Without a signal that speaks against the client no scope is ever exceeded, and signals of other
      clients exceed none of this one's. */
  lemma NoAbuseNoScope(cfg: Config, table: Table, i: Input, now: nat)
    requires ClockOk(cfg, now)
    requires forall s :: s in table && Abusive(s) ==>
               s.remoteIp != Trim(i.remoteIp) && s.address != i.address && s.fingerprint != Trim(i.fingerprint)
    ensures Count(table, ByIp(cfg, i, now)) == Count(table, ByAddress(cfg, i, now)) == Count(table, ByFingerprint(cfg, i, now)) == 0
    ensures !ScopeExceeded(cfg, table, i, now)
  {
    hide Trim, Since;
    TrimEmpty();
    AbusiveKinds();
    assert Selected(table, ByIp(cfg, i, now)) == {};
    assert Selected(table, ByAddress(cfg, i, now)) == {};
    assert Selected(table, ByFingerprint(cfg, i, now)) == {};
  }

  /** Enough signals that speak against the client, of one key and well inside the window, exceed that
      key's scope, whatever else the table holds. */
  lemma EnoughAbuseExceeds(cfg: Config, table: Table, i: Input, now: nat, since: nat, some: Table)
    requires ClockOk(cfg, now) && InRange(now) && TimesInRange(table) && some <= table
    requires since == now - (if cfg.windowSecs <= 0 then 3600 else cfg.windowSecs) * SECOND
    requires forall s :: s in some ==> Abusive(s) && since + SECOND <= s.createdAt
    ensures 0 < cfg.ipThreshold <= |some| && Trim(i.remoteIp) != "" && (forall s :: s in some ==> s.remoteIp == Trim(i.remoteIp)) ==>
              0 < cfg.ipThreshold <= Count(table, ByIp(cfg, i, now)) && ScopeExceeded(cfg, table, i, now)
    ensures 0 < cfg.addressThreshold <= |some| && i.address != 0 && (forall s :: s in some ==> s.address == i.address) ==>
              0 < cfg.addressThreshold <= Count(table, ByAddress(cfg, i, now)) && ScopeExceeded(cfg, table, i, now)
    ensures 0 < cfg.fingerprintThreshold <= |some| && Trim(i.fingerprint) != ""
            && (forall s :: s in some ==> s.fingerprint == Trim(i.fingerprint)) ==>
              0 < cfg.fingerprintThreshold <= Count(table, ByFingerprint(cfg, i, now)) && ScopeExceeded(cfg, table, i, now)
  {
    hide Count, Trim, TimesInRange;
    if Trim(i.remoteIp) != "" && forall s :: s in some ==> s.remoteIp == Trim(i.remoteIp) {
      IpCountExact(cfg, table, i, now, since, some, table);
    }
    if i.address != 0 && forall s :: s in some ==> s.address == i.address {
      AddressCountExact(cfg, table, i, now, since, some, table);
    }
    if Trim(i.fingerprint) != "" && forall s :: s in some ==> s.fingerprint == Trim(i.fingerprint) {
      FingerprintCountExact(cfg, table, i, now, since, some, table);
    }
  }

  /** A blank IP, the zero address and a blank fingerprint count nothing. */
  lemma NoKeyNoCount(cfg: Config, table: Table, i: Input, now: nat)
    requires ClockOk(cfg, now)
    ensures Trim(i.remoteIp) == "" ==> Count(table, ByIp(cfg, i, now)) == 0
    ensures i.address == 0 ==> Count(table, ByAddress(cfg, i, now)) == 0
    ensures Trim(i.fingerprint) == "" ==> Count(table, ByFingerprint(cfg, i, now)) == 0
  {
    TrimEmpty();
  }

  /** The burst heuristic counts every signal of the IP in the burst window (five minutes unless
      configured), of whatever kind. */
  lemma BurstCountExact(cfg: Config, table: Table, i: Input, now: nat, since: nat, sure: Table, maybe: Table)
    requires ClockOk(cfg, now) && InRange(now) && TimesInRange(table) && Trim(i.remoteIp) != ""
    requires since == now - (if cfg.burstWindowSecs <= 0 then 300 else cfg.burstWindowSecs) * SECOND
    requires sure <= table && forall s :: s in sure ==> s.remoteIp == Trim(i.remoteIp) && since + SECOND <= s.createdAt
    requires forall s :: s in table && s.remoteIp == Trim(i.remoteIp) && since < s.createdAt + SECOND ==> s in maybe
    ensures |sure| <= Count(table, ForBurst(cfg, i, now)) <= |maybe|
  {
    hide Count, Trim, TimesInRange;
    TrimEmpty();
    EveryKind();
    SelectedBetween(table, ForBurst(cfg, i, now), sure, maybe);
  }

  lemma EveryKind()
    ensures forall s: Signal :: s.kind in ACTIVITY
  {
    forall s: Signal
      ensures s.kind in ACTIVITY
    {
      match s.kind
      case CaptchaPassed => case CaptchaFailed => case RiskAllowed => case RiskRejected => case ManualReview =>
      case CooldownActive => case RateLimited => case DailyBudgetExceeded => case InvalidToken => case ClaimAccepted =>
    }
  }

  /** The rotation heuristic counts the different IPs of a fingerprint in the enforcement window, over
      every kind of signal. */
  lemma RotationExact(cfg: Config, table: Table, i: Input, now: nat, since: nat, sure: Table, maybe: Table)
    requires ClockOk(cfg, now) && InRange(now) && TimesInRange(table) && Trim(i.fingerprint) != ""
    requires since == now - (if cfg.windowSecs <= 0 then 3600 else cfg.windowSecs) * SECOND
    requires sure <= table && forall s :: s in sure ==> s.fingerprint == Trim(i.fingerprint) && since + SECOND <= s.createdAt
    requires forall s :: s in table && s.fingerprint == Trim(i.fingerprint) && since < s.createdAt + SECOND ==> s in maybe
    ensures |set s | s in sure && s.remoteIp != "" :: s.remoteIp| <= DistinctIps(table, ForRotation(cfg, i, now))
            <= |set s | s in maybe && s.remoteIp != "" :: s.remoteIp|
  {
    hide DistinctIps, DistinctAddresses, Count, Trim, TimesInRange, Selected;
    TrimEmpty();
    EveryKind();
    SelectedBetween(table, ForRotation(cfg, i, now), sure, maybe);
    DistinctBetween(table, ForRotation(cfg, i, now), sure, maybe);
  }

  /** The cluster heuristic counts the different addresses of a fingerprint, or of an IP when there is
      no fingerprint. */
  lemma ClusterExact(cfg: Config, table: Table, i: Input, now: nat, since: nat, sure: Table, maybe: Table)
    requires ClockOk(cfg, now) && InRange(now) && TimesInRange(table) && (Trim(i.fingerprint) != "" || Trim(i.remoteIp) != "")
    requires since == now - (if cfg.windowSecs <= 0 then 3600 else cfg.windowSecs) * SECOND
    requires sure <= table && forall s :: s in sure ==> since + SECOND <= s.createdAt && Clustering(s, i)
    requires forall s :: s in table && since < s.createdAt + SECOND && Clustering(s, i) ==> s in maybe
    ensures |set s | s in sure && s.address != 0 :: s.address| <= DistinctAddresses(table, ForCluster(cfg, i, now))
            <= |set s | s in maybe && s.address != 0 :: s.address|
  {
    hide DistinctIps, DistinctAddresses, Count, Trim, TimesInRange, Selected;
    TrimEmpty();
    EveryKind();
    SelectedBetween(table, ForCluster(cfg, i, now), sure, maybe);
    DistinctBetween(table, ForCluster(cfg, i, now), sure, maybe);
  }

  /** The signal is of the request's fingerprint, or of its IP when it has none. */
  predicate Clustering(s: Signal, i: Input) {
    if Trim(i.fingerprint) != "" then s.fingerprint == Trim(i.fingerprint) else s.remoteIp == Trim(i.remoteIp)
  }

  lemma DistinctBetween(table: Table, f: Filter, sure: Table, maybe: Table)
    requires sure <= Selected(table, f) <= maybe
    ensures |set s | s in sure && s.remoteIp != "" :: s.remoteIp| <= DistinctIps(table, f)
            <= |set s | s in maybe && s.remoteIp != "" :: s.remoteIp|
    ensures |set s | s in sure && s.address != 0 :: s.address| <= DistinctAddresses(table, f)
            <= |set s | s in maybe && s.address != 0 :: s.address|
  {
    hide Selected;
    var selected := Selected(table, f);
    SmallerSet(set s | s in sure && s.remoteIp != "" :: s.remoteIp, set s | s in selected && s.remoteIp != "" :: s.remoteIp);
    SmallerSet(set s | s in selected && s.remoteIp != "" :: s.remoteIp, set s | s in maybe && s.remoteIp != "" :: s.remoteIp);
    SmallerSet(set s | s in sure && s.address != 0 :: s.address, set s | s in selected && s.address != 0 :: s.address);
    SmallerSet(set s | s in selected && s.address != 0 :: s.address, set s | s in maybe && s.address != 0 :: s.address);
  }

  /** When a request is turned away, in terms of those counts and the configured thresholds alone. */
  lemma RejectsExactly(cfg: Config, table: Table, i: Input, now: nat, later: nat)
    requires ClockOk(cfg, now) && ClockOk(cfg, later)
    ensures var fires := (if 0 < cfg.burstThreshold <= Count(table, ForBurst(cfg, i, later)) then 2 else 0)
                         + (if 0 < cfg.rotatingIpThreshold <= DistinctIps(table, ForRotation(cfg, i, later)) then 2 else 0)
                         + (if 0 < cfg.clusterThreshold <= DistinctAddresses(table, ForCluster(cfg, i, later)) then 2 else 0);
            Rejects(cfg, table, i, now, later) <==>
              && cfg.enabled
              && (|| (cfg.honeypotEnabled && Trim(i.honeypot) != "")
                  || 0 < cfg.ipThreshold <= Count(table, ByIp(cfg, i, now))
                  || 0 < cfg.addressThreshold <= Count(table, ByAddress(cfg, i, now))
                  || 0 < cfg.fingerprintThreshold <= Count(table, ByFingerprint(cfg, i, now))
                  || fires >= if cfg.rejectThreshold <= 0 then 5 else cfg.rejectThreshold)
  {
    hide Count, DistinctIps, DistinctAddresses, ByIp, ByAddress, ByFingerprint, ForBurst, ForRotation, ForCluster, Trim;
  }

  // ---- Monotonicity ----

  lemma SmallerSet<T>(a: set<T>, b: set<T>)
    requires a <= b
    ensures |a| <= |b|
  {
    assert b == a + (b - a);
  }

  lemma CountsGrow(table: Table, more: Table, f: Filter)
    requires table <= more
    ensures Count(table, f) <= Count(more, f)
    ensures DistinctIps(table, f) <= DistinctIps(more, f)
    ensures DistinctAddresses(table, f) <= DistinctAddresses(more, f)
  {
    hide Matches;
    SmallerSet(Selected(table, f), Selected(more, f));
    SmallerSet(set s | s in Selected(table, f) && s.remoteIp != "" :: s.remoteIp,
               set s | s in Selected(more, f) && s.remoteIp != "" :: s.remoteIp);
    SmallerSet(set s | s in Selected(table, f) && s.address != 0 :: s.address,
               set s | s in Selected(more, f) && s.address != 0 :: s.address);
  }

  /** Recording signals, any number of any kind, never turns a rejection into an allow. */
  lemma MoreSignalsNeverHelp(cfg: Config, table: Table, more: Table, i: Input, now: nat, later: nat)
    requires ClockOk(cfg, now) && ClockOk(cfg, later)
    requires table <= more && Rejects(cfg, table, i, now, later)
    ensures Rejects(cfg, more, i, now, later)
  {
    hide Count, DistinctIps, DistinctAddresses;
    CountsGrow(table, more, ByIp(cfg, i, now));
    CountsGrow(table, more, ByAddress(cfg, i, now));
    CountsGrow(table, more, ByFingerprint(cfg, i, now));
    CountsGrow(table, more, ForBurst(cfg, i, later));
    CountsGrow(table, more, ForRotation(cfg, i, later));
    CountsGrow(table, more, ForCluster(cfg, i, later));
  }

  // ---- Pruning ----

  /** DELETE ... WHERE created_at < cutoff, as text. */
  function Pruned(table: Table, cutoff: nat): Table {
    set s | s in table && Since(s.createdAt, cutoff)
  }

  /** A retention of zero days or less keeps everything. */
  function PruneByRetention(table: Table, days: int, now: nat): Table
    requires days * DAY <= now
  {
    if days <= 0 then table else Pruned(table, now - days * DAY)
  }

  /** A signal dropped at `prunedAt` is outside a window that ends at or after that moment. */
  predicate Spares(retention: nat, window: nat, prunedAt: nat, now: nat, createdAt: nat) {
    (retention <= prunedAt <= now && window <= now && InRange(now) && createdAt <= now
     && !Since(createdAt, prunedAt - retention)) ==> !Since(createdAt, now - window)
  }

  lemma LongRetentionSpares(retention: nat, window: nat, prunedAt: nat, now: nat, createdAt: nat)
    requires retention >= window + SECOND
    ensures Spares(retention, window, prunedAt, now, createdAt)
  {
    hide Since;
    if retention <= prunedAt <= now && window <= now && InRange(now) && createdAt <= now
       && !Since(createdAt, prunedAt - retention) {
      DroppedIsOlder(createdAt, prunedAt - retention, now - window);
    }
  }

  lemma DroppedIsOlder(createdAt: nat, cutoff: nat, since: nat)
    requires cutoff + SECOND <= since && InRange(since) && InRange(createdAt)
    requires !Since(createdAt, cutoff)
    ensures !Since(createdAt, since)
  {
    NotBoth(FormatTime(createdAt), FormatTime(cutoff));
    TextSkewUnderOneSecond(createdAt, cutoff);
    assert (cutoff + SECOND) / SECOND == cutoff / SECOND + 1;
    assert (cutoff + SECOND) / SECOND <= since / SECOND;
    DayInRange(since);
    DayInRange(createdAt);
    SecondsDecide(createdAt / SECOND, since / SECOND, FractionTail(createdAt), FractionTail(since));
  }

  /** Half past a whole second sorts before it. */
  lemma HalfSecondInverts(t: nat)
    requires t % SECOND == 0 && InRange(t + SECOND / 2)
    ensures TextLess(FormatTime(t + SECOND / 2), FormatTime(t))
  {
    hide FormatTime, FractionDigits;
    var h := t + SECOND / 2;
    assert h / SECOND == t / SECOND;
    WholeSecond(t);
    TextOrderExact(h, t);
    TextLessTotal(FormatTime(h), FormatTime(t));
  }

  lemma WholeSecond(t: nat)
    requires t % SECOND == 0
    ensures FractionDigits(t) == ""
  {
    hide Pad;
    AllZeros(t % SECOND, 9);
    var u := FractionDigits(t);
    assert u <= Pad(t % SECOND, 9);
  }

  /** A retention in days and a window in seconds: pruning spares every later window, whenever it
      happens, exactly when the retention is the longer of the two. Equal lengths are not enough,
      because the cutoff's text can sort after later instants of its own second. */
  lemma SparesExactly(days: nat, windowSecs: nat)
    requires InRange(days * DAY + windowSecs * SECOND + SECOND)
    ensures (forall prunedAt: nat, now: nat, createdAt: nat ::
              Spares(days * DAY, windowSecs * SECOND, prunedAt, now, createdAt)) <==> days * 86_400 > windowSecs
  {
    var retention, window := days * DAY, windowSecs * SECOND;
    assert retention == days * 86_400 * SECOND;
    if days * 86_400 > windowSecs {
      assert retention >= window + SECOND;
      forall prunedAt: nat, now: nat, createdAt: nat
        ensures Spares(retention, window, prunedAt, now, createdAt)
      {
        LongRetentionSpares(retention, window, prunedAt, now, createdAt);
      }
    } else {
      var prunedAt, now, createdAt := ShortRetentionDrops(days * 86_400, windowSecs);
      assert !Spares(retention, window, prunedAt, now, createdAt);
    }
  }

  lemma ShortRetentionDrops(retentionSecs: nat, windowSecs: nat) returns (prunedAt: nat, now: nat, createdAt: nat)
    requires retentionSecs <= windowSecs && InRange(retentionSecs * SECOND + windowSecs * SECOND + SECOND)
    ensures !Spares(retentionSecs * SECOND, windowSecs * SECOND, prunedAt, now, createdAt)
  {
    var retention, window := retentionSecs * SECOND, windowSecs * SECOND;
    hide Since;
    createdAt := 0;
    prunedAt := window;
    now := window;
    if retentionSecs == windowSecs {
      now := window + SECOND / 2;
      createdAt := SECOND / 2;
    }
    SinceFacts(createdAt, prunedAt - retention);
    assert now - window == createdAt;
  }

  lemma SinceFacts(t: nat, cutoff: nat)
    requires InRange(cutoff + SECOND)
    ensures Since(t, t)
    ensures t + SECOND <= cutoff ==> !Since(t, cutoff)
    ensures t == cutoff + SECOND / 2 && cutoff % SECOND == 0 ==> !Since(t, cutoff)
  {
    hide FormatTime;
    TextLessIrreflexive(FormatTime(t));
    if t + SECOND <= cutoff {
      TextOrderOfSpaced(t, cutoff);
    }
    if t == cutoff + SECOND / 2 && cutoff % SECOND == 0 {
      HalfSecondInverts(cutoff);
    }
  }

  predicate NoneFromTheFuture(table: Table, now: nat) {
    forall s :: s in table ==> s.createdAt <= now
  }

  lemma PruningKeepsSelection(table: Table, added: Table, days: int, prunedAt: nat, f: Filter, window: nat, now: nat)
    requires days * DAY <= prunedAt <= now && InRange(now) && window <= now
    requires days > 0 ==> days * DAY >= window + SECOND
    requires NoneFromTheFuture(table, now) && f.since == now - window
    ensures Selected(PruneByRetention(table, days, prunedAt) + added, f) == Selected(table + added, f)
  {
    hide Since;
    if days > 0 {
      forall s | s in table && !Since(s.createdAt, prunedAt - days * DAY)
        ensures !Matches(s, f)
      {
        LongRetentionSpares(days * DAY, window, prunedAt, now, s.createdAt);
        assert Spares(days * DAY, window, prunedAt, now, s.createdAt);
      }
    }
  }

  /** With a retention longer than both windows, pruning never changes any later decision,
      whatever is recorded in between. */
  lemma PruningKeepsDecisions(cfg: Config, table: Table, added: Table, days: int, prunedAt: nat, i: Input,
                              now: nat, later: nat)
    requires ClockOk(cfg, now) && ClockOk(cfg, later)
    requires days * DAY <= prunedAt <= now <= later && InRange(later) && NoneFromTheFuture(table, now)
    requires days > 0 ==> days * 86_400 > WindowSecs(cfg) && days * 86_400 > BurstSecs(cfg)
    ensures var kept := PruneByRetention(table, days, prunedAt) + added;
            && (Rejects(cfg, kept, i, now, later) <==> Rejects(cfg, table + added, i, now, later))
            && Points(cfg, kept, i, later) == Points(cfg, table + added, i, later)
            && Count(kept, ByIp(cfg, i, now)) == Count(table + added, ByIp(cfg, i, now))
            && Count(kept, ByAddress(cfg, i, now)) == Count(table + added, ByAddress(cfg, i, now))
            && Count(kept, ByFingerprint(cfg, i, now)) == Count(table + added, ByFingerprint(cfg, i, now))
  {
    hide Selected, ByIp, ByAddress, ByFingerprint, ForBurst, ForRotation, ForCluster, PruneByRetention;
    var window, burst := WindowSecs(cfg) * SECOND, BurstSecs(cfg) * SECOND;
    assert days * DAY == days * 86_400 * SECOND;
    FilterTimes(cfg, i, now);
    FilterTimes(cfg, i, later);
    PruningKeepsSelection(table, added, days, prunedAt, ByIp(cfg, i, now), window, now);
    PruningKeepsSelection(table, added, days, prunedAt, ByAddress(cfg, i, now), window, now);
    PruningKeepsSelection(table, added, days, prunedAt, ByFingerprint(cfg, i, now), window, now);
    PruningKeepsSelection(table, added, days, prunedAt, ForBurst(cfg, i, later), burst, later);
    PruningKeepsSelection(table, added, days, prunedAt, ForRotation(cfg, i, later), window, later);
    PruningKeepsSelection(table, added, days, prunedAt, ForCluster(cfg, i, later), window, later);
  }

  lemma FilterTimes(cfg: Config, i: Input, now: nat)
    requires ClockOk(cfg, now)
    ensures var since := now - WindowSecs(cfg) * SECOND;
            && ByIp(cfg, i, now).since == ByAddress(cfg, i, now).since == ByFingerprint(cfg, i, now).since == since
            && ForRotation(cfg, i, now).since == ForCluster(cfg, i, now).since == since
            && ForBurst(cfg, i, now).since == now - BurstSecs(cfg) * SECOND
  {
  }

  // ---- When pruning can change a decision ----

  /** Pruning at `prunedAt` does not change the decision taken later. */
  predicate KeepsDecision(cfg: Config, table: Table, days: int, prunedAt: nat, i: Input, now: nat)
  {
    ClockOk(cfg, now) && days * DAY <= prunedAt <= now && InRange(now) && NoneFromTheFuture(table, now) ==>
      (Rejects(cfg, PruneByRetention(table, days, prunedAt), i, now, now) <==> Rejects(cfg, table, i, now, now))
  }

  /** n signals from one address on the network, all of one moment. */
  function Flood(ip: string, createdAt: nat, n: nat): Table {
    set k | 0 <= k < n :: Signal(k, RateLimited, 0, ip, "", createdAt)
  }

  lemma {:induction false} FloodSize(ip: string, createdAt: nat, n: nat)
    ensures |Flood(ip, createdAt, n)| == n
  {
    if n > 0 {
      FloodSize(ip, createdAt, n - 1);
      var last := Signal(n - 1, RateLimited, 0, ip, "", createdAt);
      assert Flood(ip, createdAt, n) == Flood(ip, createdAt, n - 1) + {last};
    }
  }

  lemma EmptyNeverRejects(cfg: Config, i: Input, now: nat)
    requires ClockOk(cfg, now) && !Trapped(cfg, i)
    ensures !Rejects(cfg, {}, i, now, now)
  {
    hide Matches;
    NothingSelected(ByIp(cfg, i, now));
    NothingSelected(ByAddress(cfg, i, now));
    NothingSelected(ByFingerprint(cfg, i, now));
    NothingSelected(ForBurst(cfg, i, now));
    NothingSelected(ForRotation(cfg, i, now));
    NothingSelected(ForCluster(cfg, i, now));
  }

  lemma NothingSelected(f: Filter)
    ensures Count({}, f) == 0 && DistinctIps({}, f) == 0 && DistinctAddresses({}, f) == 0
  {
    hide Matches;
    assert Selected({}, f) == {};
    assert (set s | s in Selected({}, f) && s.remoteIp != "" :: s.remoteIp) == {};
    assert (set s | s in Selected({}, f) && s.address != 0 :: s.address) == {};
  }

  lemma FloodRejects(cfg: Config, createdAt: nat, now: nat)
    requires cfg.enabled && cfg.ipThreshold > 0 && ClockOk(cfg, now)
    requires Since(createdAt, now - WindowSecs(cfg) * SECOND)
    ensures Rejects(cfg, Flood("x", createdAt, cfg.ipThreshold), Input(0, "x", "", ""), now, now)
  {
    hide Since;
    var i, table := Input(0, "x", "", ""), Flood("x", createdAt, cfg.ipThreshold);
    TrimExact("x");
    TrimEmpty();
    FloodSize("x", createdAt, cfg.ipThreshold);
    assert Selected(table, ByIp(cfg, i, now)) == table;
  }

  /** With the IP check on and the burst window the shorter one, pruning by a positive retention
      changes no later decision, whatever the table and whenever it happens, exactly when the
      retention is longer than the enforcement window. */
  lemma PruningSafeExactly(cfg: Config, days: nat)
    requires cfg.enabled && cfg.ipThreshold > 0 && BurstSecs(cfg) <= WindowSecs(cfg) && days > 0
    requires InRange(days * DAY + WindowSecs(cfg) * SECOND + SECOND)
    ensures (forall table: Table, prunedAt: nat, i: Input, now: nat :: KeepsDecision(cfg, table, days, prunedAt, i, now))
            <==> days * 86_400 > WindowSecs(cfg)
  {
    hide KeepsDecision;
    if days * 86_400 > WindowSecs(cfg) {
      forall table: Table, prunedAt: nat, i: Input, now: nat
        ensures KeepsDecision(cfg, table, days, prunedAt, i, now)
      {
        LongRetentionKeeps(cfg, table, days, prunedAt, i, now);
      }
    } else {
      ShortRetentionChanges(cfg, days);
    }
  }

  lemma LongRetentionKeeps(cfg: Config, table: Table, days: nat, prunedAt: nat, i: Input, now: nat)
    requires BurstSecs(cfg) <= WindowSecs(cfg) < days * 86_400
    ensures KeepsDecision(cfg, table, days, prunedAt, i, now)
  {
    hide Rejects, PruneByRetention, Points, Count, ByIp, ByAddress, ByFingerprint, InRange, ClockOk, NoneFromTheFuture;
    if ClockOk(cfg, now) && days * DAY <= prunedAt <= now && InRange(now) && NoneFromTheFuture(table, now) {
      PruningKeepsDecisions(cfg, table, {}, days, prunedAt, i, now, now);
      assert table + {} == table;
      assert PruneByRetention(table, days, prunedAt) + {} == PruneByRetention(table, days, prunedAt);
    }
  }

  lemma ShortRetentionChanges(cfg: Config, days: nat)
    requires cfg.enabled && cfg.ipThreshold > 0 && BurstSecs(cfg) <= WindowSecs(cfg) && 0 < days * 86_400 <= WindowSecs(cfg)
    requires InRange(days * DAY + WindowSecs(cfg) * SECOND + SECOND)
    ensures exists table: Table, prunedAt: nat, i: Input, now: nat :: !KeepsDecision(cfg, table, days, prunedAt, i, now)
  {
    hide Rejects, Since;
    var retention, window := days * DAY, WindowSecs(cfg) * SECOND;
    assert retention == days * 86_400 * SECOND;
    var prunedAt, now, createdAt := ShortRetentionDrops(days * 86_400, WindowSecs(cfg));
    var i, table := Input(0, "x", "", ""), Flood("x", createdAt, cfg.ipThreshold);
    assert PruneByRetention(table, days, prunedAt) == {};
    TrimEmpty();
    EmptyNeverRejects(cfg, i, now);
    FloodRejects(cfg, createdAt, now);
    assert NoneFromTheFuture(table, now);
    assert !KeepsDecision(cfg, table, days, prunedAt, i, now);
  }
}
