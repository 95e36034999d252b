/** Timestamps as the store keeps them. Columns hold RFC 3339 text and SQL compares that
    text, so whether a query means what it says depends on how the text order relates to time. */
module TimeText {
  import opened Text

  // Instants are nanoseconds since 0000-01-01T00:00:00Z.
  const SECOND: nat := 1_000_000_000
  const DAY: nat := 86_400 * SECOND

  // ---- The proleptic Gregorian calendar ----

  predicate IsLeap(y: nat) {
    y % 4 == 0 && (y % 100 != 0 || y % 400 == 0)
  }

  function YearLength(y: nat): nat {
    if IsLeap(y) then 366 else 365
  }

  function MonthLength(y: nat, m: nat): nat {
    if m == 2 then (if IsLeap(y) then 29 else 28)
    else if m == 4 || m == 6 || m == 9 || m == 11 then 30
    else 31
  }

  function DaysBeforeYear(y: nat): nat {
    if y == 0 then 0 else DaysBeforeYear(y - 1) + YearLength(y - 1)
  }

  function DaysBeforeMonth(y: nat, m: nat): nat {
    if m <= 1 then 0 else DaysBeforeMonth(y, m - 1) + MonthLength(y, m - 1)
  }

  lemma {:induction false} YearsGrow(a: nat, b: nat)
    requires a <= b
    ensures DaysBeforeYear(a) <= DaysBeforeYear(b)
  {
    if a < b {
      YearsGrow(a, b - 1);
    }
  }

  lemma {:induction false} MonthsGrow(y: nat, a: nat, b: nat)
    requires a <= b
    ensures DaysBeforeMonth(y, a) <= DaysBeforeMonth(y, b)
  {
    if a < b {
      MonthsGrow(y, a, b - 1);
    }
  }

  lemma MonthsFillYear(y: nat)
    ensures DaysBeforeMonth(y, 13) == YearLength(y)
  {
    assert DaysBeforeMonth(y, 2) == 31;
    assert DaysBeforeMonth(y, 3) == 31 + MonthLength(y, 2);
    assert DaysBeforeMonth(y, 4) == 62 + MonthLength(y, 2);
    assert DaysBeforeMonth(y, 5) == 92 + MonthLength(y, 2);
    assert DaysBeforeMonth(y, 6) == 123 + MonthLength(y, 2);
    assert DaysBeforeMonth(y, 7) == 153 + MonthLength(y, 2);
    assert DaysBeforeMonth(y, 8) == 184 + MonthLength(y, 2);
    assert DaysBeforeMonth(y, 9) == 215 + MonthLength(y, 2);
    assert DaysBeforeMonth(y, 10) == 245 + MonthLength(y, 2);
    assert DaysBeforeMonth(y, 11) == 276 + MonthLength(y, 2);
    assert DaysBeforeMonth(y, 12) == 306 + MonthLength(y, 2);
  }

  /** The year holding day `d`, searched upward from `y`. */
  function YearFrom(d: nat, y: nat): (r: nat)
    requires DaysBeforeYear(y) <= d
    ensures DaysBeforeYear(r) <= d < DaysBeforeYear(r + 1)
    decreases d - DaysBeforeYear(y)
  {
    if d < DaysBeforeYear(y + 1) then y else YearFrom(d, y + 1)
  }

  /** The month of year `y` holding its day `d` (counted from 0), searched upward from `m`. */
  function MonthFrom(y: nat, d: nat, m: nat): (r: nat)
    requires 1 <= m <= 12 && DaysBeforeMonth(y, m) <= d < YearLength(y)
    ensures 1 <= r <= 12 && DaysBeforeMonth(y, r) <= d < DaysBeforeMonth(y, r + 1)
    decreases 12 - m
  {
    MonthsFillYear(y);
    if d < DaysBeforeMonth(y, m + 1) then m else MonthFrom(y, d, m + 1)
  }

  datatype Date = Date(year: nat, month: nat, day: nat)

  function DateOf(d: nat): (r: Date)
    ensures 1 <= r.month <= 12 && 1 <= r.day <= 31
    ensures DateHolds(r, d)
  {
    var y := YearFrom(d, 0);
    var m := MonthFrom(y, d - DaysBeforeYear(y), 1);
    Date(y, m, d - DaysBeforeYear(y) - DaysBeforeMonth(y, m) + 1)
  }

  /** Later days have lexicographically later (year, month, day). */
  predicate Before(a: Date, b: Date) {
    || a.year < b.year
    || (a.year == b.year && (a.month < b.month || (a.month == b.month && a.day < b.day)))
  }

  predicate DateHolds(c: Date, d: nat) {
    && DaysBeforeYear(c.year) <= d < DaysBeforeYear(c.year + 1)
    && DaysBeforeYear(c.year) + DaysBeforeMonth(c.year, c.month) <= d
    && d < DaysBeforeYear(c.year) + DaysBeforeMonth(c.year, c.month + 1)
    && d == DaysBeforeYear(c.year) + DaysBeforeMonth(c.year, c.month) + c.day - 1
  }

  lemma DateOrder(a: Date, d: nat, b: Date, e: nat)
    requires DateHolds(a, d) && DateHolds(b, e) && d < e
    ensures Before(a, b)
  {
    if a.year > b.year {
      YearsGrow(b.year + 1, a.year);
    } else if a.year == b.year && a.month > b.month {
      MonthsGrow(a.year, b.month + 1, a.month);
    }
  }

  // ---- The text layout ----

  const YEAR_LIMIT := 10_000

  /** Four digits up to year 9999, as many as needed after that. */
  function YearText(y: nat): string {
    if y < YEAR_LIMIT then Pad(y, 4) else Decimal(y)
  }

  function DateText(d: nat): string {
    var c := DateOf(d);
    YearText(c.year) + ("-" + (Pad(c.month, 2) + ("-" + Pad(c.day, 2))))
  }

  function ClockText(s: nat): string
    requires s < 86_400
  {
    Pad(s / 3600, 2) + (":" + (Pad(s / 60 % 60, 2) + (":" + Pad(s % 60, 2))))
  }

  /** The part of a timestamp down to whole seconds. */
  function Stamp(second: nat): string {
    DateText(second / 86_400) + ("T" + ClockText(second % 86_400))
  }

  function TrimZeros(s: string): (r: string)
    ensures r <= s
    ensures r != "" ==> r[|r| - 1] != '0'
    ensures forall i :: |r| <= i < |s| ==> s[i] == '0'
  {
    if s != "" && s[|s| - 1] == '0' then TrimZeros(s[..|s| - 1]) else s
  }

  /** The fraction digits that RFC3339Nano prints: nine digits less trailing zeros. */
  function FractionDigits(t: nat): string {
    TrimZeros(Pad(t % SECOND, 9))
  }

  function FractionTail(t: nat): string {
    (if FractionDigits(t) == "" then "" else "." + FractionDigits(t)) + "Z"
  }

  function FormatTime(t: nat): string {
    Stamp(t / SECOND) + FractionTail(t)
  }

  function FormatBudgetBound(t: nat): string {
    Stamp(t / SECOND) + ("." + Pad(t % SECOND, 9) + "Z")
  }

  /** Days before year 10000: RFC 3339 dates have four-digit years. */
  const DAY_LIMIT: nat := 3_652_425

  predicate InRange(t: nat) {
    t < DAY_LIMIT * DAY
  }

  /** The number of multiples of k below y. */
  function Multiples(y: nat, k: nat): nat
    requires k > 0
  {
    if y == 0 then 0 else Multiples(y - 1, k) + if (y - 1) % k == 0 then 1 else 0
  }

  lemma {:induction false} MultiplesOf4(y: nat)
    ensures y <= 4 * Multiples(y, 4) < y + 4
  {
    if y > 0 {
      MultiplesOf4(y - 1);
      var q, r := (y - 1) / 4, (y - 1) % 4;
      assert y - 1 == 4 * q + r && 0 <= r < 4;
    }
  }

  lemma {:induction false} MultiplesOf100(y: nat)
    ensures y <= 100 * Multiples(y, 100) < y + 100
  {
    if y > 0 {
      MultiplesOf100(y - 1);
      var q, r := (y - 1) / 100, (y - 1) % 100;
      assert y - 1 == 100 * q + r && 0 <= r < 100;
    }
  }

  lemma {:induction false} MultiplesOf400(y: nat)
    ensures y <= 400 * Multiples(y, 400) < y + 400
  {
    if y > 0 {
      MultiplesOf400(y - 1);
      var q, r := (y - 1) / 400, (y - 1) % 400;
      assert y - 1 == 400 * q + r && 0 <= r < 400;
    }
  }

  lemma {:induction false} LeapDays(y: nat)
    ensures DaysBeforeYear(y) == 365 * y + Multiples(y, 4) - Multiples(y, 100) + Multiples(y, 400)
  {
    hide YearLength;
    if y > 0 {
      LeapDays(y - 1);
      LeapCount(y - 1);
    }
  }

  lemma LeapCount(x: nat)
    ensures YearLength(x) == 365 + (if x % 4 == 0 then 1 else 0) - (if x % 100 == 0 then 1 else 0)
                             + if x % 400 == 0 then 1 else 0
  {
    Divisibility(x);
  }

  lemma Divisibility(x: nat)
    ensures x % 400 == 0 ==> x % 100 == 0
    ensures x % 100 == 0 ==> x % 4 == 0
  {
    if x % 400 == 0 {
      assert x == 100 * (4 * (x / 400));
    }
    if x % 100 == 0 {
      assert x == 4 * (25 * (x / 100));
    }
  }

  lemma LateYear(y: nat)
    requires y >= YEAR_LIMIT
    ensures DaysBeforeYear(y) >= DAY_LIMIT
  {
    LeapDays(y);
    MultiplesOf4(y);
    MultiplesOf100(y);
    MultiplesOf400(y);
  }

  lemma FourDigitYear(d: nat)
    requires d < DAY_LIMIT
    ensures DateOf(d).year < YEAR_LIMIT
  {
    var y := DateOf(d).year;
    if y >= YEAR_LIMIT {
      LateYear(y);
    }
  }

  lemma DayInRange(t: nat)
    requires InRange(t)
    ensures t / SECOND / 86_400 < DAY_LIMIT
  {
    assert t / SECOND < DAY_LIMIT * 86_400;
  }

  // ---- Order of the whole-second part ----

  lemma JoinLess(a: string, b: string, p: string, x: string, y: string)
    requires |a| == |b|
    requires TextLess(a, b) || (a == b && TextLess(x, y))
    ensures TextLess(a + (p + x), b + (p + y))
  {
    if TextLess(a, b) {
      TextLessSameLength(a, b, p + x, p + y);
    } else {
      TextLessCommonPrefix(p, x, y);
      TextLessCommonPrefix(a, p + x, p + y);
    }
  }

  lemma DateTextOrder(d: nat, e: nat)
    requires d < e < DAY_LIMIT
    ensures |DateText(d)| == |DateText(e)| == 10 && TextLess(DateText(d), DateText(e))
  {
    DateOrder(DateOf(d), d, DateOf(e), e);
    FourDigitYear(d);
    FourDigitYear(e);
    var a, b := DateOf(d), DateOf(e);
    assert Pow10(4) == 10_000 && Pow10(2) == 100;
    if a.year < b.year {
      PadOrder(a.year, b.year, 4);
    } else {
      if a.month < b.month {
        PadOrder(a.month, b.month, 2);
      } else {
        PadOrder(a.day, b.day, 2);
      }
      JoinLess(Pad(a.month, 2), Pad(b.month, 2), "-", Pad(a.day, 2), Pad(b.day, 2));
    }
    JoinLess(YearText(a.year), YearText(b.year), "-",
             Pad(a.month, 2) + ("-" + Pad(a.day, 2)), Pad(b.month, 2) + ("-" + Pad(b.day, 2)));
  }

  lemma ClockParts(s: nat)
    ensures s == 3600 * (s / 3600) + 60 * (s / 60 % 60) + s % 60
    ensures s / 60 % 60 < 60 && s % 60 < 60
  {
    assert s / 3600 == s / 60 / 60;
  }

  lemma ClockTextOrder(s: nat, u: nat)
    requires s < u < 86_400
    ensures TextLess(ClockText(s), ClockText(u))
  {
    assert Pow10(2) == 100;
    ClockParts(s);
    ClockParts(u);
    if s / 3600 < u / 3600 {
      PadOrder(s / 3600, u / 3600, 2);
    } else {
      if s / 60 % 60 < u / 60 % 60 {
        PadOrder(s / 60 % 60, u / 60 % 60, 2);
      } else {
        PadOrder(s % 60, u % 60, 2);
      }
      JoinLess(Pad(s / 60 % 60, 2), Pad(u / 60 % 60, 2), ":", Pad(s % 60, 2), Pad(u % 60, 2));
    }
    JoinLess(Pad(s / 3600, 2), Pad(u / 3600, 2), ":",
             Pad(s / 60 % 60, 2) + (":" + Pad(s % 60, 2)), Pad(u / 60 % 60, 2) + (":" + Pad(u % 60, 2)));
  }

  lemma StampOrder(s: nat, u: nat)
    requires s < u && u / 86_400 < DAY_LIMIT
    ensures |Stamp(s)| == |Stamp(u)| && TextLess(Stamp(s), Stamp(u))
  {
    if s / 86_400 < u / 86_400 {
      DateTextOrder(s / 86_400, u / 86_400);
    } else {
      assert s / 86_400 == u / 86_400;
      ClockTextOrder(s % 86_400, u % 86_400);
    }
    JoinLess(DateText(s / 86_400), DateText(u / 86_400), "T", ClockText(s % 86_400), ClockText(u % 86_400));
  }

  lemma NotBoth(x: string, y: string)
    requires TextLess(x, y)
    ensures !TextLess(y, x) && x != y
  {
    TextLessIrreflexive(x);
    if TextLess(y, x) {
      TextLessTransitive(x, y, x);
    }
  }

  /** Whole seconds decide the text order of timestamps; what follows them breaks ties. */
  lemma SecondsDecide(s: nat, u: nat, x: string, y: string)
    requires s / 86_400 < DAY_LIMIT && u / 86_400 < DAY_LIMIT
    ensures TextLess(Stamp(s) + x, Stamp(u) + y) <==> s < u || (s == u && TextLess(x, y))
    ensures s != u ==> Stamp(s) + x != Stamp(u) + y
  {
    if s < u {
      StampOrder(s, u);
      TextLessSameLength(Stamp(s), Stamp(u), x, y);
      NotBoth(Stamp(s) + x, Stamp(u) + y);
    } else if u < s {
      StampOrder(u, s);
      TextLessSameLength(Stamp(u), Stamp(s), y, x);
      NotBoth(Stamp(u) + y, Stamp(s) + x);
    } else {
      TextLessCommonPrefix(Stamp(s), x, y);
    }
  }

  // ---- Order inside one second ----

  lemma {:induction false} ZerosAreLeast(a: string, b: string)
    requires |a| == |b| && IsDigits(b)
    requires forall i :: 0 <= i < |a| ==> a[i] == '0'
    requires exists i :: 0 <= i < |b| && b[i] != '0'
    ensures TextLess(a, b)
  {
    if b[0] == '0' {
      ZerosAreLeast(a[1..], b[1..]);
    }
  }

  lemma ExtendedDigits(u: string, v: string, p: string, q: string)
    requires u < v && u <= p && v <= q && |p| == |q| && IsDigits(q)
    requires v[|v| - 1] != '0' && forall i :: |u| <= i < |p| ==> p[i] == '0'
    ensures TextLess(v + "Z", u + "Z")
    ensures TextLess(p, q)
  {
    assert p == u + p[|u|..] && q == u + q[|u|..];
    assert q[|u|..][|v| - 1 - |u|] == v[|v| - 1];
    ZerosAreLeast(p[|u|..], q[|u|..]);
    TextLessCommonPrefix(u, p[|u|..], q[|u|..]);
    var w := v[|u|..];
    assert v + "Z" == u + (w + "Z");
    assert (w + "Z")[0] == v[|u|] == q[|u|];
    TextLessCommonPrefix(u, w + "Z", "Z");
  }

  /** A fraction that extends another one's digits is the later instant but the smaller text. */
  lemma ExtensionInverts(a: nat, b: nat)
    requires FractionDigits(a) < FractionDigits(b)
    ensures TextLess(FractionTail(b), FractionTail(a))
    ensures TextLess(Pad(a % SECOND, 9), Pad(b % SECOND, 9))
  {
    var u, v := FractionDigits(a), FractionDigits(b);
    ExtendedDigits(u, v, Pad(a % SECOND, 9), Pad(b % SECOND, 9));
    assert FractionTail(b) == "." + (v + "Z");
    if u != "" {
      assert FractionTail(a) == "." + (u + "Z");
      TextLessCommonPrefix(".", v + "Z", u + "Z");
    }
  }

  lemma UnrelatedFractionsAgree(a: nat, b: nat)
    requires !(FractionDigits(a) <= FractionDigits(b)) && !(FractionDigits(b) <= FractionDigits(a))
    ensures TextLess(FractionTail(a), FractionTail(b)) == TextLess(Pad(a % SECOND, 9), Pad(b % SECOND, 9))
  {
    var u, v := FractionDigits(a), FractionDigits(b);
    var p, q := Pad(a % SECOND, 9), Pad(b % SECOND, 9);
    assert p == u + p[|u|..] && q == v + q[|v|..];
    TextLessIgnoresTails(u, v, p[|u|..], q[|v|..]);
    TextLessIgnoresTails(u, v, "Z", "Z");
    assert FractionTail(a) == "." + (u + "Z") && FractionTail(b) == "." + (v + "Z");
    TextLessCommonPrefix(".", u + "Z", v + "Z");
  }

  lemma NanosOrder(a: nat, b: nat)
    requires a / SECOND == b / SECOND
    ensures TextLess(Pad(a % SECOND, 9), Pad(b % SECOND, 9)) <==> a < b
  {
    Pow10Nine();
    if a < b {
      PadOrder(a % SECOND, b % SECOND, 9);
    } else if b < a {
      PadOrder(b % SECOND, a % SECOND, 9);
      if TextLess(Pad(a % SECOND, 9), Pad(b % SECOND, 9)) {
        TextLessTransitive(Pad(a % SECOND, 9), Pad(b % SECOND, 9), Pad(a % SECOND, 9));
        TextLessIrreflexive(Pad(a % SECOND, 9));
      }
    } else {
      TextLessIrreflexive(Pad(a % SECOND, 9));
    }
  }

  lemma Pow10Nine()
    ensures Pow10(9) == SECOND
  {
    assert Pow10(3) == 1000;
    assert Pow10(6) == 1_000_000;
  }

  lemma EqualDigitsEqualTime(a: nat, b: nat)
    requires a / SECOND == b / SECOND && FractionDigits(a) == FractionDigits(b)
    ensures a == b
  {
    var u := FractionDigits(a);
    var p, q := Pad(a % SECOND, 9), Pad(b % SECOND, 9);
    assert forall i :: 0 <= i < 9 ==> p[i] == q[i] by {
      forall i | 0 <= i < 9 ensures p[i] == q[i] {
        if i < |u| {
          assert p[i] == u[i] == q[i];
        }
      }
    }
    assert p == q;
    NanosOrder(a, b);
    NanosOrder(b, a);
    TextLessIrreflexive(p);
  }

  // ---- Main results ----

  /** The shape on which text order and time order disagree: one whole second, and the printed
      fraction of one instant is a prefix of the other's (a whole second prints no fraction). */
  predicate Inverted(a: nat, b: nat) {
    a / SECOND == b / SECOND && (FractionDigits(a) <= FractionDigits(b) || FractionDigits(b) <= FractionDigits(a))
  }

  /** Text order agrees with time exactly on the pairs that are not Inverted. */
  lemma TextOrderExact(a: nat, b: nat)
    requires a != b && InRange(a) && InRange(b)
    ensures (TextLess(FormatTime(a), FormatTime(b)) <==> a < b) <==> !Inverted(a, b)
    ensures FormatTime(a) != FormatTime(b)
  {
    DayInRange(a);
    DayInRange(b);
    SecondsDecide(a / SECOND, b / SECOND, FractionTail(a), FractionTail(b));
    if a / SECOND == b / SECOND {
      SameSecondExact(a, b);
    }
  }

  lemma SameSecondExact(a: nat, b: nat)
    requires a != b && a / SECOND == b / SECOND
    ensures (TextLess(FormatTime(a), FormatTime(b)) <==> a < b) <==> !Inverted(a, b)
    ensures FormatTime(a) != FormatTime(b)
  {
    var u, v := FractionDigits(a), FractionDigits(b);
    TextLessCommonPrefix(Stamp(a / SECOND), FractionTail(a), FractionTail(b));
    TextLessCommonPrefix(Stamp(a / SECOND), FractionTail(b), FractionTail(a));
    NanosOrder(a, b);
    NanosOrder(b, a);
    if u == v {
      EqualDigitsEqualTime(a, b);
    } else if u <= v {
      ExtensionInverts(a, b);
      NotBoth(FormatTime(b), FormatTime(a));
    } else if v <= u {
      ExtensionInverts(b, a);
      NotBoth(FormatTime(a), FormatTime(b));
    } else {
      UnrelatedFractionsAgree(a, b);
      UnrelatedFractionsAgree(b, a);
      TextLessIrreflexive(FormatTime(a));
    }
  }

  /** Every comparison of stored timestamps is right up to less than one second. */
  lemma TextSkewUnderOneSecond(a: nat, b: nat)
    requires TextLeq(FormatTime(a), FormatTime(b)) && InRange(a)
    ensures a / SECOND <= b / SECOND
    ensures a < b + SECOND
  {
    if b / SECOND < a / SECOND {
      DayInRange(a);
      SecondsDecide(b / SECOND, a / SECOND, FractionTail(b), FractionTail(a));
    }
  }

  /** Instants a full second apart compare correctly. */
  lemma TextOrderOfSpaced(a: nat, b: nat)
    requires a + SECOND <= b && InRange(b)
    ensures TextLess(FormatTime(a), FormatTime(b))
    ensures !TextLeq(FormatTime(b), FormatTime(a))
  {
    assert (a + SECOND) / SECOND == a / SECOND + 1;
    assert (a + SECOND) / SECOND <= b / SECOND;
    DayInRange(b);
    SecondsDecide(a / SECOND, b / SECOND, FractionTail(a), FractionTail(b));
  }

  /** Against a whole-second bound printed with nine digits the text comparison is exact. */
  lemma BudgetBoundExact(t: nat, bound: nat)
    requires bound % SECOND == 0 && InRange(t) && InRange(bound)
    ensures TextLeq(FormatBudgetBound(bound), FormatTime(t)) <==> bound <= t
    ensures TextLess(FormatTime(t), FormatBudgetBound(bound)) <==> t < bound
  {
    DayInRange(bound);
    BoundTextExact(t, bound / SECOND, Pad(bound % SECOND, 9)) by {
      AllZeros(bound % SECOND, 9);
    }
    assert bound == bound / SECOND * SECOND;
  }

  lemma BoundTextExact(t: nat, second: nat, zeros: string)
    requires |zeros| == 9 && forall i :: 0 <= i < 9 ==> zeros[i] == '0'
    requires InRange(t) && second / 86_400 < DAY_LIMIT
    ensures TextLess(FormatTime(t), Stamp(second) + ("." + zeros + "Z")) <==> t / SECOND < second
  {
    DayInRange(t);
    SecondsDecide(t / SECOND, second, FractionTail(t), "." + zeros + "Z");
    ZeroTailLeast(t, zeros);
  }

  lemma ZeroTailLeast(t: nat, zeros: string)
    requires |zeros| == 9 && forall i :: 0 <= i < 9 ==> zeros[i] == '0'
    ensures !TextLess(FractionTail(t), "." + zeros + "Z")
  {
    var u := FractionDigits(t);
    if u != "" {
      assert u[|u| - 1] != '0' && IsDigits(u);
      ZerosAreLeast(zeros[..|u|], u);
      TextLessSameLength(zeros[..|u|], u, zeros[|u|..] + "Z", "Z");
      assert zeros + "Z" == zeros[..|u|] + (zeros[|u|..] + "Z");
      assert "." + zeros + "Z" == "." + (zeros + "Z");
      assert FractionTail(t) == "." + (u + "Z");
      TextLessCommonPrefix(".", zeros + "Z", u + "Z");
      NotBoth("." + (zeros + "Z"), "." + (u + "Z"));
    }
  }

  lemma {:induction false} AllZeros(n: nat, w: nat)
    requires n == 0
    ensures forall i :: 0 <= i < w ==> Pad(n, w)[i] == '0'
  {
    if w > 0 {
      AllZeros(n / 10, w - 1);
    }
  }

  /** A disagreement in the wild: half past a second sorts before that second itself. */
  lemma TextOrderIsNotTimeOrder()
    ensures TextLess(FormatTime(SECOND / 2), FormatTime(0))
  {
    AllZeros(0 % SECOND, 9);
    assert FractionDigits(0) == "";
    if FractionDigits(SECOND / 2) == "" {
      EqualDigitsEqualTime(0, SECOND / 2);
    }
    assert "" < FractionDigits(SECOND / 2);
    ExtensionInverts(0, SECOND / 2);
    TextLessCommonPrefix(Stamp(0), FractionTail(SECOND / 2), FractionTail(0));
  }

  // ---- UTC days ----

  function DayOf(t: nat): nat {
    t / DAY
  }

  /** The UTC day window of an instant: [DayStart, DayStart + 24h). */
  function DayStart(t: nat): nat {
    t / DAY * DAY
  }

  lemma DayWindow(t: nat, u: nat)
    ensures DayStart(t) <= u < DayStart(t) + DAY <==> DayOf(u) == DayOf(t)
    ensures DayStart(t) % SECOND == 0 && (DayStart(t) + DAY) % SECOND == 0
  {
    var d := t / DAY;
    assert DayStart(t) == d * 86_400 * SECOND;
    assert (d * 86_400 * SECOND) % SECOND == 0;
    assert ((d * 86_400 + 86_400) * SECOND) % SECOND == 0;
  }

  /** What SQL compares: start <= created_at < end, all as text. */
  predicate InTextWindow(t: nat, start: nat, end: nat) {
    TextLeq(FormatBudgetBound(start), FormatTime(t)) && TextLess(FormatTime(t), FormatBudgetBound(end))
  }

  /** A day whose window ends before year 10000. */
  predicate WindowInRange(now: nat) {
    InRange(DayStart(now) + DAY)
  }

  lemma TextWindowExact(t: nat, start: nat, end: nat)
    requires start % SECOND == 0 && end % SECOND == 0 && InRange(t) && InRange(start) && InRange(end)
    ensures InTextWindow(t, start, end) <==> start <= t < end
  {
    BudgetBoundExact(t, start);
    BudgetBoundExact(t, end);
  }

  lemma TextWindowIsDay(t: nat, now: nat)
    requires InRange(t) && WindowInRange(now)
    ensures InTextWindow(t, DayStart(now), DayStart(now) + DAY) <==> DayOf(t) == DayOf(now)
  {
    DayWindow(now, t);
    TextWindowExact(t, DayStart(now), DayStart(now) + DAY);
  }
}
